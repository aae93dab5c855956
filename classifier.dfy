/**
 * The stub sign classifier (server/app/recognition/classifier.py): the sign
 * tables, the "no hand" guard, and the shape of a classification. The
 * classifier's random draws (`random.choice` over the alphabet signs and
 * `random.uniform(0.7, 0.99)`) are the fields of a `Draw`, whose types admit
 * exactly the values those calls can return.
 */
module Classifier {
  import opened Wrappers
  import opened Events

  const ALPHABET_SIGNS: seq<string> := ["A", "B", "C", "E", "I", "L", "O", "V", "W", "Y"]
  const COMMON_SIGNS: seq<string> :=
    ["HELLO", "THANK_YOU", "PLEASE", "YES", "NO", "HELP", "MORE", "STOP", "WATER", "NAME"]
  const ALL_SIGNS: seq<string> := ALPHABET_SIGNS + COMMON_SIGNS

  /** The labels a SignClassifier is constructed with. */
  const LABELS: seq<string> := ALL_SIGNS

  /** The fewest landmarks the guard lets through. */
  const MIN_LANDMARKS: nat := 21
  const NO_HAND: string := "No hand detected"

  /** An index into ALPHABET_SIGNS, as `random.choice` picks one. */
  type SignIndex = i: nat | i < 10

  /** A value `random.uniform(0.7, 0.99)` can return. */
  type Uniform = c: real | 0.7 <= c <= 0.99 witness 0.7

  /** The random draws of one call: the prediction, the two runner-up signs, the confidence. */
  datatype Draw = Draw(first: SignIndex, second: SignIndex, third: SignIndex, confidence: Uniform)

  datatype Candidate = Candidate(sign: string, confidence: real)

  /** The result dict: prediction, confidence, top_k and issues. */
  datatype Classification = Classification(
    prediction: Option<string>,
    confidence: real,
    topK: seq<Candidate>,
    issues: seq<string>)

  /** The result for a frame without a hand. */
  const NO_HAND_RESULT: Classification := Classification(None, 0.0, [], [NO_HAND])

  predicate Distinct(s: seq<string>) {
    forall i, j :: 0 <= i < j < |s| ==> s[i] != s[j]
  }

  /** The label table: the ten alphabet signs then the ten common signs, twenty distinct labels. */
  lemma LabelTables()
    ensures |ALPHABET_SIGNS| == 10 && |COMMON_SIGNS| == 10
    ensures |LABELS| == 20 && LABELS[..10] == ALPHABET_SIGNS && LABELS[10..] == COMMON_SIGNS
    ensures Distinct(LABELS)
  {
    assert LABELS[..10] == ALPHABET_SIGNS;
    assert LABELS[10..] == COMMON_SIGNS;
    AlphabetSignsDistinct();
    CommonSignsDistinct();
    forall i, j | 0 <= i < j < |LABELS| ensures LABELS[i] != LABELS[j] {
      if j < 10 {
        assert LABELS[i] == ALPHABET_SIGNS[i] && LABELS[j] == ALPHABET_SIGNS[j];
      } else if 10 <= i {
        assert LABELS[i] == COMMON_SIGNS[i - 10] && LABELS[j] == COMMON_SIGNS[j - 10];
      } else {
        assert |LABELS[i]| == |ALPHABET_SIGNS[i]| == 1;
        assert |LABELS[j]| == |COMMON_SIGNS[j - 10]| >= 2;
      }
    }
  }

  /** The alphabet signs are single letters, no two alike. */
  lemma AlphabetSignsDistinct()
    ensures Distinct(ALPHABET_SIGNS)
    ensures forall i :: 0 <= i < |ALPHABET_SIGNS| ==> |ALPHABET_SIGNS[i]| == 1
  {
  }

  /** The common signs are words of two letters or more, no two alike. */
  lemma CommonSignsDistinct()
    ensures Distinct(COMMON_SIGNS)
    ensures forall i :: 0 <= i < |COMMON_SIGNS| ==> |COMMON_SIGNS[i]| >= 2
  {
  }

  /** `SignClassifier.classify(landmarks)`. */
  function Classify(landmarks: seq<HandLandmark>, d: Draw): (r: Classification)
  {
    if |landmarks| < MIN_LANDMARKS then NO_HAND_RESULT
    else
      var prediction := ALPHABET_SIGNS[d.first];
      var c := d.confidence as real;
      Classification(
        Some(prediction),
        c,
        [Candidate(prediction, c),
         Candidate(ALPHABET_SIGNS[d.second], c * 0.6),
         Candidate(ALPHABET_SIGNS[d.third], c * 0.3)],
        [])
  }

  /** A frame is rejected exactly when it has fewer than 21 landmarks (an empty
      frame included), and a rejected frame gets the fixed "no hand" result. */
  lemma ClassifyGuard(landmarks: seq<HandLandmark>, d: Draw)
    ensures Classify(landmarks, d) == NO_HAND_RESULT <==> |landmarks| < MIN_LANDMARKS
    ensures landmarks == [] ==> Classify(landmarks, d) == NO_HAND_RESULT
  {
  }

  /** Shape of an accepted frame's result, with no upper bound on the landmark count. */
  lemma ClassifyAccepted(landmarks: seq<HandLandmark>, d: Draw)
    requires |landmarks| >= MIN_LANDMARKS
    ensures var r := Classify(landmarks, d);
      && r.prediction.Some? && r.prediction.value in ALPHABET_SIGNS
      && |r.topK| == 3 && r.topK[0].sign == r.prediction.value
      && (forall k :: 0 <= k < 3 ==> r.topK[k].sign in ALPHABET_SIGNS)
      && r.issues == []
      && 0.7 <= r.confidence <= 0.99
      && 0.7 <= r.topK[0].confidence <= 0.99
      && r.topK[1].confidence == 0.6 * r.topK[0].confidence
      && r.topK[2].confidence == 0.3 * r.topK[0].confidence
      && r.topK[0].confidence >= r.topK[1].confidence >= r.topK[2].confidence > 0.0
  {
  }

  /** Every sign the classifier can emit is in its label table. */
  lemma PredictionIsLabel(landmarks: seq<HandLandmark>, d: Draw)
    ensures var r := Classify(landmarks, d);
      r.prediction.Some? ==> r.prediction.value in LABELS
  {
  }

  /** The dict `extract_features` returns. */
  datatype Features = Features(
    normalizedLandmarks: seq<HandLandmark>,
    fingerCurls: map<string, real>,
    fingertipDistances: map<string, real>,
    palmOrientation: Option<real>)

  /** `SignClassifier.extract_features`: a placeholder that passes the
      landmarks through unnormalised and computes nothing else. */
  function ExtractFeatures(landmarks: seq<HandLandmark>): (f: Features)
    ensures f.normalizedLandmarks == landmarks
    ensures f.fingerCurls == map[] && f.fingertipDistances == map[]
    ensures f.palmOrientation.None?
  {
    Features(landmarks, map[], map[], None)
  }
}
