/**
 * The sample filter and the distribution histogram of the training script
 * (server/training/train_asl_classifier.py, `load_training_data`). The JSON
 * file read, the numpy conversion and the printing are not modelled: the
 * loaded document is a parameter, the histogram is a sequence of rows, and
 * a Python exception (AttributeError, TypeError) is None.
 */
module TrainingData {
  import opened Wrappers
  import opened Json

  /** `list('ABCDEFGHIJKLMNOPQRSTUVWXYZ')`. */
  const ASL_LABELS: seq<string> :=
    ["A", "B", "C", "D", "E", "F", "G", "H", "I", "J", "K", "L", "M",
     "N", "O", "P", "Q", "R", "S", "T", "U", "V", "W", "X", "Y", "Z"]

  /** Landmark values a sample must carry: 21 landmarks of 3 coordinates. */
  const FEATURES: nat := 63

  /** The sample count below which the script warns. */
  const FEW_SAMPLES: nat := 100

  /** The labels are the 26 letters A..Z in order, each a one-character string. */
  lemma LabelTable()
    ensures |ASL_LABELS| == 26
    ensures forall i :: 0 <= i < 26 ==> ASL_LABELS[i] == [('A' as int + i) as char]
    ensures forall i, j :: 0 <= i < j < 26 ==> ASL_LABELS[i] != ASL_LABELS[j]
  {
  }

  /** The kept pairs: X[i] is the landmarks of the sample whose letter is y[i]. */
  datatype Dataset = Dataset(X: seq<Json>, y: seq<string>)

  /** What the loop body makes of a sample it does not fail on: it drops
      the sample or keeps its landmarks and letter. */
  datatype Verdict = Drop | Keep(landmarks: Json, letter: string)

  /** One turn of `for sample in samples`. The sample must be a dict and its
      landmarks must have a length; missing fields default to [] and ''. */
  function Examine(sample: Json): Option<Verdict> {
    if !sample.JObj? then None
    else
      var landmarks := Get(sample.fields, "landmarks", JArr([]));
      var letter := Get(sample.fields, "letter", JStr(""));
      var n :- PyLen(landmarks);
      if n == FEATURES && letter.JStr? && letter.s in ASL_LABELS then Some(Keep(landmarks, letter.s))
      else Some(Drop)
  }

  /** The X and y the loop builds from `samples`. */
  function Filter(samples: seq<Json>): (r: Option<Dataset>)
    ensures r.Some? <==> forall k :: 0 <= k < |samples| ==> Examine(samples[k]).Some?
    ensures r.Some? ==> |r.value.X| == |r.value.y|
  {
    if samples == [] then Some(Dataset([], []))
    else
      var init :- Filter(samples[..|samples| - 1]);
      var v :- Examine(samples[|samples| - 1]);
      match v
      case Drop => Some(init)
      case Keep(landmarks, letter) => Some(Dataset(init.X + [landmarks], init.y + [letter]))
  }

  /** `load_training_data` between the read and the numpy conversion. */
  function LoadSpec(data: Json): Option<Dataset> {
    if !data.JObj? then None
    else
      var samples :- LoopItems(Get(data.fields, "data", JArr([])));
      Filter(samples)
  }

  // ------------------------------------------------------------------
  // Properties of the filter
  // ------------------------------------------------------------------

  /** The loop body fails on a sample that is not a dict, and on a dict
      sample whose landmarks have no length. Otherwise a sample is kept iff
      its landmarks have exactly 63 entries and its letter is one of A..Z,
      and a sample missing either field is dropped. */
  lemma ExamineKeepsIff(sample: Json)
    ensures !sample.JObj? ==> Examine(sample).None?
    ensures sample.JObj? ==>
      var landmarks := Get(sample.fields, "landmarks", JArr([]));
      var letter := Get(sample.fields, "letter", JStr(""));
      && (Examine(sample).Some? <==> PyLen(landmarks).Some?)
      && (Examine(sample).Some? && Examine(sample).value.Keep? <==>
            PyLen(landmarks) == Some(63) && letter.JStr? && letter.s in ASL_LABELS)
      && ("landmarks" !in sample.fields ==> Examine(sample) == Some(Drop))
      && ("letter" !in sample.fields && PyLen(landmarks).Some? ==> Examine(sample) == Some(Drop))
  {
    if !sample.JObj? {
    } else if "landmarks" !in sample.fields {
      assert PyLen(JArr([])) == Some(0);
    } else if "letter" !in sample.fields {
      assert "" !in ASL_LABELS;
    }
  }

  /** The filter works sample by sample and keeps order: filtering a
      concatenation concatenates the kept pairs. */
  lemma {:induction false} FilterAppend(a: seq<Json>, b: seq<Json>)
    requires Filter(a).Some? && Filter(b).Some?
    ensures Filter(a + b).Some?
    ensures Filter(a + b).value == Dataset(Filter(a).value.X + Filter(b).value.X, Filter(a).value.y + Filter(b).value.y)
    decreases |b|
  {
    if b == [] {
      assert a + b == a;
    } else {
      var b' := b[..|b| - 1];
      assert (a + b)[..|a + b| - 1] == a + b';
      assert (a + b)[|a + b| - 1] == b[|b| - 1];
      assert Filter(b').Some? by {
        forall k | 0 <= k < |b'| ensures Examine(b'[k]).Some? {
          assert b'[k] == b[k];
        }
      }
      FilterAppend(a, b');
      var fa := Filter(a).value;
      var fb := Filter(b').value;
      match Examine(b[|b| - 1]).value
      case Drop =>
      case Keep(landmarks, letter) =>
        assert fa.X + fb.X + [landmarks] == fa.X + (fb.X + [landmarks]);
        assert fa.y + fb.y + [letter] == fa.y + (fb.y + [letter]);
    }
  }

  /** A single sample is kept as one pair or dropped. */
  lemma FilterOne(sample: Json)
    requires Examine(sample).Some?
    ensures Filter([sample]).value ==
      match Examine(sample).value
      case Drop => Dataset([], [])
      case Keep(landmarks, letter) => Dataset([landmarks], [letter])
  {
    assert [sample][..0] == [];
  }

  /** Every kept letter is one of the labels. */
  lemma {:induction false} FilterLetters(samples: seq<Json>)
    requires Filter(samples).Some?
    ensures forall i :: 0 <= i < |Filter(samples).value.y| ==> Filter(samples).value.y[i] in ASL_LABELS
    decreases |samples|
  {
    if samples != [] {
      var init := samples[..|samples| - 1];
      assert Filter(init).Some? by {
        forall k | 0 <= k < |init| ensures Examine(init[k]).Some? {
          assert init[k] == samples[k];
        }
      }
      FilterLetters(init);
    }
  }

  // ------------------------------------------------------------------
  // The loop
  // ------------------------------------------------------------------

  /** The `for sample in samples` loop, appending to X and y. */
  method FilterSamples(samples: seq<Json>) returns (r: Option<Dataset>)
    ensures r == Filter(samples)
  {
    var X: seq<Json> := [];
    var y: seq<string> := [];
    for i := 0 to |samples|
      invariant Filter(samples[..i]) == Some(Dataset(X, y))
    {
      assert samples[..i + 1][..i] == samples[..i];
      var v := Examine(samples[i]);
      if v.None? {
        assert !Filter(samples).Some? by {
          assert Examine(samples[i]).None?;
        }
        return None;
      }
      if v.value.Keep? {
        X := X + [v.value.landmarks];
        y := y + [v.value.letter];
      }
    }
    assert samples[..|samples|] == samples;
    r := Some(Dataset(X, y));
  }

  /** `load_training_data` on the decoded file. */
  method LoadTrainingData(data: Json) returns (r: Option<Dataset>)
    ensures r == LoadSpec(data)
  {
    if !data.JObj? {
      return None;
    }
    var samples := LoopItems(Get(data.fields, "data", JArr([])));
    if samples.None? {
      return None;
    }
    r := FilterSamples(samples.value);
  }

  // ------------------------------------------------------------------
  // The distribution
  // ------------------------------------------------------------------

  /** `Counter(y)[letter]`. */
  function Count(y: seq<string>, letter: string): nat {
    if y == [] then 0
    else Count(y[..|y| - 1], letter) + (if y[|y| - 1] == letter then 1 else 0)
  }

  /** The histogram bar: one block per five samples, "-" for none. */
  function Bar(count: nat): string {
    if count > 0 then seq(count / 5, _ => '█') else "-"
  }

  datatype Row = Row(letter: string, count: nat, bar: string)

  /** `Count` is the number of occurrences. */
  lemma {:induction false} CountIsMultiplicity(y: seq<string>, x: string)
    ensures Count(y, x) == multiset(y)[x]
    decreases |y|
  {
    if y != [] {
      var init := y[..|y| - 1];
      CountIsMultiplicity(init, x);
      assert y == init + [y[|y| - 1]];
    }
  }

  /** One row per label, in label order: the label, the number of its
      occurrences in `y`, and its bar. */
  function Rows(y: seq<string>, labels: seq<string>): (rows: seq<Row>)
    ensures |rows| == |labels|
    ensures forall i :: 0 <= i < |rows| ==>
      && rows[i].letter == labels[i]
      && rows[i].count == multiset(y)[labels[i]]
      && rows[i].bar == Bar(rows[i].count)
  {
    CountsAreMultiplicities(y);
    seq(|labels|, i requires 0 <= i < |labels| => Row(labels[i], Count(y, labels[i]), Bar(Count(y, labels[i]))))
  }

  lemma CountsAreMultiplicities(y: seq<string>)
    ensures forall x :: Count(y, x) == multiset(y)[x]
  {
    forall x ensures Count(y, x) == multiset(y)[x] {
      CountIsMultiplicity(y, x);
    }
  }

  /** The printed distribution: for each label in label order, the number of
      kept samples with that letter and its bar. */
  function Histogram(y: seq<string>): (rows: seq<Row>)
    ensures |rows| == |ASL_LABELS|
    ensures forall i :: 0 <= i < |rows| ==>
      && rows[i].letter == ASL_LABELS[i]
      && rows[i].count == multiset(y)[ASL_LABELS[i]]
      && rows[i].bar == Bar(rows[i].count)
  {
    Rows(y, ASL_LABELS)
  }

  /** The sum of a histogram's counts. */
  function TotalCount(rows: seq<Row>): nat {
    if rows == [] then 0 else rows[0].count + TotalCount(rows[1..])
  }

  /** The bar has count // 5 blocks and nothing else when count > 0, so it is
      empty for 1 to 4 samples, and it is "-" for none. */
  lemma BarRule(count: nat)
    ensures count == 0 ==> Bar(count) == "-"
    ensures count > 0 ==> |Bar(count)| == count / 5 && forall k :: 0 <= k < |Bar(count)| ==> Bar(count)[k] == '█'
    ensures 0 < count < 5 ==> Bar(count) == ""
  {
  }

  /** The sum of the counts of `labels`. */
  function SumCounts(y: seq<string>, labels: seq<string>): nat {
    if labels == [] then 0 else Count(y, labels[0]) + SumCounts(y, labels[1..])
  }

  lemma {:induction false} SumCountsSnoc(y: seq<string>, x: string, labels: seq<string>)
    ensures SumCounts(y + [x], labels) == SumCounts(y, labels) + Count(labels, x)
    decreases |labels|
  {
    if labels != [] {
      assert (y + [x])[..|y + [x]| - 1] == y;
      SumCountsSnoc(y, x, labels[1..]);
      CountFront(labels, x);
    }
  }

  /** Count also peels off the front. */
  lemma {:induction false} CountFront(s: seq<string>, x: string)
    requires s != []
    ensures Count(s, x) == (if s[0] == x then 1 else 0) + Count(s[1..], x)
    decreases |s|
  {
    if |s| > 1 {
      var init := s[..|s| - 1];
      CountFront(init, x);
      assert init[1..] == s[1..][..|s[1..]| - 1];
    } else {
      assert s[..0] == [] && s[1..] == [];
    }
  }

  /** A label occurs once in the label table. */
  lemma {:induction false} CountDistinct(labels: seq<string>, x: string)
    requires forall i, j :: 0 <= i < j < |labels| ==> labels[i] != labels[j]
    requires x in labels
    ensures Count(labels, x) == 1
    decreases |labels|
  {
    CountFront(labels, x);
    if labels[0] == x {
      assert x !in labels[1..];
      CountAbsent(labels[1..], x);
    } else {
      CountDistinct(labels[1..], x);
    }
  }

  lemma {:induction false} CountAbsent(s: seq<string>, x: string)
    requires x !in s
    ensures Count(s, x) == 0
    decreases |s|
  {
    if s != [] {
      CountAbsent(s[..|s| - 1], x);
    }
  }

  /** When every letter is a label, the histogram's counts add up to the
      number of valid samples. */
  lemma HistogramTotal(y: seq<string>)
    requires forall i :: 0 <= i < |y| ==> y[i] in ASL_LABELS
    ensures TotalCount(Histogram(y)) == |y|
  {
    RowsTotal(y, ASL_LABELS);
    SumCountsTotal(y);
  }

  /** The rows' counts add up to the sum of the labels' counts. */
  lemma {:induction false} RowsTotal(y: seq<string>, labels: seq<string>)
    ensures TotalCount(Rows(y, labels)) == SumCounts(y, labels)
    decreases |labels|
  {
    if labels != [] {
      RowsTotal(y, labels[1..]);
      assert Rows(y, labels)[1..] == Rows(y, labels[1..]);
      assert Rows(y, labels)[0].count == Count(y, labels[0]) by {
        CountIsMultiplicity(y, labels[0]);
      }
    }
  }

  lemma {:induction false} SumCountsTotal(y: seq<string>)
    requires forall i :: 0 <= i < |y| ==> y[i] in ASL_LABELS
    ensures SumCounts(y, ASL_LABELS) == |y|
    decreases |y|
  {
    if y == [] {
      SumCountsEmpty(ASL_LABELS);
    } else {
      var init := y[..|y| - 1];
      assert init + [y[|y| - 1]] == y;
      SumCountsTotal(init);
      SumCountsSnoc(init, y[|y| - 1], ASL_LABELS);
      LabelTable();
      CountDistinct(ASL_LABELS, y[|y| - 1]);
    }
  }

  lemma {:induction false} SumCountsEmpty(labels: seq<string>)
    ensures SumCounts([], labels) == 0
    decreases |labels|
  {
    if labels != [] {
      SumCountsEmpty(labels[1..]);
    }
  }

  /** `main` warns when fewer than 100 valid samples remain. */
  predicate Warns(d: Dataset) {
    |d.X| < FEW_SAMPLES
  }

  /** The warning fires exactly when the histogram of a load accounts for
      fewer than 100 samples. */
  lemma WarnsIffFewCounted(data: Json)
    requires LoadSpec(data).Some?
    ensures var d := LoadSpec(data).value;
      Warns(d) <==> TotalCount(Histogram(d.y)) < 100
  {
    var samples := LoopItems(Get(data.fields, "data", JArr([]))).value;
    FilterLetters(samples);
    HistogramTotal(LoadSpec(data).value.y);
  }
}
