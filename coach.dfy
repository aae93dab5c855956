/**
 * The coaching logic of GeminiCoach (server/app/llm/gemini.py): keyword
 * intent parsing of a transcript, template choice for coaching text, and
 * planning of the next lesson. The source's async wrappers only return
 * these values, so each is a function here.
 */
module Coach {
  import opened Wrappers
  import opened PyStrings
  import opened Events
  import opened Classifier

  // ------------------------------------------------------------------
  // parse_intent
  // ------------------------------------------------------------------

  /** The j-th upper-case letter, in the order "ABCDEFGHIJKLMNOPQRSTUVWXYZ". */
  function Letter(j: nat): (c: char)
    requires j < 26
    ensures IsUpper(c) && LowerChar(c) as int == 'a' as int + j
  {
    ('A' as int + j) as char
  }

  /** The intent dicts parse_intent returns: {"intent": "teach", "target": c},
      {"intent": "quiz", "focus": None}, {"intent": "repeat", "target": None},
      {"intent": "help", "topic": None}, {"intent": "unknown", "raw": t}. */
  datatype Intent = Teach(target: char) | Quiz | Repeat | Help | Unknown(raw: string)

  /** The lower-case form of letter `c` is a whole token. */
  predicate HasLetterToken(tokens: seq<string>, c: char) {
    [LowerChar(c)] in tokens
  }

  /** The first of the letters Letter(i), ..., Letter(25) whose lower-case form
      is a token, else 'A'. */
  function FirstLetterToken(tokens: seq<string>, i: nat): (c: char)
    requires i <= 26
    ensures IsUpper(c)
    ensures (exists j :: i <= j < 26 && HasLetterToken(tokens, Letter(j))) ==>
      exists j :: i <= j < 26 && c == Letter(j) && HasLetterToken(tokens, c)
        && forall k :: i <= k < j ==> !HasLetterToken(tokens, Letter(k))
    ensures (forall j :: i <= j < 26 ==> !HasLetterToken(tokens, Letter(j))) ==> c == 'A'
    decreases 26 - i
  {
    if i == 26 then 'A'
    else if HasLetterToken(tokens, Letter(i)) then Letter(i)
    else FirstLetterToken(tokens, i + 1)
  }

  /** `parse_intent(transcript)`. */
  function ParseIntent(transcript: string): Intent {
    var lower := Lower(transcript);
    if Contains(lower, "teach") then Teach(FirstLetterToken(Split(lower), 0))
    else if Contains(lower, "quiz") then Quiz
    else if Contains(lower, "repeat") then Repeat
    else if Contains(lower, "help") then Help
    else Unknown(transcript)
  }

  /** Keywords are tried in a fixed order, each as a case-insensitive substring:
      teach, then quiz, then repeat, then help; only an unmatched transcript is
      unknown, and it comes back unchanged. */
  lemma IntentPrecedence(transcript: string)
    ensures var l := Lower(transcript); var r := ParseIntent(transcript);
      && (r.Teach? <==> Contains(l, "teach"))
      && (r.Quiz? <==> !Contains(l, "teach") && Contains(l, "quiz"))
      && (r.Repeat? <==> !Contains(l, "teach") && !Contains(l, "quiz") && Contains(l, "repeat"))
      && (r.Help? <==> !Contains(l, "teach") && !Contains(l, "quiz") && !Contains(l, "repeat")
                       && Contains(l, "help"))
      && (r.Unknown? <==> !Contains(l, "teach") && !Contains(l, "quiz") && !Contains(l, "repeat")
                          && !Contains(l, "help"))
      && (r.Unknown? ==> r.raw == transcript)
  {
  }

  /** The target of a teach intent is one upper-case letter: the first letter in
      alphabetical order (not in the order spoken) whose lower-case form is a whole
      whitespace-separated token of the lowered transcript, or 'A' when there is none. */
  lemma TeachTarget(transcript: string)
    requires ParseIntent(transcript).Teach?
    ensures var l := Lower(transcript); var c := ParseIntent(transcript).target;
      && IsUpper(c)
      && ((exists d :: IsUpper(d) && IsToken(l, [LowerChar(d)])) ==>
            IsToken(l, [LowerChar(c)])
            && forall d :: 'A' <= d < c ==> !IsToken(l, [LowerChar(d)]))
      && ((forall d :: IsUpper(d) ==> !IsToken(l, [LowerChar(d)])) ==> c == 'A')
  {
    var l := Lower(transcript);
    var tokens := Split(l);
    var c := ParseIntent(transcript).target;
    assert c == FirstLetterToken(tokens, 0);
    LetterTokens(l);
    if exists d :: IsUpper(d) && IsToken(l, [LowerChar(d)]) {
      FirstLetterFound(tokens);
    } else {
      FirstLetterDefault(tokens);
    }
  }

  /** A letter is a token of the split exactly when it is a token of the text. */
  lemma LetterTokens(l: string)
    ensures forall d :: IsUpper(d) ==> (HasLetterToken(Split(l), d) <==> IsToken(l, [LowerChar(d)]))
  {
    forall d | IsUpper(d) ensures HasLetterToken(Split(l), d) <==> IsToken(l, [LowerChar(d)]) {
      SplitTokens(l, [LowerChar(d)]);
    }
  }

  /** When some letter is a token, the scan finds the least one. */
  lemma FirstLetterFound(tokens: seq<string>)
    requires exists d :: IsUpper(d) && HasLetterToken(tokens, d)
    ensures var c := FirstLetterToken(tokens, 0);
      HasLetterToken(tokens, c) && forall e :: 'A' <= e < c ==> !HasLetterToken(tokens, e)
  {
    var d :| IsUpper(d) && HasLetterToken(tokens, d);
    assert d == Letter(d as int - 'A' as int);
    var c := FirstLetterToken(tokens, 0);
    var j :| 0 <= j < 26 && c == Letter(j) && HasLetterToken(tokens, c)
      && forall k :: 0 <= k < j ==> !HasLetterToken(tokens, Letter(k));
    forall e | 'A' <= e < c ensures !HasLetterToken(tokens, e) {
      assert e == Letter(e as int - 'A' as int);
    }
  }

  /** When no letter is a token, the scan falls back to 'A'. */
  lemma FirstLetterDefault(tokens: seq<string>)
    requires forall d :: IsUpper(d) ==> !HasLetterToken(tokens, d)
    ensures FirstLetterToken(tokens, 0) == 'A'
  {
    forall j | 0 <= j < 26 ensures !HasLetterToken(tokens, Letter(j)) {
      assert IsUpper(Letter(j));
    }
  }

  /** A substring match is enough: "Teacher" is a teach intent, and with no
      single-letter token its target is 'A'. */
  lemma IntentExampleTeacher()
    ensures ParseIntent("Teacher") == Teach('A')
  {
    var t := Lower("Teacher");
    assert t == "teacher";
    assert OccursAt(t, "teach", 0);
    WordEndIs(t, 0, 7);
    assert Split(t) == [t[..7]] + Split(t[7..]);
    assert t[..7] == "teacher" && t[7..] == [];
    assert Split(t) == ["teacher"];
    assert FirstLetterToken(["teacher"], 0) == 'A';
  }

  // ------------------------------------------------------------------
  // generate_coaching
  // ------------------------------------------------------------------

  /** `f"{prediction}"` for an optional prediction. */
  function Show(p: Option<string>): string {
    if p.Some? then p.value else "None"
  }

  /** The prediction confidence above which a matching sign is praised. */
  const PRAISE_THRESHOLD: real := 0.8

  /** `generate_coaching(recognition_result, target_sign)`. */
  function GenerateCoaching(result: Classification, target: string): string {
    if result.prediction == Some(target) && result.confidence > PRAISE_THRESHOLD then
      "Great job! That's a perfect " + target + "! Ready for the next one?"
    else if result.prediction == Some(target) then
      "Good! That looks like " + target + ". Try to hold it a bit more steadily."
    else if result.issues != [] then
      "Almost! I see " + Show(result.prediction) + " but you're going for " + target
      + ". Try adjusting: " + Join(", ", Take(result.issues, 2))
    else
      "I see " + Show(result.prediction) + ". For " + target
      + ", make sure your fingers are positioned correctly."
  }

  /** What the adjusting hint lists: the first issue, or the first two joined by ", ". */
  function FirstTwoIssues(issues: seq<string>): string
    requires issues != []
  {
    if |issues| == 1 then issues[0] else issues[0] + ", " + issues[1]
  }

  /** The four template heads start differently: which of the four prefixes
      a coaching text starts with is decided by its head. */
  lemma TemplateHead(text: string, h: string)
    requires h in ["Great job! That's a perfect ", "Good! That looks like ", "Almost! I see ", "I see "]
    requires StartsWith(text, h)
    ensures StartsWith(text, "Great job!") <==> h[0] == 'G' && h[1] == 'r'
    ensures StartsWith(text, "Good!") <==> h[0] == 'G' && h[1] == 'o'
    ensures StartsWith(text, "Almost!") <==> h[0] == 'A'
    ensures StartsWith(text, "I see ") <==> h[0] == 'I'
  {
    assert text[0] == h[0] && text[1] == h[1];
    if h[0] == 'G' && h[1] == 'r' {
      PrefixOfPrefix(text, h, "Great job!");
    } else if h[0] == 'G' {
      PrefixOfPrefix(text, h, "Good!");
    } else if h[0] == 'A' {
      PrefixOfPrefix(text, h, "Almost!");
    } else {
      PrefixOfPrefix(text, h, "I see ");
    }
  }

  /** The coaching text is one of four heads followed by the rest of its template. */
  lemma CoachingHead(result: Classification, target: string)
    ensures var text := GenerateCoaching(result, target);
      var matched := result.prediction == Some(target);
      StartsWith(text, CoachingHeadOf(matched, result.confidence, result.issues))
  {
    var matched := result.prediction == Some(target);
    if matched && result.confidence > PRAISE_THRESHOLD {
      var h := "Great job! That's a perfect ";
      ConcatStartsWith(h, target);
      StartsWithExtend(h + target, h, "! Ready for the next one?");
    } else if matched {
      var h := "Good! That looks like ";
      ConcatStartsWith(h, target);
      StartsWithExtend(h + target, h, ". Try to hold it a bit more steadily.");
    } else if result.issues != [] {
      var h := "Almost! I see ";
      var s1 := h + Show(result.prediction);
      ConcatStartsWith(h, Show(result.prediction));
      var s2 := s1 + " but you're going for ";
      StartsWithExtend(s1, h, " but you're going for ");
      var s3 := s2 + target;
      StartsWithExtend(s2, h, target);
      var s4 := s3 + ". Try adjusting: ";
      StartsWithExtend(s3, h, ". Try adjusting: ");
      StartsWithExtend(s4, h, Join(", ", Take(result.issues, 2)));
    } else {
      var h := "I see ";
      var s1 := h + Show(result.prediction);
      ConcatStartsWith(h, Show(result.prediction));
      var s2 := s1 + ". For ";
      StartsWithExtend(s1, h, ". For ");
      var s3 := s2 + target;
      StartsWithExtend(s2, h, target);
      StartsWithExtend(s3, h, ", make sure your fingers are positioned correctly.");
    }
  }

  /** The fixed opening of the template chosen for a (non-)match, confidence and issues. */
  function CoachingHeadOf(matched: bool, confidence: real, issues: seq<string>): string {
    if matched && confidence > PRAISE_THRESHOLD then "Great job! That's a perfect "
    else if matched then "Good! That looks like "
    else if issues != [] then "Almost! I see "
    else "I see "
  }

  /** Which template is chosen: praise only for a match above 0.8 (strictly),
      the steadiness hint for a match at or below 0.8, the adjusting hint for a
      mismatch with issues, and the generic hint for a mismatch without. */
  lemma CoachingTemplates(result: Classification, target: string)
    ensures var text := GenerateCoaching(result, target);
      var matched := result.prediction == Some(target);
      && (StartsWith(text, "Great job!") <==> matched && result.confidence > 0.8)
      && (StartsWith(text, "Good!") <==> matched && result.confidence <= 0.8)
      && (StartsWith(text, "Almost!") <==> !matched && result.issues != [])
      && (StartsWith(text, "I see ") <==> !matched && result.issues == [])
  {
    var matched := result.prediction == Some(target);
    CoachingHead(result, target);
    TemplateHead(GenerateCoaching(result, target), CoachingHeadOf(matched, result.confidence, result.issues));
  }

  /** The adjusting hint lists at most the first two issues, joined by ", ". */
  lemma CoachingListsFirstTwoIssues(result: Classification, target: string)
    requires result.prediction != Some(target) && result.issues != []
    ensures GenerateCoaching(result, target)
      == "Almost! I see " + Show(result.prediction) + " but you're going for " + target
         + ". Try adjusting: " + FirstTwoIssues(result.issues)
  {
    var issues := result.issues;
    if |issues| == 1 {
      assert Take(issues, 2) == [issues[0]];
    } else {
      assert Take(issues, 2) == [issues[0], issues[1]];
      assert Join(", ", [issues[0], issues[1]]) == issues[0] + ", " + Join(", ", [issues[1]]);
    }
  }

  /** A frame without a hand is coached with the "no hand" issue. */
  lemma CoachingWithoutHand(target: string)
    ensures GenerateCoaching(NO_HAND_RESULT, target)
      == "Almost! I see " + "None" + " but you're going for " + target + ". Try adjusting: " + NO_HAND
  {
    CoachingListsFirstTwoIssues(NO_HAND_RESULT, target);
  }

  // ------------------------------------------------------------------
  // plan_next_prompt
  // ------------------------------------------------------------------

  /** The lesson order of the MVP, a space included. */
  const MVP_ALPHABET: string := "ABCEILOVY W"

  /** One entry of the session history: its "sign" (possibly missing) and
      whether its "passed" value is truthy. */
  datatype HistoryEntry = HistoryEntry(sign: Option<string>, passed: bool)

  /** The plan dict: next_sign, mode and hint. */
  datatype Plan = Plan(nextSign: string, mode: SessionMode, hint: Option<string>)

  /** `sign` is in the set of signs of passed history entries. */
  predicate Completed(history: seq<HistoryEntry>, sign: string) {
    exists h :: h in history && h.passed && h.sign == Some(sign)
  }

  /** The index of the first lesson in MVP_ALPHABET[i..] not yet completed,
      or |MVP_ALPHABET| when all are. */
  function FirstOpen(history: seq<HistoryEntry>, i: nat): (k: nat)
    requires i <= |MVP_ALPHABET|
    ensures i <= k <= |MVP_ALPHABET|
    ensures forall j :: i <= j < k ==> Completed(history, [MVP_ALPHABET[j]])
    ensures k < |MVP_ALPHABET| ==> !Completed(history, [MVP_ALPHABET[k]])
    decreases |MVP_ALPHABET| - i
  {
    if i == |MVP_ALPHABET| || !Completed(history, [MVP_ALPHABET[i]]) then i
    else FirstOpen(history, i + 1)
  }

  /** `plan_next_prompt(session_state)` with its "weak_signs" and "history". */
  function PlanNextPrompt(weakSigns: seq<string>, history: seq<HistoryEntry>): Plan {
    if weakSigns != [] then
      Plan(weakSigns[0], TEACH, Some("Let's practice " + weakSigns[0] + " again"))
    else
      var k := FirstOpen(history, 0);
      if k < |MVP_ALPHABET| then Plan([MVP_ALPHABET[k]], TEACH, None)
      else Plan([MVP_ALPHABET[0]], QUIZ, Some("Great progress! Let's test your knowledge."))
  }

  /** A weak sign always comes first. */
  lemma PlanWeakSignFirst(weakSigns: seq<string>, history: seq<HistoryEntry>)
    requires weakSigns != []
    ensures var p := PlanNextPrompt(weakSigns, history);
      p.mode == TEACH && p.nextSign == weakSigns[0]
      && p.hint == Some("Let's practice " + weakSigns[0] + " again")
  {
  }

  /** Without weak signs, the next lesson is the first character of
      "ABCEILOVY W" (the space included) that no passed entry has completed;
      QUIZ on "A" comes only once every one of them is completed. */
  lemma PlanProgression(history: seq<HistoryEntry>)
    ensures var p := PlanNextPrompt([], history);
      && (p.mode == QUIZ <==> forall j :: 0 <= j < |MVP_ALPHABET| ==> Completed(history, [MVP_ALPHABET[j]]))
      && (p.mode == QUIZ ==> p.nextSign == "A")
      && (p.mode == TEACH ==>
            p.hint.None?
            && exists j :: 0 <= j < |MVP_ALPHABET| && p.nextSign == [MVP_ALPHABET[j]]
                 && !Completed(history, [MVP_ALPHABET[j]])
                 && forall k :: 0 <= k < j ==> Completed(history, [MVP_ALPHABET[k]]))
  {
    var k := FirstOpen(history, 0);
    if k < |MVP_ALPHABET| {
      assert !Completed(history, [MVP_ALPHABET[k]]);
    }
  }

  /** The space in the lesson order is a lesson of its own: after the nine
      letters before it, it is planned before "W". */
  lemma PlanReachesSpace()
    ensures var history := seq(9, i requires 0 <= i < 9 => HistoryEntry(Some([MVP_ALPHABET[i]]), true));
      PlanNextPrompt([], history) == Plan(" ", TEACH, None)
  {
    var history := seq(9, i requires 0 <= i < 9 => HistoryEntry(Some([MVP_ALPHABET[i]]), true));
    forall j | 0 <= j < 9 ensures Completed(history, [MVP_ALPHABET[j]]) {
      assert history[j] in history;
    }
    assert !Completed(history, [MVP_ALPHABET[9]]) by {
      forall h | h in history ensures h.sign != Some(" ") {
        var i :| 0 <= i < 9 && history[i] == h;
      }
    }
    assert FirstOpen(history, 0) == 9;
  }
}
