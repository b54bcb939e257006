/**
 * The scoring engine, `analyzeAnswer`: a heuristic score for an answer text,
 * the feedback message chosen by the score, and the tips to show.
 *
 * The source adds whole and half points to a floating-point score. Every
 * intermediate value is a multiple of one half, so the model counts in half
 * points: the base 5 is 10 half points and each keyword found adds 1.
 * `toLowerCase` is the parameter `lower`, applied character by character.
 */
module Scoring {
  import opened Records
  import opened Text

  /** The six domain keywords, tested in this order. */
  const Keywords: seq<string> := ["опыт", "проект", "команда", "результат", "задачи", "разработка"]

  /** The starting score 5, in half points. */
  const BaseHalfPoints: int := 10

  /** The tips used when a question has none. */
  const DefaultTips: seq<string> := ["Будьте конкретнее", "Приведите примеры", "Свяжите с вакансией"]

  const ExcellentMessage: string := "Отлично! Ответ структурированный и полный."
  const GoodMessage: string := "Хорошо, но можно добавить больше деталей."
  const FairMessage: string := "Неплохо, но ответ слишком общий."
  const NeedsWorkMessage: string := "Нужно поработать над ответом."

  /** What `analyzeAnswer` returns. */
  datatype Analysis = Analysis(score: int, feedback: string, tips: seq<string>)

  /** `answerText.toLowerCase()` under a per-character lowering. */
  function Lowered(lower: char -> char, s: string): (r: string)
    ensures |r| == |s|
    ensures forall k :: 0 <= k < |s| ==> r[k] == lower(s[k])
  {
    seq(|s|, k requires 0 <= k < |s| => lower(s[k]))
  }

  /** The length heuristic in half points: -2 below 30 characters, +1 above 100, another +1 above 200. */
  function LengthAdjustment(len: nat): int {
    (if len < 30 then -4 else 0) + (if len > 100 then 2 else 0) + (if len > 200 then 2 else 0)
  }

  /** How many of `kws` occur in `text` (each counted once, however often it occurs). */
  function CountFound(text: string, kws: seq<string>): (n: nat)
    ensures n <= |kws|
    decreases |kws|
  {
    if kws == [] then 0
    else CountFound(text, kws[..|kws| - 1]) + (if Contains(text, kws[|kws| - 1]) then 1 else 0)
  }

  function KeywordsFound(lower: char -> char, answer: string): nat {
    CountFound(Lowered(lower, answer), Keywords)
  }

  /** The score before rounding, in half points. */
  function RawHalfPoints(lower: char -> char, answer: string): int {
    BaseHalfPoints + LengthAdjustment(|answer|) + KeywordsFound(lower, answer)
  }

  /** `Math.round` of a value given in half points: floor(h / 2 + 1 / 2). */
  function RoundHalfUp(h: int): int {
    (h + 1) / 2
  }

  function Max(a: int, b: int): int { if a < b then b else a }
  function Min(a: int, b: int): int { if a < b then a else b }

  /** `Math.max(1, Math.min(10, x))`. */
  function Clamp(x: int): int {
    Max(1, Min(10, x))
  }

  /**
   * The final score. It is always between 3 and 10, so the clamp to [1, 10]
   * never changes it: the -2 for a short answer excludes both length bonuses,
   * and at most six keywords add half a point each.
   */
  function Score(lower: char -> char, answer: string): (s: int)
    ensures 3 <= s <= 10
    ensures s == RoundHalfUp(RawHalfPoints(lower, answer))
  {
    Clamp(RoundHalfUp(RawHalfPoints(lower, answer)))
  }

  /** The feedback bands, from the best down. */
  datatype Band = Excellent | Good | Fair | NeedsWork

  function BandOf(score: int): Band {
    if score >= 9 then Excellent
    else if score >= 7 then Good
    else if score >= 5 then Fair
    else NeedsWork
  }

  /** Position of a band, 3 for the best. */
  function Rank(b: Band): nat {
    match b
    case Excellent => 3
    case Good => 2
    case Fair => 1
    case NeedsWork => 0
  }

  function Message(b: Band): string {
    match b
    case Excellent => ExcellentMessage
    case Good => GoodMessage
    case Fair => FairMessage
    case NeedsWork => NeedsWorkMessage
  }

  /** `question.tips || default`: the question's own tips whenever it has them, empty or not. */
  function TipsFor(q: Question): (t: seq<string>)
    ensures q.tips.Some? ==> t == q.tips.value
    ensures q.tips.None? ==> t == DefaultTips
  {
    match q.tips
    case Some(tips) => tips
    case None => DefaultTips
  }

  /** The specification of `analyzeAnswer`. */
  function Analyze(lower: char -> char, q: Question, answer: string): Analysis {
    var s := Score(lower, answer);
    Analysis(s, Message(BandOf(s)), TipsFor(q))
  }

  /** `analyzeAnswer`: the length heuristic, then one pass over the keywords, then rounding and clamping. */
  method AnalyzeAnswer(lower: char -> char, question: Question, answerText: string) returns (result: Analysis)
    ensures result == Analyze(lower, question, answerText)
    ensures 3 <= result.score <= 10
    ensures result.feedback == Message(BandOf(result.score))
  {
    var score := BaseHalfPoints;
    if |answerText| < 30 { score := score - 4; }
    if |answerText| > 100 { score := score + 2; }
    if |answerText| > 200 { score := score + 2; }

    var lowered := Lowered(lower, answerText);
    var foundKeywords := 0;
    for i := 0 to |Keywords|
      invariant foundKeywords == CountFound(lowered, Keywords[..i])
      invariant score == BaseHalfPoints + LengthAdjustment(|answerText|) + foundKeywords
    {
      assert Keywords[..i + 1][..i] == Keywords[..i];
      if Contains(lowered, Keywords[i]) {
        foundKeywords := foundKeywords + 1;
        score := score + 1;
      }
    }
    assert Keywords[..|Keywords|] == Keywords;

    var final := Max(1, Min(10, RoundHalfUp(score)));
    var feedback;
    if final >= 9 {
      feedback := ExcellentMessage;
    } else if final >= 7 {
      feedback := GoodMessage;
    } else if final >= 5 {
      feedback := FairMessage;
    } else {
      feedback := NeedsWorkMessage;
    }
    result := Analysis(final, feedback, TipsFor(question));
  }

  // ---------------------------------------------------------------------------
  // Properties of the scoring specification
  // ---------------------------------------------------------------------------

  /**
   * `Score` agrees with the source's own floating-point arithmetic: start at
   * 5, subtract 2 / add 1 / add 1 for length, add 0.5 per keyword, then
   * `Math.round` (floor of x + 0.5) and clamp.
   */
  function SourceRawScore(len: nat, found: nat): real {
    var s0 := 5.0;
    var s1 := if len < 30 then s0 - 2.0 else s0;
    var s2 := if len > 100 then s1 + 1.0 else s1;
    var s3 := if len > 200 then s2 + 1.0 else s2;
    s3 + 0.5 * (found as real)
  }

  function MathRound(x: real): int {
    (x + 0.5).Floor
  }

  lemma FloorOfHalf(m: int)
    ensures (m as real / 2.0).Floor == m / 2
  {
    var q, r := m / 2, m % 2;
    assert m == 2 * q + r;
    assert m as real / 2.0 == q as real + r as real / 2.0;
    assert q as real <= m as real / 2.0 < q as real + 1.0;
  }

  lemma ScoreMatchesSourceArithmetic(lower: char -> char, answer: string)
    ensures Score(lower, answer) == Clamp(MathRound(SourceRawScore(|answer|, KeywordsFound(lower, answer))))
  {
    var h := RawHalfPoints(lower, answer);
    assert SourceRawScore(|answer|, KeywordsFound(lower, answer)) == h as real / 2.0;
    assert h as real / 2.0 + 0.5 == (h + 1) as real / 2.0;
    FloorOfHalf(h + 1);
  }

  /** The keywords of `kws` that occur in `text`. */
  ghost function Present(text: string, kws: seq<string>): set<string> {
    set k | k in kws && Contains(text, k)
  }

  /** Keyword credit is per distinct keyword: the count is the size of the set of keywords present. */
  lemma {:induction false} CountFoundIsSetSize(text: string, kws: seq<string>)
    requires forall i, j :: 0 <= i < j < |kws| ==> kws[i] != kws[j]
    ensures CountFound(text, kws) == |Present(text, kws)|
    decreases |kws|
  {
    if kws == [] {
      assert Present(text, kws) == {};
    } else {
      var init, last := kws[..|kws| - 1], kws[|kws| - 1];
      CountFoundIsSetSize(text, init);
      assert last !in init;
      assert forall k :: k in kws <==> k in init || k == last;
      if Contains(text, last) {
        assert Present(text, kws) == Present(text, init) + {last};
      } else {
        assert Present(text, kws) == Present(text, init);
      }
    }
  }

  lemma KeywordsDistinct()
    ensures forall i, j :: 0 <= i < j < |Keywords| ==> Keywords[i] != Keywords[j]
  {
    forall i, j | 0 <= i < j < |Keywords| ensures Keywords[i] != Keywords[j] {
      assert Keywords[i][0] != Keywords[j][0] || Keywords[i][1] != Keywords[j][1];
    }
  }

  lemma KeywordCredit(lower: char -> char, answer: string)
    ensures KeywordsFound(lower, answer) == |Present(Lowered(lower, answer), Keywords)|
  {
    KeywordsDistinct();
    CountFoundIsSetSize(Lowered(lower, answer), Keywords);
  }

  /** The feedback bands are ordered: a higher score never gets a worse band. */
  lemma BandMonotonic(s: int, t: int)
    requires s <= t
    ensures Rank(BandOf(s)) <= Rank(BandOf(t))
  {
  }

  /** The four messages are distinct, so the feedback text determines the band. */
  lemma MessageDeterminesBand(a: Band, b: Band)
    ensures Message(a) == Message(b) <==> a == b
  {
    if a != b {
      assert Message(a)[0] != Message(b)[0] || Message(a)[1] != Message(b)[1];
    }
  }

  /** A 250-character answer naming "проект" and "результат" and no other keyword scores 8, "good". */
  lemma LongAnswerScoresEight(lower: char -> char, q: Question, answer: string)
    requires |answer| == 250
    requires var l := Lowered(lower, answer);
      Contains(l, "проект") && Contains(l, "результат") &&
      !Contains(l, "опыт") && !Contains(l, "команда") && !Contains(l, "задачи") && !Contains(l, "разработка")
    ensures Analyze(lower, q, answer) == Analysis(8, GoodMessage, TipsFor(q))
  {
    var l := Lowered(lower, answer);
    assert Keywords[..0] == [];
    assert Keywords[..1][..0] == [];
    assert Keywords[..2][..1] == Keywords[..1];
    assert Keywords[..3][..2] == Keywords[..2];
    assert Keywords[..4][..3] == Keywords[..3];
    assert Keywords[..5][..4] == Keywords[..4];
    assert Keywords[..6] == Keywords;
    assert CountFound(l, Keywords[..1]) == 0;
    assert CountFound(l, Keywords[..2]) == 1;
    assert CountFound(l, Keywords[..3]) == 1;
    assert CountFound(l, Keywords[..4]) == 2;
    assert CountFound(l, Keywords[..5]) == 2;
    assert CountFound(l, Keywords) == 2;
  }

  /** A 20-character answer with no keyword scores 3, "needs work". */
  lemma ShortAnswerScoresThree(lower: char -> char, q: Question, answer: string)
    requires |answer| == 20
    requires forall k :: 0 <= k < |Keywords| ==> !Contains(Lowered(lower, answer), Keywords[k])
    ensures Analyze(lower, q, answer) == Analysis(3, NeedsWorkMessage, TipsFor(q))
  {
    var found := KeywordsFound(lower, answer);
    KeywordCredit(lower, answer);
    assert Present(Lowered(lower, answer), Keywords) == {};
  }

  /** The result depends on the answer only through its lowered text: the keyword test ignores case. */
  lemma AnalyzeIgnoresCase(lower: char -> char, q: Question, a: string, b: string)
    requires Lowered(lower, a) == Lowered(lower, b)
    ensures Analyze(lower, q, a) == Analyze(lower, q, b)
  {
    assert |a| == |Lowered(lower, a)| == |b|;
  }
}
