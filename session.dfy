/**
 * The session controller: the question list, the current index, the answer
 * field's text and whether the feedback section is visible, updated in place
 * by the page's handlers (load, show, submit, hint, next, and the
 * recogniser's result).
 */
module Session {
  import opened Records
  import opened Text
  import opened Scoring
  import opened Speech

  /** The one question used when the question file cannot be loaded. */
  const FallbackQuestion: Question := Question(
    "Расскажите о себе",
    "soft skills",
    "Я разработчик с 3 годами опыта...",
    Some(["Будьте конкретны", "Свяжите с вакансией", "Упомяните достижения"]))

  const AnswerFirstPrompt: string := "Пожалуйста, сначала ответьте на вопрос."
  const HintPrefix: string := "Пример ответа: "
  const HintLength: nat := 150
  const HintRate: real := 0.8

  /** The index after "next": one further, wrapping to 0 after the last question. */
  function NextIndex(i: nat, n: nat): (r: nat)
    requires n >= 1
    ensures r < n
    ensures i < n - 1 ==> r == i + 1
    ensures i == n - 1 ==> r == 0
  {
    (i + 1) % n
  }

  /** The index after `k` presses of "next". */
  function Advance(i: nat, n: nat, k: nat): nat
    requires n >= 1
  {
    if k == 0 then i else NextIndex(Advance(i, n, k - 1), n)
  }

  /** Below the last question, each press moves exactly one further. */
  lemma {:induction false} AdvanceWithoutWrap(i: nat, n: nat, k: nat)
    requires n >= 1 && i + k < n
    ensures Advance(i, n, k) == i + k
  {
    if k > 0 {
      AdvanceWithoutWrap(i, n, k - 1);
    }
  }

  /** Pressing `a` times and then `b` times is pressing `a + b` times. */
  lemma {:induction false} AdvanceCompose(i: nat, n: nat, a: nat, b: nat)
    requires n >= 1
    ensures Advance(i, n, a + b) == Advance(Advance(i, n, a), n, b)
  {
    if b > 0 {
      AdvanceCompose(i, n, a, b - 1);
    }
  }

  /** `n` presses of "next" bring the index back to where it started. */
  lemma NextCycles(i: nat, n: nat)
    requires i < n
    ensures Advance(i, n, n) == i
  {
    AdvanceWithoutWrap(i, n, n - 1 - i);
    assert Advance(i, n, n - i) == 0;
    AdvanceCompose(i, n, n - i, i);
    if i > 0 {
      AdvanceWithoutWrap(0, n, i);
    }
  }

  /** What the hint speaks: the prefix, at most the first 150 characters of the model answer, then "...". */
  function HintText(goodAnswer: string): (t: string)
    ensures |t| == |HintPrefix| + (if |goodAnswer| < HintLength then |goodAnswer| else HintLength) + 3
    ensures t[..|HintPrefix|] == HintPrefix && t[|t| - 3..] == "..."
    ensures t[|HintPrefix|..|t| - 3] <= goodAnswer
    ensures |goodAnswer| <= HintLength ==> t[|HintPrefix|..|t| - 3] == goodAnswer
  {
    var t := HintPrefix + Take(goodAnswer, HintLength) + "...";
    assert t[|HintPrefix|..|t| - 3] == Take(goodAnswer, HintLength);
    t
  }

  /** The spoken verdict after a scored submission. */
  function VerdictText(a: Analysis): string {
    "Ваша оценка: " + IntText(a.score) + " из 10. " + a.feedback
  }

  /** What a submission led to. */
  datatype SubmitOutcome =
    | Prompted              // the trimmed answer was empty; the user is asked to answer first
    | NoQuestion            // there is no current question: the source's handler stops with a TypeError
    | Scored(analysis: Analysis)

  /**
   * What `submitAnswer` decides for the field's text: a blank answer is
   * only prompted for and never analysed; otherwise the trimmed text is
   * analysed against the current question, if there is one.
   */
  function Decide(lower: char -> char, qs: seq<Question>, index: nat, answer: string): (r: SubmitOutcome)
    requires qs != [] ==> index < |qs|
    ensures r == Prompted <==> AllSpace(answer)
    ensures r == NoQuestion <==> !AllSpace(answer) && qs == []
    ensures r.Scored? ==> r.analysis == Analyze(lower, qs[index], Trim(answer))
  {
    var text := Trim(answer);
    if text == [] then Prompted
    else if qs == [] then NoQuestion
    else Scored(Analyze(lower, qs[index], text))
  }

  /** What a submission speaks, if anything. */
  function Spoken(outcome: SubmitOutcome): Option<string> {
    match outcome
    case Prompted => Some(AnswerFirstPrompt)
    case NoQuestion => None
    case Scored(a) => Some(VerdictText(a))
  }

  /** A blank answer changes nothing but what is spoken: only the prompt. */
  lemma BlankAnswerOnlyPrompts(lower: char -> char, qs: seq<Question>, index: nat, answer: string)
    requires qs != [] ==> index < |qs|
    requires forall k :: 0 <= k < |answer| ==> IsSpace(answer[k])
    ensures Decide(lower, qs, index, answer) == Prompted
    ensures Spoken(Decide(lower, qs, index, answer)) == Some(AnswerFirstPrompt)
  {
  }

  class Controller {
    var questions: seq<Question>
    var currentQuestionIndex: nat
    /** The text of the answer field. */
    var answer: string
    var feedbackVisible: bool
    /** The analysis the feedback section shows, if any. */
    var shown: Option<Analysis>
    const speech: SpeechChannel
    /** The environment's per-character `toLowerCase`. */
    const lower: char -> char

    ghost predicate Valid()
      reads this
    {
      questions != [] ==> currentQuestionIndex < |questions|
    }

    constructor (speech: SpeechChannel, lower: char -> char)
      ensures Valid()
      ensures questions == [] && currentQuestionIndex == 0 && answer == ""
      ensures !feedbackVisible && shown == None
      ensures this.speech == speech && this.lower == lower
    {
      questions := [];
      currentQuestionIndex := 0;
      answer := "";
      feedbackVisible := false;
      shown := None;
      this.speech := speech;
      this.lower := lower;
    }

    /** `showQuestion`: with no questions nothing happens; otherwise the answer is cleared and the feedback hidden. */
    method ShowQuestion()
      requires Valid()
      modifies this`answer, this`feedbackVisible
      ensures questions == [] ==> answer == old(answer) && feedbackVisible == old(feedbackVisible)
      ensures questions != [] ==> answer == "" && !feedbackVisible
    {
      if |questions| == 0 {
        return;
      }
      answer := "";
      feedbackVisible := false;
    }

    /** `loadQuestions` when the file loads: the list is the loaded one and the first question is shown. */
    method LoadSucceeded(loaded: seq<Question>)
      requires Valid() && currentQuestionIndex == 0
      modifies this
      ensures Valid()
      ensures questions == loaded && currentQuestionIndex == 0 && shown == old(shown)
      ensures loaded == [] ==> answer == old(answer) && feedbackVisible == old(feedbackVisible)
      ensures loaded != [] ==> answer == "" && !feedbackVisible
    {
      questions := loaded;
      ShowQuestion();
    }

    /** `loadQuestions` when loading fails: the list is exactly the fallback question, which is shown. */
    method LoadFailed()
      requires Valid() && currentQuestionIndex == 0
      modifies this
      ensures Valid()
      ensures questions == [FallbackQuestion] && currentQuestionIndex == 0 && shown == old(shown)
      ensures answer == "" && !feedbackVisible
    {
      questions := [FallbackQuestion];
      ShowQuestion();
    }

    /** The user types into the answer field. */
    method Edit(text: string)
      modifies this`answer
      ensures answer == text
    {
      answer := text;
    }

    /** The recogniser's `onresult`: the transcript replaces the answer field. */
    method OnTranscript(transcript: string)
      modifies this`answer
      ensures answer == transcript
    {
      answer := transcript;
    }

    /**
     * `submitAnswer`: the decision on the trimmed field; a scored answer is
     * shown and its feedback made visible; the prompt or the verdict is spoken.
     */
    method Submit() returns (outcome: SubmitOutcome)
      requires Valid()
      modifies this`feedbackVisible, this`shown, speech`queue
      ensures outcome == Decide(lower, questions, currentQuestionIndex, answer)
      ensures feedbackVisible == (outcome.Scored? || old(feedbackVisible))
      ensures shown == (if outcome.Scored? then Some(outcome.analysis) else old(shown))
      ensures speech.queue == old(speech.QueueAfter(Spoken(outcome), 1.0))
    {
      var answerText := Trim(answer);
      if answerText == [] {
        speech.Speak(AnswerFirstPrompt, 1.0);
        return Prompted;
      }
      if |questions| == 0 {
        return NoQuestion;
      }
      var analysis := AnalyzeAnswer(lower, questions[currentQuestionIndex], answerText);
      Report(analysis);
      outcome := Scored(analysis);
    }

    /** Shows an analysis in the feedback section and speaks its verdict. */
    method Report(analysis: Analysis)
      modifies this`feedbackVisible, this`shown, speech`queue
      ensures feedbackVisible && shown == Some(analysis)
      ensures speech.queue == old(speech.QueueAfter(Some(VerdictText(analysis)), 1.0))
    {
      shown := Some(analysis);
      feedbackVisible := true;
      speech.Speak(VerdictText(analysis), 1.0);
    }

    /**
     * The auto-submit timer firing after a transcript: it submits whatever
     * the field holds at that moment, edited or not, if it is not blank.
     */
    method AutoSubmit() returns (outcome: Option<SubmitOutcome>)
      requires Valid()
      modifies this`feedbackVisible, this`shown, speech`queue
      ensures Trim(answer) == [] ==> outcome == None
      ensures Trim(answer) == [] ==> feedbackVisible == old(feedbackVisible) && shown == old(shown)
      ensures Trim(answer) == [] ==> speech.queue == old(speech.queue)
      ensures Trim(answer) != [] ==> outcome == Some(Decide(lower, questions, currentQuestionIndex, answer))
      ensures Trim(answer) != [] ==> feedbackVisible == (outcome.value.Scored? || old(feedbackVisible))
      ensures Trim(answer) != [] ==>
        shown == (if outcome.value.Scored? then Some(outcome.value.analysis) else old(shown))
      ensures Trim(answer) != [] ==> speech.queue == old(speech.QueueAfter(Spoken(outcome.value), 1.0))
    {
      if Trim(answer) == [] {
        return None;
      }
      var submitted := Submit();
      outcome := Some(submitted);
    }

    /** The hint button: speaks an excerpt of the model answer and changes nothing else. */
    method Hint()
      requires Valid()
      modifies speech`queue
      ensures questions == [] ==> speech.queue == old(speech.queue)
      ensures questions != [] ==>
        speech.queue == old(speech.QueueAfter(Some(HintText(questions[currentQuestionIndex].goodAnswer)), HintRate))
    {
      if |questions| == 0 {
        return;
      }
      var question := questions[currentQuestionIndex];
      speech.Speak(HintText(question.goodAnswer), HintRate);
    }

    /** The next button: the index moves on cyclically and that question is shown. */
    method Next()
      requires Valid() && |questions| >= 1
      modifies this`currentQuestionIndex, this`answer, this`feedbackVisible
      ensures Valid()
      ensures currentQuestionIndex == NextIndex(old(currentQuestionIndex), |questions|)
      ensures answer == "" && !feedbackVisible
    {
      currentQuestionIndex := (currentQuestionIndex + 1) % |questions|;
      ShowQuestion();
    }
  }
}
