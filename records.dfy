/** Value types shared by the trainer's components. */
module Records {

  /** A value that may be absent (a JavaScript `undefined` or `null`). */
  datatype Option<+T> = None | Some(value: T)

  /**
   * One record of the question list, as `questions.json` supplies it:
   * `question`, `category`, `good_answer` and an optional `tips` array.
   * `tips` is `None` when the record has no tips at all; `Some([])` is an
   * empty array, which JavaScript's `||` keeps.
   */
  datatype Question = Question(
    question: string,
    category: string,
    goodAnswer: string,
    tips: Option<seq<string>>)
}
