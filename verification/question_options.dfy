/**
  The options record the client sends with an upload (`QuestionOptionsConfig`):
  how many questions, which question types are checked, and the difficulty.
 */
module QuestionOptions {

  datatype Difficulty = Easy | Medium | Hard

  /** The keys of `questionTypes`, in the order the record declares them. */
  datatype QuestionType = Mcq | TrueFalse | ShortAnswer

  datatype QuestionTypes = QuestionTypes(mcq: bool, trueFalse: bool, shortAnswer: bool)

  datatype Config = Config(numQuestions: int, questionTypes: QuestionTypes, difficulty: Difficulty)

  /** Position of a key in the record's declaration order. */
  function Rank(t: QuestionType): nat
  {
    match t
    case Mcq => 0
    case TrueFalse => 1
    case ShortAnswer => 2
  }

  /** Whether the checkbox of type `t` is checked. */
  function IsChecked(qt: QuestionTypes, t: QuestionType): bool
  {
    match t
    case Mcq => qt.mcq
    case TrueFalse => qt.trueFalse
    case ShortAnswer => qt.shortAnswer
  }
}
