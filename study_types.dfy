/**
 * The records the generation service returns and the application keeps
 * (types.ts).  Declarations only: the behaviour over them lives in the
 * Quiz, SummarySheet and App modules.
 */
module StudyTypes {
  import opened Wrappers

  datatype Flashcard = Flashcard(question: string, answer: string)

  /** The four answer texts, keyed "A" to "D". */
  datatype Options = Options(a: string, b: string, c: string, d: string)

  /** `correctAnswer` is the key ("A".."D") of the right option, as the service sends it. */
  datatype QuizQuestion = QuizQuestion(
    question: string,
    options: Options,
    correctAnswer: string,
    explanation: string)

  /** Every field is optional: a field is present once its module has been generated. */
  datatype StudyData = StudyData(
    summary: Option<seq<string>>,
    flashcards: Option<seq<Flashcard>>,
    quiz: Option<seq<QuizQuestion>>,
    audioScript: Option<string>)

  datatype AppState = Input | Dashboard

  datatype Tab = SummaryTab | FlashcardsTab | QuizTab | AudioTab

  /** The string the application uses for a tab (its TabType literal). */
  function TabName(t: Tab): string {
    match t
    case SummaryTab => "summary"
    case FlashcardsTab => "flashcards"
    case QuizTab => "quiz"
    case AudioTab => "audio"
  }

  const EmptyData: StudyData := StudyData(None, None, None, None)
}
