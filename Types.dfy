/** The data model shared by every screen of the quiz application: the
    enumerations, the question and quiz records, and the configuration the
    setup form hands to the quiz generator. */
module Types {
  import opened Strings

  datatype Option<+T> = None | Some(value: T)

  datatype Result<+T, +E> = Ok(value: T) | Err(error: E)

  datatype Difficulty = Easy | Medium | Hard

  datatype QuizTheme = Light | Dark | Vibrant | Retro | Neon | Summer | Autumn | Winter | Spring

  datatype QuestionType = MultipleChoice | TrueFalse | Matching | FillInTheBlank | Essay

  /** There is no multiplayer game mode: multiplayer is the separate `isMultiplayer` flag. */
  datatype GameMode = Classic | Arcade | TvShow | SpeedRun | EssayChallenge | Training

  datatype ArcadeMap = Overworld | Underground | Athletic | Boss

  datatype TeachingStyle = Standard | Socratic | Humorous | Strict | Gamified

  datatype MatchingPair = MatchingPair(left: string, right: string)

  /** A question. An absent `options` list is the empty sequence; an absent
      `pairs` list is `None`, because the matching screen treats the two apart. */
  datatype Question = Question(
    id: int,
    qtype: QuestionType,
    text: string,
    options: seq<string>,
    correctAnswerIndex: Option<int>,
    pairs: Option<seq<MatchingPair>>,
    explanation: string,
    essayRubric: Option<string>)

  /** A quiz ready to be played. An absent `isStoryMode` is `false`. */
  datatype QuizData = QuizData(
    title: string,
    topic: string,
    difficulty: Difficulty,
    questions: seq<Question>,
    theme: QuizTheme,
    isTvMode: bool,
    gameMode: GameMode,
    isMultiplayer: bool,
    isStoryMode: bool,
    playerNames: Option<seq<string>>,
    arcadeMap: Option<ArcadeMap>,
    storyNarrative: Option<string>)

  /** What the setup form asks the generator for. */
  datatype QuizConfig = QuizConfig(
    topic: string,
    difficulty: Difficulty,
    questionCount: int,
    theme: QuizTheme,
    isTvMode: bool,
    gameMode: GameMode,
    isMultiplayer: bool,
    isStoryMode: bool,
    playerNames: Option<seq<string>>,
    arcadeMap: Option<ArcadeMap>,
    teachingStyle: Option<TeachingStyle>,
    questionTypes: Option<seq<QuestionType>>)

  /** A recorded answer: an option index (-1 for skipped, 1 for a solved
      matching question) or the raw text typed into a fill-in-the-blank box. */
  datatype Answer = Choice(index: int) | Written(text: string)

  /** Answers keyed by question id; a missing key is an unanswered question. */
  type UserAnswers = map<int, Answer>

  /** A final score: one number, or one number per player. */
  datatype Score = Points(points: int) | PlayerPoints(perPlayer: seq<int>)

  datatype AppState = Home | Setup | Creating | Loading | Quiz | Results | Cutscene | Error | EssayGenerator

  /** A narrative is shown only when it is present and non-empty (a truthiness test). */
  predicate HasNarrative(d: QuizData) {
    d.storyNarrative.Some? && d.storyNarrative.value != ""
  }

  function Max0(x: int): (r: int)
    ensures r >= 0 && r >= x
    ensures x >= 0 ==> r == x
  {
    if x < 0 then 0 else x
  }

  /** The label of the player numbered `k` (counting from 1) when no name is given. */
  function PlayerLabel(k: nat): (s: string)
    ensures |s| > 8 && s[..8] == "Jogador "
    ensures s == "Jogador " + NatString(k)
  {
    "Jogador " + NatString(k)
  }

  /** Different players get different default labels. */
  lemma PlayerLabelInjective(a: nat, b: nat)
    requires PlayerLabel(a) == PlayerLabel(b)
    ensures a == b
  {
    assert PlayerLabel(a)[8..] == NatString(a);
    assert PlayerLabel(b)[8..] == NatString(b);
    NatStringInjective(a, b);
  }
}
