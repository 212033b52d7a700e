/** The application shell: which screen is showing, the quiz being played,
    the last result, and the story-mode progression through the four arcade
    worlds. The quiz generator is a parameter of the operations that call it. */
module App {
  import opened Types

  /** The story worlds, in the order they are played. */
  const Worlds: seq<ArcadeMap> := [Overworld, Underground, Athletic, Boss]

  /** What the generator hands back: a quiz, or a failure with its message. */
  datatype Generation = Generated(data: QuizData) | Failed(message: string)

  const DefaultStartError := "Ocorreu um erro ao gerar o quiz. Tente novamente."
  const NextWorldError := "Erro ao carregar próximo mundo."

  /** The message shown when starting a quiz fails: the failure's own message
      when it has one. */
  function StartErrorMessage(message: string): (m: string)
    ensures m != ""
    ensures message != "" ==> m == message
    ensures message == "" ==> m == DefaultStartError
  {
    if message != "" then message else DefaultStartError
  }

  /** The configuration actually sent when a quiz is started: a story run
      always begins in the first world. */
  function StoryStart(config: QuizConfig): (c: QuizConfig)
    ensures c.isStoryMode == config.isStoryMode
    ensures c.isStoryMode ==> c.arcadeMap == Some(Worlds[0])
    ensures !config.isStoryMode ==> c == config
    ensures c.(arcadeMap := config.arcadeMap) == config
  {
    if config.isStoryMode then config.(arcadeMap := Some(Overworld)) else config
  }

  /** The configuration for story world `index`: the original one, set in that world. */
  function WorldConfig(original: QuizConfig, index: nat): (c: QuizConfig)
    requires index < |Worlds|
    ensures c.arcadeMap == Some(Worlds[index])
    ensures c.(arcadeMap := original.arcadeMap) == original
  {
    original.(arcadeMap := Some(Worlds[index]))
  }

  /** Whether a story score reaches half of the maximum (100 points per
      question). With no questions the ratio is an infinity or NaN, so only
      a positive score passes. */
  function ReachesHalf(points: int, questionCount: nat): (r: bool)
    ensures questionCount == 0 ==> (r <==> points > 0)
  {
    if questionCount == 0 then points > 0
    else (points as real / (questionCount * 100) as real) * 100.0 >= 50.0
  }

  /** With at least one question, half means at least 50 points per question. */
  lemma HalfThreshold(points: int, questionCount: nat)
    requires questionCount > 0
    ensures ReachesHalf(points, questionCount) <==> points >= 50 * questionCount
  {
    var m := (questionCount * 100) as real;
    var x := points as real / m;
    assert x * m == points as real;
    assert x * 100.0 >= 50.0 <==> x * m >= 0.5 * m;
  }

  /** Five questions: 250 points advance, 249 do not. */
  lemma HalfOfFiveQuestions()
    ensures ReachesHalf(250, 5) && !ReachesHalf(249, 5)
  {
    HalfThreshold(250, 5);
    HalfThreshold(249, 5);
  }

  /** The generator copies the story flag of the configuration into the quiz. */
  ghost predicate KeepsStoryFlag(generate: QuizConfig -> Generation) {
    forall c :: generate(c).Generated? ==> generate(c).data.isStoryMode == c.isStoryMode
  }

  class Application {
    var appState: AppState
    var quizData: Option<QuizData>
    var userAnswers: UserAnswers
    var score: Option<Score>
    var error: Option<string>
    var currentTopic: string
    var storyWorldIndex: nat
    var originalConfig: Option<QuizConfig>

    /** The screens that need a quiz have one, a cutscene has a narrative to
        show, the story stays within its worlds, and a story quiz remembers
        the configuration it came from. */
    ghost predicate Valid()
      reads this
    {
      && storyWorldIndex < |Worlds|
      && (appState in {Quiz, Cutscene, Results} ==> quizData.Some?)
      && (appState == Cutscene ==> HasNarrative(quizData.value))
      && (quizData.Some? && quizData.value.isStoryMode ==> originalConfig.Some?)
    }

    constructor ()
      ensures Valid()
      ensures appState == Home && quizData.None? && userAnswers == map[] && score.None? && error.None?
      ensures currentTopic == "" && storyWorldIndex == 0 && originalConfig.None?
    {
      appState := Home;
      quizData := None;
      userAnswers := map[];
      score := None;
      error := None;
      currentTopic := "";
      storyWorldIndex := 0;
      originalConfig := None;
    }

    /** The home page's start button. */
    method OpenSetup()
      requires Valid()
      modifies this`appState
      ensures Valid() && appState == Setup
    {
      appState := Setup;
    }

    /** handleCreateQuiz */
    method CreateQuiz()
      requires Valid()
      modifies this`appState
      ensures Valid() && appState == Creating
    {
      appState := Creating;
    }

    /** The creator's cancel button. */
    method CancelCreate()
      requires Valid()
      modifies this`appState
      ensures Valid() && appState == Home
    {
      appState := Home;
    }

    /** The cutscene's continue button. */
    method ContinueFromCutscene()
      requires Valid() && appState == Cutscene
      modifies this`appState
      ensures Valid() && appState == Quiz
    {
      appState := Quiz;
    }

    /** handleStartQuiz: generate a quiz from the setup form's configuration. */
    method StartQuiz(config: QuizConfig, generate: QuizConfig -> Generation)
      requires Valid() && KeepsStoryFlag(generate)
      modifies this`appState, this`quizData, this`score, this`error, this`currentTopic, this`storyWorldIndex,
        this`originalConfig
      ensures Valid()
      ensures currentTopic == config.topic && score.None?
      ensures config.isStoryMode ==> originalConfig == Some(StoryStart(config)) && storyWorldIndex == 0
      ensures !config.isStoryMode ==> originalConfig == old(originalConfig) && storyWorldIndex == old(storyWorldIndex)
      ensures generate(StoryStart(config)).Generated? ==>
        var d := generate(StoryStart(config)).data;
        && quizData == Some(d) && error.None?
        && appState == if d.isStoryMode && HasNarrative(d) then Cutscene else Quiz
      ensures generate(StoryStart(config)).Failed? ==>
        && quizData == old(quizData) && appState == Error
        && error == Some(StartErrorMessage(generate(StoryStart(config)).message))
    {
      currentTopic := config.topic;
      appState := Loading;
      error := None;
      score := None;
      var sent := StoryStart(config);
      if config.isStoryMode {
        originalConfig := Some(sent);
        storyWorldIndex := 0;
      }
      match generate(sent)
      case Generated(d) =>
        quizData := Some(d);
        appState := if d.isStoryMode && HasNarrative(d) then Cutscene else Quiz;
      case Failed(message) =>
        error := Some(StartErrorMessage(message));
        appState := Error;
    }

    /** handleSaveCreatedQuiz: play a quiz built in the creator. */
    method SaveCreatedQuiz(data: QuizData)
      requires Valid()
      requires data.isStoryMode ==> originalConfig.Some?
      modifies this`quizData, this`appState
      ensures Valid() && quizData == Some(data) && appState == Quiz
    {
      quizData := Some(data);
      appState := Quiz;
    }

    /** Whether a finished quiz sends a story run on to the next world. */
    predicate Advances(finalScore: Score)
      requires quizData.Some?
      reads this
    {
      && quizData.value.isStoryMode && finalScore.Points?
      && ReachesHalf(finalScore.points, |quizData.value.questions|)
      && storyWorldIndex < |Worlds| - 1
    }

    /** handleQuizComplete: keep the result, then either load the next story
        world or show the results. */
    method QuizComplete(answers: UserAnswers, finalScore: Score, generate: QuizConfig -> Generation)
      requires Valid() && appState == Quiz && KeepsStoryFlag(generate)
      modifies this`appState, this`quizData, this`userAnswers, this`score, this`error, this`storyWorldIndex
      ensures Valid()
      ensures userAnswers == answers && score == Some(finalScore)
      ensures !old(Advances(finalScore)) ==>
        appState == Results && quizData == old(quizData) && storyWorldIndex == old(storyWorldIndex) && error == old(error)
      ensures old(Advances(finalScore)) ==>
        var g := generate(WorldConfig(originalConfig.value, storyWorldIndex));
        && storyWorldIndex == old(storyWorldIndex) + 1
        && (g.Generated? ==>
              && quizData == Some(g.data) && error == old(error)
              && appState == if HasNarrative(g.data) then Cutscene else Quiz)
        && (g.Failed? ==> quizData == old(quizData) && appState == Error && error == Some(NextWorldError))
    {
      userAnswers := answers;
      score := Some(finalScore);
      if !Advances(finalScore) {
        appState := Results;
        return;
      }
      storyWorldIndex := storyWorldIndex + 1;
      appState := Loading;
      match generate(WorldConfig(originalConfig.value, storyWorldIndex))
      case Generated(d) =>
        quizData := Some(d);
        appState := if HasNarrative(d) then Cutscene else Quiz;
      case Failed(_) =>
        error := Some(NextWorldError);
        appState := Error;
    }

    /** handleRetry: play the same quiz again from the results screen. */
    method Retry()
      requires Valid() && appState == Results
      modifies this`userAnswers, this`score, this`appState
      ensures Valid()
      ensures userAnswers == map[] && score.None? && appState == Quiz
    {
      userAnswers := map[];
      score := None;
      appState := Quiz;
    }

    /** handleHome: drop the quiz, the result and the error. The story
        progress is kept. */
    method GoHome()
      requires Valid()
      modifies this`quizData, this`userAnswers, this`score, this`appState, this`error
      ensures Valid()
      ensures quizData.None? && userAnswers == map[] && score.None? && appState == Home && error.None?
    {
      quizData := None;
      userAnswers := map[];
      score := None;
      appState := Home;
      error := None;
    }
  }
}
