/** The results screen: how many answers count as correct, the rounded
    percentage and its message, which panels are shown, and the mark next to
    each question of the summary. */
module QuizResults {
  import opened Types
  import opened Strings
  import QuizGame

  // ---------------------------------------------------------------------------
  // Per-question verdicts

  /** The recorded answer, if any. */
  function Lookup(answers: UserAnswers, id: int): (a: Option<Answer>)
    ensures a.Some? <==> id in answers
    ensures id in answers ==> a.value == answers[id]
  {
    if id in answers then Some(answers[id]) else None
  }

  /** Strict equality between a recorded answer and an optional option index:
      two absent values are equal, and only an option index can equal an index. */
  predicate SameAsIndex(a: Option<Answer>, index: Option<int>) {
    match (a, index)
    case (None, None) => true
    case (Some(Choice(n)), Some(m)) => n == m
    case _ => false
  }

  /** A question counts as correct when a matching question was solved (its
      answer is 1) or, for any other type, when the answer is strictly equal
      to the correct index. */
  predicate IsCorrect(q: Question, answers: UserAnswers)
    ensures q.qtype == Matching ==> (IsCorrect(q, answers) <==> q.id in answers && answers[q.id] == Choice(1))
    ensures q.qtype != Matching && q.id !in answers ==> (IsCorrect(q, answers) <==> q.correctAnswerIndex.None?)
    ensures q.qtype != Matching && q.id in answers ==>
      (IsCorrect(q, answers) <==> answers[q.id].Choice? && q.correctAnswerIndex == Some(answers[q.id].index))
  {
    if q.qtype == Matching then Lookup(answers, q.id) == Some(Choice(1))
    else SameAsIndex(Lookup(answers, q.id), q.correctAnswerIndex)
  }

  /** A question is skipped when it has no answer or the answer -1. */
  predicate IsSkipped(q: Question, answers: UserAnswers)
    ensures IsSkipped(q, answers) <==> q.id !in answers || answers[q.id] == Choice(-1)
  {
    Lookup(answers, q.id) in {None, Some(Choice(-1))}
  }

  /** The icon beside a question in the summary: correct first, then skipped. */
  datatype Mark = Right | Skipped | Wrong

  function MarkOf(q: Question, answers: UserAnswers): (m: Mark)
    ensures m == Right <==> IsCorrect(q, answers)
    ensures m == Skipped <==> !IsCorrect(q, answers) && IsSkipped(q, answers)
  {
    if IsCorrect(q, answers) then Right else if IsSkipped(q, answers) then Skipped else Wrong
  }

  /** A typed fill-in answer is text, and text is never strictly equal to an
      index: the results screen never counts it, whatever the game screen said. */
  lemma WrittenNeverCounted(q: Question, answers: UserAnswers)
    requires q.id in answers && answers[q.id].Written?
    ensures !IsCorrect(q, answers) && !IsSkipped(q, answers)
  {
  }

  /** A question can be both correct and skipped only when it has no correct
      index and no answer, or its correct index is -1. */
  lemma CorrectAndSkipped(q: Question, answers: UserAnswers)
    requires IsCorrect(q, answers) && IsSkipped(q, answers)
    ensures q.qtype != Matching
    ensures (q.id !in answers && q.correctAnswerIndex.None?) || q.correctAnswerIndex == Some(-1)
  {
  }

  /** For option questions the results screen agrees with the verdict given
      when the answer was confirmed; a solved matching board counts as correct. */
  lemma AgreesWithConfirm(q: Question, selected: Option<int>, typed: string, answers: UserAnswers)
    requires q.qtype != Matching && q.qtype != FillInTheBlank
    ensures var v := QuizGame.Evaluate(q, selected, typed);
            IsCorrect(q, answers[q.id := v.answer]) <==> v.correct
  {
    var v := QuizGame.Evaluate(q, selected, typed);
    assert Lookup(answers[q.id := v.answer], q.id) == Some(v.answer);
  }

  lemma SolvedBoardCounts(q: Question, answers: UserAnswers)
    requires q.qtype == Matching
    ensures IsCorrect(q, answers[q.id := Choice(1)])
  {
    assert Lookup(answers[q.id := Choice(1)], q.id) == Some(Choice(1));
  }

  // ---------------------------------------------------------------------------
  // The tally

  /** The number of questions that count as correct. */
  function CountCorrect(qs: seq<Question>, answers: UserAnswers): (n: nat)
    ensures n <= |qs|
  {
    if qs == [] then 0
    else CountCorrect(qs[..|qs| - 1], answers) + (if IsCorrect(qs[|qs| - 1], answers) then 1 else 0)
  }

  /** The counting loop of the results screen. */
  method TallyCorrect(qs: seq<Question>, answers: UserAnswers) returns (correctCount: nat)
    ensures correctCount == CountCorrect(qs, answers)
  {
    correctCount := 0;
    var i := 0;
    while i < |qs|
      invariant 0 <= i <= |qs|
      invariant correctCount == CountCorrect(qs[..i], answers)
    {
      assert qs[..i + 1][..i] == qs[..i];
      if IsCorrect(qs[i], answers) {
        correctCount := correctCount + 1;
      }
      i := i + 1;
    }
    assert qs[..|qs|] == qs;
  }

  /** Every question counts exactly when the tally reaches the number of questions. */
  lemma {:induction false} AllCorrectIff(qs: seq<Question>, answers: UserAnswers)
    ensures CountCorrect(qs, answers) == |qs| <==> forall k :: 0 <= k < |qs| ==> IsCorrect(qs[k], answers)
  {
    if qs != [] {
      var init := qs[..|qs| - 1];
      AllCorrectIff(init, answers);
      assert forall k :: 0 <= k < |init| ==> init[k] == qs[k];
    }
  }

  /** The tally is the number of questions marked correct in the summary. */
  function CountMarked(qs: seq<Question>, answers: UserAnswers, m: Mark): (n: nat)
    ensures n <= |qs|
  {
    if qs == [] then 0
    else CountMarked(qs[..|qs| - 1], answers, m) + (if MarkOf(qs[|qs| - 1], answers) == m then 1 else 0)
  }

  lemma {:induction false} TallyMatchesMarks(qs: seq<Question>, answers: UserAnswers)
    ensures CountCorrect(qs, answers) == CountMarked(qs, answers, Right)
    ensures CountMarked(qs, answers, Right) + CountMarked(qs, answers, Skipped) + CountMarked(qs, answers, Wrong) == |qs|
  {
    if qs != [] {
      TallyMatchesMarks(qs[..|qs| - 1], answers);
    }
  }

  // ---------------------------------------------------------------------------
  // Percentage and message

  lemma DivBounds(num: int, d: int)
    requires d > 0
    ensures d * (num / d) <= num < d * (num / d) + d
  {
  }

  lemma MulMonotone(a: int, b: int, c: int)
    requires a >= 0 && b <= c
    ensures a * b <= a * c
  {
  }

  /** `Math.round(correct / total * 100)`, rounding halves up; `None` is the
      NaN of an empty quiz. */
  function Percentage(correct: int, total: int): (p: Option<int>)
    requires 0 <= correct <= total
    ensures p.Some? <==> total > 0
    ensures p.Some? ==> 0 <= p.value <= 100
    ensures p.Some? ==> 200 * correct - total < 2 * total * p.value <= 200 * correct + total
  {
    if total == 0 then None
    else
      var d := 2 * total;
      var r := (200 * correct + total) / d;
      DivBounds(200 * correct + total, d);
      assert r <= 100 by {
        if r > 100 {
          MulMonotone(d, 101, r);
        }
      }
      assert r >= 0 by {
        if r < 0 {
          MulMonotone(d, r, -1);
        }
      }
      Some(r)
  }

  /** With fewer than 200 questions, 100% is shown exactly when every answer counts. */
  lemma PerfectIffAll(correct: int, total: int)
    requires 0 <= correct <= total < 200 && total > 0
    ensures Percentage(correct, total) == Some(100) <==> correct == total
  {
    var p := Percentage(correct, total).value;
    var d := 2 * total;
    if correct == total {
      if p <= 99 {
        MulMonotone(d, p, 99);
      }
    } else if p >= 100 {
      MulMonotone(d, 100, p);
    }
  }

  /** Rounding shows 100% for 200 of 201 correct answers. */
  lemma NearlyPerfectRoundsUp()
    ensures Percentage(200, 201) == Some(100)
  {
  }

  datatype Band = Perfect | Excellent | VeryGood | StudyMore | TryAgain {
    function Text(): string {
      match this
      case Perfect => "Perfeito!"
      case Excellent => "Excelente!"
      case VeryGood => "Muito bom!"
      case StudyMore => "Estude mais!"
      case TryAgain => "Tente de novo!"
    }

    /** Better bands have higher ranks. */
    function Rank(): nat {
      match this
      case TryAgain => 0
      case StudyMore => 1
      case VeryGood => 2
      case Excellent => 3
      case Perfect => 4
    }
  }

  /** The headline message for a percentage; NaN fails every comparison. */
  function BandOf(p: Option<int>): (b: Band)
    ensures b == Perfect <==> p == Some(100)
    ensures b == Excellent <==> p.Some? && p.value != 100 && p.value >= 80
    ensures b == VeryGood <==> p.Some? && 60 <= p.value < 80
    ensures b == StudyMore <==> p.Some? && 40 <= p.value < 60
    ensures b == TryAgain <==> p.None? || p.value < 40
  {
    if p == Some(100) then Perfect
    else if p.Some? && p.value >= 80 then Excellent
    else if p.Some? && p.value >= 60 then VeryGood
    else if p.Some? && p.value >= 40 then StudyMore
    else TryAgain
  }

  /** A higher percentage (up to 100) never gets a worse message. */
  lemma BandMonotone(p: int, q: int)
    requires p <= q <= 100
    ensures BandOf(Some(p)).Rank() <= BandOf(Some(q)).Rank()
  {
  }

  // ---------------------------------------------------------------------------
  // Panels

  /** The wire name of a game mode. */
  function ModeName(m: GameMode): (n: string)
    ensures n != "multiplayer"
  {
    match m
    case Classic => "classic"
    case Arcade => "arcade"
    case TvShow => "tv_show"
    case SpeedRun => "speed_run"
    case EssayChallenge => "essay_challenge"
    case Training => "training"
  }

  /** The arcade score panel: arcade mode with a single number. */
  predicate ShowArcadeScore(quiz: QuizData, score: Option<Score>)
    ensures ShowArcadeScore(quiz, score) ==> quiz.gameMode == Arcade && !ShowScoreboard(quiz, score)
  {
    quiz.gameMode == Arcade && score.Some? && score.value.Points?
  }

  /** The arcade panel appears for a solo arcade session's final score and for
      no other session's. */
  lemma ArcadeScoreShownForSoloArcade(quiz: QuizData, score: int, playerScores: seq<int>)
    ensures ShowArcadeScore(quiz, Some(QuizGame.FinalScore(quiz, score, playerScores))) <==>
      quiz.gameMode == Arcade && !quiz.isMultiplayer
  {
  }

  /** The final scoreboard as written: it tests the game mode against
      "multiplayer", which is not a game mode. */
  predicate ShowScoreboardAsWritten(quiz: QuizData, score: Option<Score>)
    ensures ShowScoreboardAsWritten(quiz, score) ==> score.Some? && score.value.PlayerPoints?
  {
    score.Some? && score.value.PlayerPoints? && ModeName(quiz.gameMode) == "multiplayer"
  }

  lemma ScoreboardNeverShown(quiz: QuizData, score: Option<Score>)
    ensures !ShowScoreboardAsWritten(quiz, score)
  {
  }

  /** The final scoreboard, keyed on the multiplayer flag. */
  predicate ShowScoreboard(quiz: QuizData, score: Option<Score>)
    ensures ShowScoreboard(quiz, score) ==> quiz.isMultiplayer && !ShowScoreboardAsWritten(quiz, score)
  {
    quiz.isMultiplayer && score.Some? && score.value.PlayerPoints?
  }

  /** Every finished multiplayer session, and no other, gets its scoreboard. */
  lemma ScoreboardShownForMultiplayer(quiz: QuizData, score: int, playerScores: seq<int>)
    ensures ShowScoreboard(quiz, Some(QuizGame.FinalScore(quiz, score, playerScores))) <==> quiz.isMultiplayer
  {
  }

  /** The name on scoreboard row `idx`: the player's name when it is given and
      non-empty, "Jogador <idx+1>" otherwise. */
  function RowName(quiz: QuizData, idx: nat): (name: string)
    ensures name != ""
    ensures quiz.playerNames.Some? && idx < |quiz.playerNames.value| && quiz.playerNames.value[idx] != "" ==>
      name == quiz.playerNames.value[idx]
    ensures !(quiz.playerNames.Some? && idx < |quiz.playerNames.value| && quiz.playerNames.value[idx] != "") ==>
      name == PlayerLabel(idx + 1)
  {
    if quiz.playerNames.Some? && idx < |quiz.playerNames.value| && quiz.playerNames.value[idx] != "" then
      quiz.playerNames.value[idx]
    else
      PlayerLabel(idx + 1)
  }

  /** The rows of the scoreboard, one per player score, in order. */
  function Scoreboard(quiz: QuizData, perPlayer: seq<int>): (rows: seq<(string, int)>)
    ensures |rows| == |perPlayer|
    ensures forall k :: 0 <= k < |rows| ==> rows[k] == (RowName(quiz, k), perPlayer[k])
  {
    seq(|perPlayer|, k requires 0 <= k < |perPlayer| => (RowName(quiz, k), perPlayer[k]))
  }
}
