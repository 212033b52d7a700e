/** The quiz session played on the game screen: the rules it applies (time
    limits, answer evaluation, who gets the points) and the session itself, a
    class whose event handlers update its fields one discrete step at a time. */
module QuizGame {
  import opened Types
  import opened Strings

  const StartingLives := 3
  const CorrectAnswerPoints := 100
  const MatchingPoints := 500
  const WrongMatchPenalty := 5
  /** How many wrong options the eliminate power-up hides at most. */
  const EliminateCount := 2

  // ---------------------------------------------------------------------------
  // Timing and theme

  /** Seconds per question by nominal difficulty (TIME_LIMITS). */
  function DifficultyLimit(d: Difficulty): (t: nat)
    ensures 15 <= t <= 45 && t % 15 == 0
  {
    match d
    case Easy => 45
    case Medium => 30
    case Hard => 15
  }

  /** A speed run allows 60 seconds; every other mode follows the difficulty.
      The arcade map plays no part. */
  function TimeLimit(mode: GameMode, d: Difficulty): (t: nat)
    ensures 15 <= t <= 60
    ensures t == 60 <==> mode == SpeedRun
    ensures mode != SpeedRun ==> t == DifficultyLimit(d)
  {
    if mode == SpeedRun then 60 else DifficultyLimit(d)
  }

  function MapTheme(m: ArcadeMap): QuizTheme {
    match m
    case Overworld => Spring
    case Underground => Dark
    case Athletic => Vibrant
    case Boss => Autumn
  }

  /** In arcade mode with a map, the map decides the theme; otherwise the quiz's own theme. */
  function EffectiveTheme(quiz: QuizData): (t: QuizTheme)
    ensures quiz.gameMode != Arcade || quiz.arcadeMap.None? ==> t == quiz.theme
    ensures quiz.gameMode == Arcade && quiz.arcadeMap.Some? ==> t == MapTheme(quiz.arcadeMap.value)
  {
    if quiz.gameMode == Arcade && quiz.arcadeMap.Some? then MapTheme(quiz.arcadeMap.value) else quiz.theme
  }

  // ---------------------------------------------------------------------------
  // Modes

  /** Modes in which a wrong answer or a timeout costs a life. */
  predicate HasLives(mode: GameMode) {
    mode == Arcade || mode == TvShow
  }

  /** Arcade, TV show or multiplayer: the skip power-up is rationed and a wrong
      matching attempt costs time. */
  predicate Competitive(quiz: QuizData) {
    quiz.gameMode == Arcade || quiz.isMultiplayer || quiz.gameMode == TvShow
  }

  /** Where the points of a success go. */
  datatype Ledger = SessionScore | CurrentPlayer | NoLedger

  /** Points for a confirmed correct answer. */
  function ConfirmLedger(quiz: QuizData): (l: Ledger)
    ensures l == SessionScore <==> HasLives(quiz.gameMode) || (!quiz.isMultiplayer && quiz.gameMode == SpeedRun)
    ensures l == CurrentPlayer <==> !HasLives(quiz.gameMode) && quiz.isMultiplayer
  {
    if HasLives(quiz.gameMode) then SessionScore
    else if quiz.isMultiplayer then CurrentPlayer
    else if quiz.gameMode == SpeedRun then SessionScore
    else NoLedger
  }

  /** Points for a fully solved matching question: unlike a confirmed answer,
      a solo speed run earns nothing here. */
  function MatchingLedger(quiz: QuizData): (l: Ledger)
    ensures l == SessionScore <==> HasLives(quiz.gameMode)
    ensures l == CurrentPlayer <==> !HasLives(quiz.gameMode) && quiz.isMultiplayer
  {
    if HasLives(quiz.gameMode) then SessionScore
    else if quiz.isMultiplayer then CurrentPlayer
    else NoLedger
  }

  /** A solo classic game keeps no score at all. */
  lemma ClassicSoloScoresNothing(quiz: QuizData)
    requires quiz.gameMode == Classic && !quiz.isMultiplayer
    ensures ConfirmLedger(quiz) == NoLedger && MatchingLedger(quiz) == NoLedger
  {
  }

  /** The score a finished session reports. */
  function FinalScore(quiz: QuizData, score: int, playerScores: seq<int>): (s: Score)
    ensures s.PlayerPoints? <==> quiz.isMultiplayer
  {
    if quiz.isMultiplayer then PlayerPoints(playerScores) else Points(score)
  }

  // ---------------------------------------------------------------------------
  // Answer evaluation

  /** The expected fill-in answer, lower-cased: the first option, or "" if there is none. */
  function ExpectedText(q: Question): (e: string)
    ensures |q.options| == 0 ==> e == ""
    ensures |q.options| > 0 ==> |e| == |q.options[0]| && e == Lower(q.options[0])
  {
    if |q.options| > 0 then Lower(q.options[0]) else ""
  }

  /** A fill-in answer is right when, trimmed and lower-cased, it equals the
      expected text; with no expected text, when the explanation contains it. */
  predicate FillInCorrect(input: string, q: Question)
    ensures ExpectedText(q) != "" ==> (FillInCorrect(input, q) <==> Lower(Trim(input)) == ExpectedText(q))
    ensures ExpectedText(q) == "" ==>
      (FillInCorrect(input, q) <==> Contains(Lower(q.explanation), Lower(Trim(input))))
    ensures ExpectedText(q) == "" && Blank(input) ==> FillInCorrect(input, q)
  {
    var typed := Lower(Trim(input));
    typed == ExpectedText(q) || (ExpectedText(q) == "" && Contains(Lower(q.explanation), typed))
  }

  /** What a confirmation records and whether it is right. */
  datatype Verdict = Verdict(answer: Answer, correct: bool)

  function ChoiceValue(selected: Option<int>): (v: int)
    ensures selected.Some? ==> v == selected.value
    ensures selected.None? ==> v == -1
  {
    if selected.Some? then selected.value else -1
  }

  /** The confirm evaluator. A matching question is settled by the matching
      board, so confirming one records -1 as a wrong answer. */
  function Evaluate(q: Question, selected: Option<int>, typed: string): (v: Verdict)
    ensures q.qtype == Matching ==> v == Verdict(Choice(-1), false)
    ensures q.qtype == FillInTheBlank ==> v.answer == Written(typed) && (v.correct <==> FillInCorrect(typed, q))
    ensures q.qtype != Matching && q.qtype != FillInTheBlank ==>
      v.answer == Choice(ChoiceValue(selected)) && (v.correct <==> q.correctAnswerIndex == Some(ChoiceValue(selected)))
  {
    if q.qtype == Matching then Verdict(Choice(-1), false)
    else if q.qtype == FillInTheBlank then Verdict(Written(typed), FillInCorrect(typed, q))
    else
      var a := ChoiceValue(selected);
      Verdict(Choice(a), q.correctAnswerIndex == Some(a))
  }

  /** The verdict on a fill-in answer depends only on its trimmed, lower-cased
      form: case and surrounding white space never matter. */
  lemma FillInIgnoresCaseAndPadding(a: string, b: string, q: Question)
    requires Trim(Lower(a)) == Trim(Lower(b))
    ensures FillInCorrect(a, q) == FillInCorrect(b, q)
  {
    LowerTrim(a);
    LowerTrim(b);
  }

  lemma TrimUnpadded(s: string)
    requires s != [] && !IsSpace(s[0]) && !IsSpace(s[|s| - 1])
    ensures Trim(s) == s
  {
    assert TrimStart(s) == s;
  }

  lemma TrimOneTrailing(s: string, c: char)
    requires s != [] && !IsSpace(s[0]) && IsSpace(c)
    ensures Trim(s + [c]) == Trim(s)
  {
    var t := s + [c];
    assert TrimStart(t) == t && TrimStart(s) == s;
    assert t[..|t| - 1] == s;
  }

  /** When the expected answer is an unpadded word (say "Paris"), the word
      with a trailing space ("Paris ") and the word in lower case ("paris")
      are both accepted. */
  lemma FillInAcceptsVariants(q: Question, w: string)
    requires q.qtype == FillInTheBlank && |q.options| > 0 && q.options[0] == w
    requires w != [] && !IsSpace(w[0]) && !IsSpace(w[|w| - 1])
    ensures Evaluate(q, None, w + " ").correct
    ensures Evaluate(q, None, Lower(w)).correct
  {
    TrimOneTrailing(w, ' ');
    TrimUnpadded(w);
    var lw := Lower(w);
    assert lw[0] == LowerChar(w[0]) && lw[|lw| - 1] == LowerChar(w[|w| - 1]);
    TrimUnpadded(lw);
    LowerIdempotent(w);
  }

  // ---------------------------------------------------------------------------
  // What the game screen shows about the current question

  /** `isCorrect` as the screen computes it. For a fill-in question it calls
      `.trim()` on the recorded answer whenever that answer is truthy, so a
      recorded -1 (a skip) throws a TypeError; `Err` stands for that. */
  function ShownCorrectAsWritten(q: Question, recorded: Option<Answer>, selected: Option<int>): (r: Result<bool, string>)
    ensures q.qtype != FillInTheBlank ==> r.Ok?
    ensures q.qtype == FillInTheBlank && recorded == Some(Choice(-1)) ==> r.Err?
  {
    if q.qtype == Matching then Ok(recorded == Some(Choice(1)))
    else if q.qtype == FillInTheBlank then
      match recorded
      case None => Ok(false)
      case Some(Written(t)) => Ok(t != "" && |q.options| > 0 && Lower(q.options[0]) == Lower(Trim(t)))
      case Some(Choice(n)) => if n == 0 then Ok(false) else Err("TypeError: trim is not a function")
    else Ok(selected.Some? && q.correctAnswerIndex == selected)
  }

  /** `isCorrect` with a non-text fill-in answer read as wrong. */
  function ShownCorrect(q: Question, recorded: Option<Answer>, selected: Option<int>): (r: bool)
    ensures ShownCorrectAsWritten(q, recorded, selected).Ok? ==> r == ShownCorrectAsWritten(q, recorded, selected).value
    ensures q.qtype == FillInTheBlank && recorded.Some? && recorded.value.Choice? ==> !r
  {
    if q.qtype == FillInTheBlank && recorded.Some? && recorded.value.Choice? then false
    else ShownCorrectAsWritten(q, recorded, selected).value
  }

  /** Once a fill-in answer with an answer key has been confirmed, the screen
      agrees with the evaluator's verdict. */
  lemma ShownCorrectAgreesWithConfirm(q: Question, typed: string)
    requires q.qtype == FillInTheBlank && |q.options| > 0 && q.options[0] != ""
    ensures ShownCorrect(q, Some(Evaluate(q, None, typed).answer), None) == Evaluate(q, None, typed).correct
  {
    if typed == "" {
      assert Trim(typed) == "";
      assert |ExpectedText(q)| > 0;
    }
  }

  /** A skipped fill-in question in a classic game is enough to make the
      screen's check throw. */
  lemma SkippedFillInCrashesScreen(q: Question)
    requires q.qtype == FillInTheBlank
    ensures ShownCorrectAsWritten(q, Some(Choice(-1)), None).Err?
    ensures !ShownCorrect(q, Some(Choice(-1)), None)
  {
  }

  /** `isTimeout`: time ran out before anything was answered. */
  predicate ShownTimeout(q: Question, isTimeUp: bool, isAnswerChecked: bool, recorded: Option<Answer>, selected: Option<int>)
    ensures ShownTimeout(q, isTimeUp, isAnswerChecked, recorded, selected) ==>
      isTimeUp && !ShownSkipped(q, isTimeUp, isAnswerChecked, recorded, selected)
  {
    isTimeUp &&
    if q.qtype == Matching then recorded.None?
    else if q.qtype == FillInTheBlank then !isAnswerChecked
    else selected.None?
  }

  /** `isSkipped`: checked without an answer and without a timeout. */
  predicate ShownSkipped(q: Question, isTimeUp: bool, isAnswerChecked: bool, recorded: Option<Answer>, selected: Option<int>)
    ensures ShownSkipped(q, isTimeUp, isAnswerChecked, recorded, selected) ==> isAnswerChecked && !isTimeUp
  {
    !isTimeUp && isAnswerChecked &&
    if q.qtype == Matching then recorded == Some(Choice(-1))
    else if q.qtype == FillInTheBlank then recorded == Some(Written(""))
    else selected.None?
  }


  // ---------------------------------------------------------------------------
  // Matching questions

  predicate MatchingWithPairs(q: Question) {
    q.qtype == Matching && q.pairs.Some?
  }

  /** `question.pairs?.length || 0` */
  function PairCount(q: Question): (n: nat)
    ensures q.pairs.None? ==> n == 0
    ensures q.pairs.Some? ==> n == |q.pairs.value|
  {
    if q.pairs.Some? then |q.pairs.value| else 0
  }

  function Rights(ps: seq<MatchingPair>): (r: seq<string>)
    ensures |r| == |ps| && forall k :: 0 <= k < |ps| ==> r[k] == ps[k].right
  {
    seq(|ps|, k requires 0 <= k < |ps| => ps[k].right)
  }

  function Lefts(ps: seq<MatchingPair>): set<string> {
    set p | p in ps :: p.left
  }

  /** The validation map from right-hand text to left-hand text: every right
      text of a pair is a key, and it maps to the left text of a pair with that
      right text (the last one, when right texts repeat). */
  function RightMap(ps: seq<MatchingPair>): (m: map<string, string>)
    ensures forall r :: r in m <==> exists p :: p in ps && p.right == r
    ensures forall r :: r in m ==> MatchingPair(m[r], r) in ps
  {
    if ps == [] then map[]
    else
      var init := ps[..|ps| - 1];
      var last := ps[|ps| - 1];
      assert ps == init + [last];
      RightMap(init)[last.right := last.left]
  }

  /** The loop that fills the validation map, pair by pair. */
  method BuildRightOptionMap(ps: seq<MatchingPair>) returns (m: map<string, string>)
    ensures m == RightMap(ps)
  {
    m := map[];
    var i := 0;
    while i < |ps|
      invariant 0 <= i <= |ps|
      invariant m == RightMap(ps[..i])
    {
      assert ps[..i + 1][..i] == ps[..i];
      m := m[ps[i].right := ps[i].left];
      i := i + 1;
    }
    assert ps[..|ps|] == ps;
  }

  predicate DistinctRights(ps: seq<MatchingPair>) {
    forall i, j :: 0 <= i < j < |ps| ==> ps[i].right != ps[j].right
  }

  /** With distinct right texts, a right item fits a left item exactly when
      the two form one of the question's pairs. */
  lemma RightMapFitsPairs(ps: seq<MatchingPair>, left: string, right: string)
    requires DistinctRights(ps)
    ensures (right in RightMap(ps) && RightMap(ps)[right] == left) <==> MatchingPair(left, right) in ps
  {
    var m := RightMap(ps);
    if MatchingPair(left, right) in ps {
      var i :| 0 <= i < |ps| && ps[i] == MatchingPair(left, right);
      assert right in m;
      var j :| 0 <= j < |ps| && ps[j] == MatchingPair(m[right], right);
      assert i == j;
    }
  }

  lemma {:induction false} LeftsBound(ps: seq<MatchingPair>)
    ensures |Lefts(ps)| <= |ps|
  {
    if ps != [] {
      var init := ps[..|ps| - 1];
      assert ps == init + [ps[|ps| - 1]];
      assert Lefts(ps) == Lefts(init) + {ps[|ps| - 1].left};
      LeftsBound(init);
    }
  }

  predicate NoDuplicates(s: seq<string>) {
    forall i, j :: 0 <= i < j < |s| ==> s[i] != s[j]
  }

  lemma AppendFresh(s: seq<string>, x: string)
    requires NoDuplicates(s) && x !in s
    ensures NoDuplicates(s + [x])
  {
    var t := s + [x];
    forall i, j | 0 <= i < j < |t|
      ensures t[i] != t[j]
    {
      if j == |s| {
        assert t[i] == s[i];
      }
    }
  }

  /** A duplicate-free sequence drawn from a set is no longer than the set. */
  lemma {:induction false} DistinctWithinSet(s: seq<string>, u: set<string>)
    requires NoDuplicates(s)
    requires forall x :: x in s ==> x in u
    ensures |s| <= |u|
  {
    if s != [] {
      var x := s[|s| - 1];
      var init := s[..|s| - 1];
      assert forall y :: y in init ==> y in u - {x} by {
        forall y | y in init ensures y in u - {x} {
          var k :| 0 <= k < |init| && init[k] == y;
          assert s[k] == y && s[|s| - 1] == x;
        }
      }
      DistinctWithinSet(init, u - {x});
    }
  }

  // ---------------------------------------------------------------------------
  // Power-ups

  /** The indices of the options that are not the correct one, in order. */
  function WrongIndicesBelow(k: nat, correct: Option<int>): (r: seq<int>)
    ensures forall x :: x in r <==> 0 <= x < k && correct != Some(x)
    ensures |r| == if correct.Some? && 0 <= correct.value < k then k - 1 else k
  {
    if k == 0 then []
    else WrongIndicesBelow(k - 1, correct) + (if correct == Some(k - 1) then [] else [k - 1])
  }

  function WrongIndices(q: Question): seq<int> {
    WrongIndicesBelow(|q.options|, q.correctAnswerIndex)
  }

  function Min(a: int, b: int): int {
    if a < b then a else b
  }

  datatype PowerUps = PowerUps(skip: int, eliminate: int, timeFreeze: int) {
    /** Each count is 0 or 1: it starts at 1 and is only ever decremented. */
    predicate InRange() {
      0 <= skip <= 1 && 0 <= eliminate <= 1 && 0 <= timeFreeze <= 1
    }
    predicate AtMost(other: PowerUps) {
      skip <= other.skip && eliminate <= other.eliminate && timeFreeze <= other.timeFreeze
    }
  }

  datatype PowerUpKind = Eliminate | TimeFreeze

  datatype Side = LeftSide | RightSide

  /** One call of the session's completion callback. */
  datatype Completion = Completion(answers: UserAnswers, score: Score)

  function DefaultPlayerNames(): seq<string> {
    ["Jogador 1", "Jogador 2"]
  }

  function PlayerNamesOf(quiz: QuizData): (names: seq<string>)
    ensures quiz.playerNames.None? ==> names == DefaultPlayerNames()
    ensures quiz.playerNames.Some? ==> names == quiz.playerNames.value
  {
    if quiz.playerNames.Some? then quiz.playerNames.value else DefaultPlayerNames()
  }

  function QuestionIds(qs: seq<Question>): set<int> {
    set q | q in qs :: q.id
  }

  /** The caller's shuffle of the right-hand texts of a matching question is a permutation. */
  predicate ShuffleFits(q: Question, shuffled: seq<string>) {
    MatchingWithPairs(q) ==> multiset(shuffled) == multiset(Rights(q.pairs.value))
  }

  // ---------------------------------------------------------------------------
  // The session

  /** The player after `p` in a round of `n` players. */
  function NextPlayer(p: nat, n: nat): (r: nat)
    requires p < n
    ensures r < n
    ensures r == if p + 1 < n then p + 1 else 0
  {
    (p + 1) % n
  }

  /** The numbers a session keeps score with: its own score, one score per
      player, and the lives left. */
  datatype Standing = Standing(score: int, playerScores: seq<int>, lives: int)

  function Sum(xs: seq<int>): int {
    if xs == [] then 0 else Sum(xs[..|xs| - 1]) + xs[|xs| - 1]
  }

  /** Adding `d` to one entry adds `d` to the sum. */
  lemma {:induction false} SumUpdate(xs: seq<int>, k: nat, d: int)
    requires k < |xs|
    ensures Sum(xs[k := xs[k] + d]) == Sum(xs) + d
  {
    var n := |xs| - 1;
    var ys := xs[k := xs[k] + d];
    if k < n {
      assert ys[..n] == xs[..n][k := xs[k] + d];
      SumUpdate(xs[..n], k, d);
    } else {
      assert ys[..n] == xs[..n];
    }
  }

  /** Every point a standing holds, session and players together. */
  function Total(s: Standing): int {
    s.score + Sum(s.playerScores)
  }

  /** `points` credited to `ledger` (the score of `player` for a per-player
      ledger): exactly that ledger moves, by exactly `points`, and the lives stay. */
  function Credited(s: Standing, ledger: Ledger, player: nat, points: int): (r: Standing)
    requires ledger == CurrentPlayer ==> player < |s.playerScores|
    ensures r.lives == s.lives && |r.playerScores| == |s.playerScores|
    ensures Total(r) == Total(s) + (if ledger == NoLedger then 0 else points)
    ensures ledger != SessionScore ==> r.score == s.score
    ensures ledger == SessionScore ==> r.score == s.score + points
    ensures ledger == CurrentPlayer ==> r.playerScores[player] == s.playerScores[player] + points
    ensures ledger != CurrentPlayer ==> r.playerScores == s.playerScores
    ensures forall k :: 0 <= k < |s.playerScores| && k != player ==> r.playerScores[k] == s.playerScores[k]
  {
    match ledger
    case SessionScore => s.(score := s.score + points)
    case CurrentPlayer =>
      SumUpdate(s.playerScores, player, points);
      s.(playerScores := s.playerScores[player := s.playerScores[player] + points])
    case NoLedger => s
  }

  /** The standing after a confirmed answer by `player`: points to the mode's
      ledger when it is right, a life lost (in modes with lives) when it is
      wrong. No score ever goes down and no life is ever won back. */
  function AfterVerdict(quiz: QuizData, s: Standing, player: nat, correct: bool): (r: Standing)
    requires ConfirmLedger(quiz) == CurrentPlayer ==> player < |s.playerScores|
    ensures |r.playerScores| == |s.playerScores|
    ensures r.score >= s.score && forall k :: 0 <= k < |s.playerScores| ==> r.playerScores[k] >= s.playerScores[k]
    ensures 0 <= s.lives ==> 0 <= r.lives <= s.lives
    ensures correct ==>
      r.lives == s.lives && Total(r) == Total(s) + (if ConfirmLedger(quiz) == NoLedger then 0 else CorrectAnswerPoints)
    ensures !correct ==> Total(r) == Total(s) && r.playerScores == s.playerScores
    ensures !correct && s.lives > 0 ==> (r.lives < s.lives <==> HasLives(quiz.gameMode))
    ensures correct && ConfirmLedger(quiz) == SessionScore ==>
      r.score == s.score + CorrectAnswerPoints && r.playerScores == s.playerScores
    ensures correct && ConfirmLedger(quiz) == CurrentPlayer ==>
      r.score == s.score && r.playerScores == s.playerScores[player := s.playerScores[player] + CorrectAnswerPoints]
    ensures correct && ConfirmLedger(quiz) == NoLedger ==> r == s
    ensures !correct ==>
      r.score == s.score && r.lives == (if HasLives(quiz.gameMode) then Max0(s.lives - 1) else s.lives)
  {
    if correct then
      var r := Credited(s, ConfirmLedger(quiz), player, CorrectAnswerPoints);
      assert ConfirmLedger(quiz) == CurrentPlayer ==> r.playerScores[player] == s.playerScores[player] + CorrectAnswerPoints by {
        if ConfirmLedger(quiz) == CurrentPlayer {
          assert r.playerScores == s.playerScores[player := s.playerScores[player] + CorrectAnswerPoints];
        }
      }
      r
    else if HasLives(quiz.gameMode) then s.(lives := Max0(s.lives - 1))
    else s
  }

  /** One play-through of a quiz. Timers, animations and sound are not part of
      it: a countdown second, the end of a freeze and each click are separate
      calls, and a question change takes effect at once. */
  class Session {
    const quiz: QuizData
    const playerNames: seq<string>
    const timeLimit: nat

    var currentQuestionIndex: nat
    var selectedOption: Option<int>
    var fillInBlankAnswer: string
    var answers: UserAnswers

    var lives: int
    var score: int
    var currentPlayerIndex: nat
    var playerScores: seq<int>

    var powerUps: PowerUps
    var isFrozen: bool
    var eliminatedOptions: seq<int>

    var matchingLeft: Option<string>
    var matchedPairs: seq<string>
    var shuffledRightOptions: seq<string>
    var rightOptionMap: map<string, string>

    var isAnswerChecked: bool
    var timeLeft: int
    var isTimeUp: bool

    /** Every call of the completion callback, oldest first. */
    var completions: seq<Completion>

    function Current(): Question
      requires currentQuestionIndex < |quiz.questions|
      reads this`currentQuestionIndex
    {
      quiz.questions[currentQuestionIndex]
    }

    /** The score, the per-player scores and the lives, as one value. */
    function Now(): Standing
      reads this`score, this`playerScores, this`lives
    {
      Standing(score, playerScores, lives)
    }

    /** The session invariant, one part per group of fields so that a handler
        keeps untouched parts for free. */
    ghost predicate Valid()
      reads this
    {
      && PositionOk() && CountersOk() && TimerOk() && EliminatedOk()
      && BoardOk() && BoardFitsQuestion() && SolvedRecorded() && AnswersOk()
    }

    ghost predicate PositionOk()
      reads this`currentQuestionIndex, this`currentPlayerIndex, this`playerScores
    {
      && 0 < |quiz.questions| && currentQuestionIndex < |quiz.questions|
      && playerNames == PlayerNamesOf(quiz) && 0 < |playerNames|
      && timeLimit == TimeLimit(quiz.gameMode, quiz.difficulty)
      && |playerScores| == |playerNames| && currentPlayerIndex < |playerNames|
    }

    ghost predicate CountersOk()
      reads this`lives, this`powerUps
    {
      0 <= lives <= StartingLives && powerUps.InRange()
    }

    ghost predicate TimerOk()
      reads this`timeLeft, this`isTimeUp
    {
      0 <= timeLeft <= timeLimit && (isTimeUp ==> timeLeft == 0)
    }

    /** Eliminated options are wrong options of the current question. */
    ghost predicate EliminatedOk()
      reads this`currentQuestionIndex, this`eliminatedOptions
    {
      && |eliminatedOptions| <= EliminateCount
      && (currentQuestionIndex < |quiz.questions| && !MatchingWithPairs(quiz.questions[currentQuestionIndex]) ==>
            forall e :: e in eliminatedOptions ==> e in WrongIndices(quiz.questions[currentQuestionIndex]))
    }

    /** The matched items are distinct right-hand texts, none of them pending. */
    ghost predicate BoardOk()
      reads this`matchedPairs, this`matchingLeft, this`rightOptionMap
    {
      && NoDuplicates(matchedPairs)
      && (matchingLeft.Some? ==> matchingLeft.value !in matchedPairs)
      && (forall x :: x in matchedPairs ==> x in rightOptionMap.Values)
    }

    /** The matching board belongs to the current question. */
    ghost predicate BoardFitsQuestion()
      reads this`currentQuestionIndex, this`rightOptionMap, this`shuffledRightOptions
    {
      currentQuestionIndex < |quiz.questions| && MatchingWithPairs(quiz.questions[currentQuestionIndex]) ==>
        var q := quiz.questions[currentQuestionIndex];
        && rightOptionMap == RightMap(q.pairs.value)
        && multiset(shuffledRightOptions) == multiset(Rights(q.pairs.value))
    }

    /** A completed matching board has been recorded as solved. */
    ghost predicate SolvedRecorded()
      reads this`currentQuestionIndex, this`matchedPairs, this`isAnswerChecked, this`answers
    {
      currentQuestionIndex < |quiz.questions| && MatchingWithPairs(quiz.questions[currentQuestionIndex]) ==>
        var q := quiz.questions[currentQuestionIndex];
        |matchedPairs| == PairCount(q) > 0 ==> isAnswerChecked && q.id in answers && answers[q.id] == Choice(1)
    }

    ghost predicate AnswersOk()
      reads this`answers
    {
      answers.Keys <= QuestionIds(quiz.questions)
    }

    /** The shuffle handed to a question change fits the next question. */
    predicate NextShuffleFits(shuffled: seq<string>)
      reads this
    {
      currentQuestionIndex + 1 < |quiz.questions| ==> ShuffleFits(quiz.questions[currentQuestionIndex + 1], shuffled)
    }

    predicate GameOver()
      reads this`lives
    {
      HasLives(quiz.gameMode) && lives == 0
    }

    /** The countdown effect is installed: not answered (a speed run keeps
        counting after an answer), not timed out, not frozen. */
    predicate CountdownRunning()
      reads this
    {
      !((isAnswerChecked && quiz.gameMode != SpeedRun) || isTimeUp || isFrozen)
    }

    /** The left item waiting for its right-hand partner; "" counts as none. */
    predicate HoldsLeft()
      reads this
    {
      matchingLeft.Some? && matchingLeft.value != ""
    }

    predicate Fits(item: string)
      reads this
      requires matchingLeft.Some?
    {
      item in rightOptionMap && rightOptionMap[item] == matchingLeft.value
    }

    constructor (quiz: QuizData, shuffled: seq<string>)
      requires 0 < |quiz.questions|
      requires quiz.playerNames.None? || 0 < |quiz.playerNames.value|
      requires ShuffleFits(quiz.questions[0], shuffled)
      ensures Valid()
      ensures this.quiz == quiz && currentQuestionIndex == 0 && answers == map[] && completions == []
      ensures lives == StartingLives && score == 0 && currentPlayerIndex == 0
      ensures |playerScores| == |playerNames| && forall k :: 0 <= k < |playerScores| ==> playerScores[k] == 0
      ensures powerUps == PowerUps(1, 1, 1) && !isFrozen && eliminatedOptions == []
      ensures timeLeft == timeLimit && !isTimeUp && !isAnswerChecked
      ensures selectedOption.None? && fillInBlankAnswer == ""
      ensures matchedPairs == [] && matchingLeft.None?
      ensures MatchingWithPairs(quiz.questions[0]) ==> shuffledRightOptions == shuffled
    {
      var names := PlayerNamesOf(quiz);
      var first := quiz.questions[0];
      var shuffledRights: seq<string> := [];
      var rightMap: map<string, string> := map[];
      if MatchingWithPairs(first) {
        shuffledRights := shuffled;
        rightMap := BuildRightOptionMap(first.pairs.value);
      }
      this.quiz := quiz;
      playerNames := names;
      timeLimit := TimeLimit(quiz.gameMode, quiz.difficulty);
      currentQuestionIndex := 0;
      selectedOption := None;
      fillInBlankAnswer := "";
      answers := map[];
      lives := StartingLives;
      score := 0;
      currentPlayerIndex := 0;
      playerScores := seq(|names|, _ => 0);
      powerUps := PowerUps(1, 1, 1);
      isFrozen := false;
      eliminatedOptions := [];
      matchingLeft := None;
      matchedPairs := [];
      shuffledRightOptions := shuffledRights;
      rightOptionMap := rightMap;
      isAnswerChecked := false;
      timeLeft := TimeLimit(quiz.gameMode, quiz.difficulty);
      isTimeUp := false;
      completions := [];
    }

    /** The per-question reset and the matching-board set-up that run when a
        new question becomes current. */
    twostate predicate EnteredQuestion(shuffled: seq<string>)
      requires currentQuestionIndex < |quiz.questions|
      reads this`currentQuestionIndex, this`currentPlayerIndex, this`selectedOption, this`fillInBlankAnswer,
        this`isAnswerChecked, this`isFrozen, this`timeLeft, this`isTimeUp, this`shuffledRightOptions,
        this`rightOptionMap, this`matchedPairs, this`matchingLeft, this`eliminatedOptions
    {
      && selectedOption.None? && fillInBlankAnswer == "" && !isAnswerChecked && !isFrozen
      && (if quiz.gameMode == SpeedRun then timeLeft == old(timeLeft) && isTimeUp == old(isTimeUp)
          else timeLeft == timeLimit && !isTimeUp)
      && (if MatchingWithPairs(Current()) then
            && shuffledRightOptions == shuffled && rightOptionMap == RightMap(Current().pairs.value)
            && matchedPairs == [] && matchingLeft.None? && eliminatedOptions == old(eliminatedOptions)
          else
            && eliminatedOptions == [] && shuffledRightOptions == old(shuffledRightOptions)
            && rightOptionMap == old(rightOptionMap) && matchedPairs == old(matchedPairs)
            && matchingLeft == old(matchingLeft))
    }

    /** The screen of the current question is as it was, except perhaps for
        the answered flag. */
    twostate predicate ScreenKept()
      reads this`currentQuestionIndex, this`currentPlayerIndex, this`selectedOption, this`fillInBlankAnswer,
        this`isAnswerChecked, this`isFrozen, this`timeLeft, this`isTimeUp, this`shuffledRightOptions,
        this`rightOptionMap, this`matchedPairs, this`matchingLeft, this`eliminatedOptions
    {
      && currentQuestionIndex == old(currentQuestionIndex) && currentPlayerIndex == old(currentPlayerIndex)
      && selectedOption == old(selectedOption) && fillInBlankAnswer == old(fillInBlankAnswer)
      && isFrozen == old(isFrozen) && timeLeft == old(timeLeft) && isTimeUp == old(isTimeUp)
      && shuffledRightOptions == old(shuffledRightOptions) && rightOptionMap == old(rightOptionMap)
      && matchedPairs == old(matchedPairs) && matchingLeft == old(matchingLeft)
      && eliminatedOptions == old(eliminatedOptions)
    }

    /** Nothing about the current question changed. */
    twostate predicate QuestionStateKept()
      reads this`currentQuestionIndex, this`currentPlayerIndex, this`selectedOption, this`fillInBlankAnswer,
        this`isAnswerChecked, this`isFrozen, this`timeLeft, this`isTimeUp, this`shuffledRightOptions,
        this`rightOptionMap, this`matchedPairs, this`matchingLeft, this`eliminatedOptions
    {
      ScreenKept() && isAnswerChecked == old(isAnswerChecked)
    }

    /** The effect of moving on: game over when out of lives, the next
        question (and, in multiplayer, the next player) when there is one, and
        the end of the quiz otherwise. `reported` is the answer map the
        completion callback receives. */
    twostate predicate Advanced(reported: UserAnswers, shuffled: seq<string>)
      requires old(currentPlayerIndex) < |playerNames|
      reads this`currentQuestionIndex, this`currentPlayerIndex, this`selectedOption, this`fillInBlankAnswer,
        this`isAnswerChecked, this`isFrozen, this`timeLeft, this`isTimeUp, this`shuffledRightOptions,
        this`rightOptionMap, this`matchedPairs, this`matchingLeft, this`eliminatedOptions, this`completions, this`lives, this`score,
        this`playerScores
    {
      && lives == old(lives) && score == old(score) && playerScores == old(playerScores)
      && if old(GameOver()) then
           completions == old(completions) + [Completion(reported, Points(old(score)))] && QuestionStateKept()
         else if old(currentQuestionIndex) + 1 < |quiz.questions| then
           && currentQuestionIndex == old(currentQuestionIndex) + 1
           && currentPlayerIndex == (if quiz.isMultiplayer then NextPlayer(old(currentPlayerIndex), |playerNames|) else old(currentPlayerIndex))
           && completions == old(completions)
           && EnteredQuestion(shuffled)
         else
           completions == old(completions) + [Completion(reported, FinalScore(quiz, old(score), old(playerScores)))]
           && QuestionStateKept()
    }

    /** handleOptionSelect */
    method SelectOption(index: int)
      requires Valid()
      modifies this`selectedOption
      ensures Valid()
      ensures selectedOption ==
        if !isTimeUp && !isAnswerChecked && index !in eliminatedOptions then Some(index) else old(selectedOption)
    {
      if !isTimeUp && !isAnswerChecked && index !in eliminatedOptions {
        selectedOption := Some(index);
      }
    }

    /** Typing into the fill-in box, which is disabled once answered or timed out. */
    method TypeAnswer(text: string)
      requires Valid()
      modifies this`fillInBlankAnswer
      ensures Valid()
      ensures fillInBlankAnswer == if !isAnswerChecked && !isTimeUp then text else old(fillInBlankAnswer)
    {
      if !isAnswerChecked && !isTimeUp {
        fillInBlankAnswer := text;
      }
    }

    /** One second of the countdown. */
    method Tick()
      requires Valid()
      modifies this`timeLeft, this`isTimeUp, this`isAnswerChecked, this`lives, this`completions
      ensures Valid()
      ensures lives <= old(lives)
      ensures !old(CountdownRunning()) ==>
        && timeLeft == old(timeLeft) && isTimeUp == old(isTimeUp) && isAnswerChecked == old(isAnswerChecked)
        && lives == old(lives) && completions == old(completions)
      ensures old(CountdownRunning()) && old(timeLeft) > 1 ==>
        && timeLeft == old(timeLeft) - 1 && isTimeUp == old(isTimeUp) && isAnswerChecked == old(isAnswerChecked)
        && lives == old(lives) && completions == old(completions)
      ensures old(CountdownRunning()) && old(timeLeft) <= 1 ==>
        && timeLeft == 0 && isTimeUp
        && if quiz.gameMode == SpeedRun then
             && completions == old(completions) + [Completion(answers, Points(score))]
             && isAnswerChecked == old(isAnswerChecked) && lives == old(lives)
           else
             && completions == old(completions) && isAnswerChecked
             && lives == if HasLives(quiz.gameMode) then Max0(old(lives) - 1) else old(lives)
    {
      if !CountdownRunning() {
        return;
      }
      if timeLeft <= 1 {
        TimeOut();
      } else {
        timeLeft := timeLeft - 1;
      }
    }

    /** The last second of the countdown: a speed run ends, any other mode
        marks the question answered and, with lives, costs one. */
    method TimeOut()
      requires TimerOk() && CountersOk() && SolvedRecorded()
      modifies this`timeLeft, this`isTimeUp, this`isAnswerChecked, this`lives, this`completions
      ensures TimerOk() && CountersOk() && SolvedRecorded()
      ensures timeLeft == 0 && isTimeUp
      ensures quiz.gameMode == SpeedRun ==>
        && completions == old(completions) + [Completion(answers, Points(score))]
        && isAnswerChecked == old(isAnswerChecked) && lives == old(lives)
      ensures quiz.gameMode != SpeedRun ==>
        && completions == old(completions) && isAnswerChecked
        && lives == if HasLives(quiz.gameMode) then Max0(old(lives) - 1) else old(lives)
    {
      if quiz.gameMode == SpeedRun {
        timeLeft, isTimeUp, completions := 0, true, completions + [Completion(answers, Points(score))];
      } else {
        var left := if HasLives(quiz.gameMode) then Max0(lives - 1) else lives;
        timeLeft, isTimeUp, isAnswerChecked, lives := 0, true, true, left;
      }
    }

    /** The ten-second freeze running out. */
    method Unfreeze()
      requires Valid()
      modifies this`isFrozen
      ensures Valid() && !isFrozen
    {
      isFrozen := false;
    }

    /** The move to the next question (and, in multiplayer, the next player),
        with the reset effect that runs whenever the question changes. */
    method MoveToNext()
      requires PositionOk() && TimerOk() && EliminatedOk()
      requires currentQuestionIndex + 1 < |quiz.questions|
      modifies this`currentQuestionIndex, this`currentPlayerIndex, this`timeLeft, this`isTimeUp,
        this`selectedOption, this`isAnswerChecked, this`isFrozen, this`fillInBlankAnswer
      ensures PositionOk() && TimerOk() && |eliminatedOptions| <= EliminateCount
      ensures currentQuestionIndex == old(currentQuestionIndex) + 1
      ensures currentPlayerIndex ==
        if quiz.isMultiplayer then NextPlayer(old(currentPlayerIndex), |playerNames|) else old(currentPlayerIndex)
      ensures selectedOption.None? && fillInBlankAnswer == "" && !isAnswerChecked && !isFrozen
      ensures if quiz.gameMode == SpeedRun then timeLeft == old(timeLeft) && isTimeUp == old(isTimeUp)
              else timeLeft == timeLimit && !isTimeUp
    {
      var player := if quiz.isMultiplayer then NextPlayer(currentPlayerIndex, |playerNames|) else currentPlayerIndex;
      if quiz.gameMode != SpeedRun {
        timeLeft, isTimeUp := timeLimit, false;
      }
      currentQuestionIndex, currentPlayerIndex := currentQuestionIndex + 1, player;
      selectedOption, isAnswerChecked, isFrozen, fillInBlankAnswer := None, false, false, "";
    }

    /** The set-up effect run whenever the question changes: a fresh matching
        board for a matching question, no eliminated options otherwise. */
    method SetUpBoard(shuffled: seq<string>)
      requires PositionOk() && CountersOk() && TimerOk() && AnswersOk() && BoardOk()
      requires |eliminatedOptions| <= EliminateCount
      requires ShuffleFits(Current(), shuffled)
      requires !isAnswerChecked
      modifies this`shuffledRightOptions, this`rightOptionMap, this`matchedPairs, this`matchingLeft,
        this`eliminatedOptions
      ensures Valid()
      ensures if MatchingWithPairs(Current()) then
                && shuffledRightOptions == shuffled && rightOptionMap == RightMap(Current().pairs.value)
                && matchedPairs == [] && matchingLeft.None? && eliminatedOptions == old(eliminatedOptions)
              else
                && eliminatedOptions == [] && shuffledRightOptions == old(shuffledRightOptions)
                && rightOptionMap == old(rightOptionMap) && matchedPairs == old(matchedPairs)
                && matchingLeft == old(matchingLeft)
    {
      var q := Current();
      if MatchingWithPairs(q) {
        shuffledRightOptions := shuffled;
        rightOptionMap := BuildRightOptionMap(q.pairs.value);
        matchedPairs := [];
        matchingLeft := None;
        assert |matchedPairs| == 0;
      } else {
        eliminatedOptions := [];
      }
    }

    /** The move to the next question (and, in multiplayer, the next player). */
    method EnterNextQuestion(shuffled: seq<string>)
      requires Valid()
      requires currentQuestionIndex + 1 < |quiz.questions|
      requires ShuffleFits(quiz.questions[currentQuestionIndex + 1], shuffled)
      modifies this`currentQuestionIndex, this`currentPlayerIndex, this`selectedOption, this`fillInBlankAnswer,
        this`isAnswerChecked, this`isFrozen, this`timeLeft, this`isTimeUp, this`shuffledRightOptions,
        this`rightOptionMap, this`matchedPairs, this`matchingLeft, this`eliminatedOptions
      ensures Valid()
      ensures currentQuestionIndex == old(currentQuestionIndex) + 1
      ensures currentPlayerIndex ==
        if quiz.isMultiplayer then NextPlayer(old(currentPlayerIndex), |playerNames|) else old(currentPlayerIndex)
      ensures EnteredQuestion(shuffled)
    {
      MoveToNext();
      SetUpBoard(shuffled);
    }

    /** handleNextQuestion, reporting `reported` if the session ends. */
    method AdvanceReporting(reported: UserAnswers, shuffled: seq<string>)
      requires Valid()
      requires NextShuffleFits(shuffled)
      modifies this`currentQuestionIndex, this`currentPlayerIndex, this`selectedOption, this`fillInBlankAnswer,
        this`isAnswerChecked, this`isFrozen, this`timeLeft, this`isTimeUp, this`shuffledRightOptions,
        this`rightOptionMap, this`matchedPairs, this`matchingLeft, this`eliminatedOptions, this`completions
      ensures Valid()
      ensures Advanced(reported, shuffled)
    {
      if HasLives(quiz.gameMode) && lives == 0 {
        Report(Completion(reported, Points(score)));
      } else if currentQuestionIndex < |quiz.questions| - 1 {
        EnterNextQuestion(shuffled);
      } else {
        Report(Completion(reported, FinalScore(quiz, score, playerScores)));
      }
    }

    /** A call of the completion callback. */
    method Report(c: Completion)
      requires Valid()
      modifies this`completions
      ensures Valid() && completions == old(completions) + [c]
    {
      completions := completions + [c];
    }

    /** handleNextQuestion: the "next" button and the speed-run auto-advance. */
    method NextQuestion(shuffled: seq<string>)
      requires Valid()
      requires NextShuffleFits(shuffled)
      modifies this`currentQuestionIndex, this`currentPlayerIndex, this`selectedOption, this`fillInBlankAnswer,
        this`isAnswerChecked, this`isFrozen, this`timeLeft, this`isTimeUp, this`shuffledRightOptions,
        this`rightOptionMap, this`matchedPairs, this`matchingLeft, this`eliminatedOptions, this`completions
      ensures Valid()
      ensures Advanced(answers, shuffled)
    {
      AdvanceReporting(answers, shuffled);
    }

    /** handleConfirm: check the answer, or move on once it is checked. */
    method Confirm(shuffled: seq<string>)
      requires Valid()
      requires NextShuffleFits(shuffled)
      modifies this`currentQuestionIndex, this`currentPlayerIndex, this`selectedOption, this`fillInBlankAnswer,
        this`isAnswerChecked, this`isFrozen, this`timeLeft, this`isTimeUp, this`shuffledRightOptions,
        this`rightOptionMap, this`matchedPairs, this`matchingLeft, this`eliminatedOptions, this`completions,
        this`answers, this`score, this`playerScores, this`lives
      ensures Valid()
      ensures old(isAnswerChecked) ==> answers == old(answers) && Advanced(old(answers), shuffled)
      ensures !old(isAnswerChecked) ==>
        var v := old(Evaluate(Current(), selectedOption, fillInBlankAnswer));
        && isAnswerChecked && answers == old(answers[Current().id := v.answer])
        && Now() == old(AfterVerdict(quiz, Now(), currentPlayerIndex, v.correct))
        && ScreenKept() && completions == old(completions)
    {
      if isAnswerChecked {
        AdvanceReporting(answers, shuffled);
      } else {
        Settle(Evaluate(Current(), selectedOption, fillInBlankAnswer));
      }
    }

    /** The first step of handleConfirm: record the verdict, then score or
        lose a life. */
    method Settle(v: Verdict)
      requires PositionOk() && CountersOk() && AnswersOk() && SolvedRecorded() && !isAnswerChecked
      modifies this`isAnswerChecked, this`answers, this`score, this`playerScores, this`lives
      ensures PositionOk() && CountersOk() && AnswersOk() && SolvedRecorded()
      ensures isAnswerChecked && answers == old(answers[Current().id := v.answer])
      ensures Now() == old(AfterVerdict(quiz, Now(), currentPlayerIndex, v.correct))
    {
      var id := Current().id;
      assert id in QuestionIds(quiz.questions);
      var after := AfterVerdict(quiz, Now(), currentPlayerIndex, v.correct);
      isAnswerChecked, answers, score, playerScores, lives :=
        true, answers[id := v.answer], after.score, after.playerScores, after.lives;
    }

    /** handleSkip. In arcade, TV-show and multiplayer play a skip costs the
        skip power-up and moves on at once, reporting the answers as they were
        before the skip; elsewhere it marks the question answered with -1. */
    method Skip(shuffled: seq<string>)
      requires Valid()
      requires NextShuffleFits(shuffled)
      modifies this`currentQuestionIndex, this`currentPlayerIndex, this`selectedOption, this`fillInBlankAnswer,
        this`isAnswerChecked, this`isFrozen, this`timeLeft, this`isTimeUp, this`shuffledRightOptions,
        this`rightOptionMap, this`matchedPairs, this`matchingLeft, this`eliminatedOptions, this`completions,
        this`answers, this`powerUps
      ensures Valid()
      ensures powerUps.AtMost(old(powerUps))
      ensures old(isAnswerChecked || isTimeUp) || (Competitive(quiz) && old(powerUps.skip) <= 0) ==>
        answers == old(answers) && powerUps == old(powerUps) && QuestionStateKept() && completions == old(completions)
      ensures !old(isAnswerChecked || isTimeUp) && Competitive(quiz) && old(powerUps.skip) > 0 ==>
        && answers == old(answers)[old(Current()).id := Choice(-1)] && powerUps == old(powerUps).(skip := old(powerUps.skip) - 1)
        && Advanced(old(answers), shuffled)
      ensures !old(isAnswerChecked || isTimeUp) && !Competitive(quiz) ==>
        && answers == old(answers)[old(Current()).id := Choice(-1)] && isAnswerChecked && powerUps == old(powerUps)
        && ScreenKept() && completions == old(completions)
    {
      if isAnswerChecked || isTimeUp {
        return;
      }
      if Competitive(quiz) {
        if powerUps.skip > 0 {
          SpendSkip(shuffled);
        }
      } else {
        MarkSkipped();
      }
    }

    /** A competitive skip: spend the power-up, report the answers and move on. */
    method SpendSkip(shuffled: seq<string>)
      requires Valid() && NextShuffleFits(shuffled) && powerUps.skip > 0 && !isAnswerChecked
      modifies this`currentQuestionIndex, this`currentPlayerIndex, this`selectedOption, this`fillInBlankAnswer,
        this`isAnswerChecked, this`isFrozen, this`timeLeft, this`isTimeUp, this`shuffledRightOptions,
        this`rightOptionMap, this`matchedPairs, this`matchingLeft, this`eliminatedOptions, this`completions,
        this`answers, this`powerUps
      ensures Valid()
      ensures answers == old(answers)[old(Current()).id := Choice(-1)]
      ensures powerUps == old(powerUps).(skip := old(powerUps.skip) - 1)
      ensures Advanced(old(answers), shuffled)
    {
      var id := Current().id;
      assert id in QuestionIds(quiz.questions);
      AdvanceReporting(answers, shuffled);
      TakeSkip(id);
    }

    /** Spend one skip and record the answer -1 for question `id`. */
    method TakeSkip(id: int)
      requires PositionOk() && CountersOk() && AnswersOk() && SolvedRecorded()
      requires powerUps.skip > 0 && id in QuestionIds(quiz.questions) && !isAnswerChecked
      modifies this`powerUps, this`answers
      ensures PositionOk() && CountersOk() && AnswersOk() && SolvedRecorded()
      ensures powerUps == old(powerUps).(skip := old(powerUps.skip) - 1) && answers == old(answers)[id := Choice(-1)]
    {
      powerUps, answers := powerUps.(skip := powerUps.skip - 1), answers[id := Choice(-1)];
    }

    /** A classic skip: the question is closed with the answer -1. */
    method MarkSkipped()
      requires PositionOk() && AnswersOk() && SolvedRecorded() && !isAnswerChecked
      modifies this`isAnswerChecked, this`answers
      ensures PositionOk() && AnswersOk() && SolvedRecorded()
      ensures isAnswerChecked && answers == old(answers[Current().id := Choice(-1)])
    {
      var id := Current().id;
      assert id in QuestionIds(quiz.questions);
      isAnswerChecked, answers := true, answers[id := Choice(-1)];
    }

    /** handleMatchingSelect: pick a left item, then the right item it pairs with. */
    method MatchingSelect(item: string, side: Side)
      requires Valid()
      modifies this`matchingLeft, this`matchedPairs, this`isAnswerChecked, this`answers, this`score,
        this`playerScores, this`timeLeft
      ensures Valid()
      ensures old(isAnswerChecked || isTimeUp) ==>
        && matchingLeft == old(matchingLeft) && matchedPairs == old(matchedPairs)
        && isAnswerChecked == old(isAnswerChecked) && answers == old(answers) && timeLeft == old(timeLeft)
        && Now() == old(Now())
      ensures !old(isAnswerChecked || isTimeUp) && side == LeftSide ==>
        && matchingLeft == (if item in old(matchedPairs) then old(matchingLeft)
                            else if old(matchingLeft) == Some(item) then None else Some(item))
        && matchedPairs == old(matchedPairs) && isAnswerChecked == old(isAnswerChecked)
        && answers == old(answers) && timeLeft == old(timeLeft) && Now() == old(Now())
      ensures !old(isAnswerChecked || isTimeUp) && side == RightSide && !old(HoldsLeft()) ==>
        && matchingLeft == old(matchingLeft) && matchedPairs == old(matchedPairs)
        && isAnswerChecked == old(isAnswerChecked) && answers == old(answers) && timeLeft == old(timeLeft)
        && Now() == old(Now())
      ensures !old(isAnswerChecked || isTimeUp) && side == RightSide && old(HoldsLeft()) && old(Fits(item)) ==>
        && matchedPairs == old(matchedPairs) + [old(matchingLeft).value] && matchingLeft.None?
        && timeLeft == old(timeLeft)
        && if |matchedPairs| == PairCount(Current()) then
             && isAnswerChecked && answers == old(answers[Current().id := Choice(1)])
             && Now() == old(Credited(Now(), MatchingLedger(quiz), currentPlayerIndex, MatchingPoints))
           else
             !isAnswerChecked && answers == old(answers) && Now() == old(Now())
      ensures !old(isAnswerChecked || isTimeUp) && side == RightSide && old(HoldsLeft()) && !old(Fits(item)) ==>
        && matchingLeft.None? && matchedPairs == old(matchedPairs)
        && isAnswerChecked == old(isAnswerChecked) && answers == old(answers) && Now() == old(Now())
        && timeLeft == if Competitive(quiz) then Max0(old(timeLeft) - WrongMatchPenalty) else old(timeLeft)
    {
      if isAnswerChecked || isTimeUp {
        return;
      }
      if side == LeftSide {
        SelectLeft(item);
      } else if HoldsLeft() {
        if !Fits(item) {
          Mismatch();
        } else {
          Match(item);
        }
      }
    }

    /** A left-hand click: select the item, or deselect it when it is the
        pending one; matched items do not respond. */
    method SelectLeft(item: string)
      requires Valid()
      modifies this`matchingLeft
      ensures Valid()
      ensures matchingLeft == if item in matchedPairs then old(matchingLeft)
                              else if old(matchingLeft) == Some(item) then None else Some(item)
    {
      if item !in matchedPairs {
        matchingLeft := if matchingLeft == Some(item) then None else Some(item);
      }
    }

    /** A right-hand click that does not fit the pending left item: the
        selection is dropped and, in competitive play, time is lost. */
    method Mismatch()
      requires Valid()
      modifies this`matchingLeft, this`timeLeft
      ensures Valid()
      ensures matchingLeft.None?
      ensures timeLeft == if Competitive(quiz) then Max0(old(timeLeft) - WrongMatchPenalty) else old(timeLeft)
    {
      var left := if Competitive(quiz) then Max0(timeLeft - WrongMatchPenalty) else timeLeft;
      matchingLeft, timeLeft := None, left;
    }

    /** A right-hand click that fits the pending left item. */
    method Match(item: string)
      requires Valid() && !isAnswerChecked && HoldsLeft() && Fits(item)
      modifies this`matchingLeft, this`matchedPairs, this`isAnswerChecked, this`answers, this`score,
        this`playerScores
      ensures Valid()
      ensures matchedPairs == old(matchedPairs) + [old(matchingLeft).value] && matchingLeft.None?
      ensures if |matchedPairs| == PairCount(Current()) then
                && isAnswerChecked && answers == old(answers[Current().id := Choice(1)])
                && Now() == old(Credited(Now(), MatchingLedger(quiz), currentPlayerIndex, MatchingPoints))
              else
                !isAnswerChecked && answers == old(answers) && Now() == old(Now())
    {
      if |matchedPairs| + 1 == PairCount(Current()) {
        CompleteMatch(item);
      } else {
        PartialMatch(item);
      }
    }

    /** A right-hand click that fits the pending left item, leaving pairs to match. */
    method PartialMatch(item: string)
      requires Valid() && !isAnswerChecked && HoldsLeft() && Fits(item)
      requires |matchedPairs| + 1 != PairCount(Current())
      modifies this`matchingLeft, this`matchedPairs
      ensures Valid()
      ensures matchedPairs == old(matchedPairs) + [old(matchingLeft).value] && matchingLeft.None?
    {
      var left := matchingLeft.value;
      assert left == rightOptionMap[item] && left in rightOptionMap.Values;
      AppendFresh(matchedPairs, left);
      matchedPairs, matchingLeft := matchedPairs + [left], None;
    }

    /** A right-hand click that matches the last pair: the question is
        answered and solved. */
    method CompleteMatch(item: string)
      requires PositionOk() && AnswersOk() && BoardOk()
      requires !isAnswerChecked && HoldsLeft() && Fits(item)
      requires |matchedPairs| + 1 == PairCount(Current())
      modifies this`matchingLeft, this`matchedPairs, this`isAnswerChecked, this`answers, this`score,
        this`playerScores
      ensures PositionOk() && AnswersOk() && BoardOk() && SolvedRecorded()
      ensures matchedPairs == old(matchedPairs) + [old(matchingLeft).value] && matchingLeft.None?
      ensures isAnswerChecked && answers == old(answers[Current().id := Choice(1)])
      ensures Now() == old(Credited(Now(), MatchingLedger(quiz), currentPlayerIndex, MatchingPoints))
    {
      var left := matchingLeft.value;
      assert left == rightOptionMap[item] && left in rightOptionMap.Values;
      AppendFresh(matchedPairs, left);
      var id := Current().id;
      assert id in QuestionIds(quiz.questions);
      var after := Credited(Now(), MatchingLedger(quiz), currentPlayerIndex, MatchingPoints);
      matchedPairs, matchingLeft, isAnswerChecked, answers, score, playerScores :=
        matchedPairs + [left], None, true, answers[id := Choice(1)], after.score, after.playerScores;
    }

    /** handlePowerUp. `pick` is the random order in which the wrong options are
        drawn; the first two are eliminated. */
    method UsePowerUp(kind: PowerUpKind, pick: seq<int>)
      requires Valid()
      requires multiset(pick) == multiset(WrongIndices(Current()))
      modifies this`powerUps, this`eliminatedOptions, this`isFrozen
      ensures Valid()
      ensures powerUps.AtMost(old(powerUps))
      ensures kind == Eliminate && !old(isAnswerChecked || isTimeUp) && old(powerUps.eliminate) > 0
              && Current().qtype == MultipleChoice ==>
        && eliminatedOptions == pick[..Min(EliminateCount, |pick|)]
        && powerUps == old(powerUps).(eliminate := old(powerUps.eliminate) - 1) && isFrozen == old(isFrozen)
      ensures kind == TimeFreeze && !old(isAnswerChecked || isTimeUp) && old(powerUps.timeFreeze) > 0 ==>
        && isFrozen && powerUps == old(powerUps).(timeFreeze := old(powerUps.timeFreeze) - 1)
        && eliminatedOptions == old(eliminatedOptions)
      ensures old(isAnswerChecked || isTimeUp)
              || (kind == Eliminate && (old(powerUps.eliminate) <= 0 || Current().qtype != MultipleChoice))
              || (kind == TimeFreeze && old(powerUps.timeFreeze) <= 0) ==>
        powerUps == old(powerUps) && eliminatedOptions == old(eliminatedOptions) && isFrozen == old(isFrozen)
    {
      if isAnswerChecked || isTimeUp {
        return;
      }
      match kind
      case Eliminate =>
        if powerUps.eliminate <= 0 || Current().qtype != MultipleChoice {
          return;
        }
        var chosen := pick[..Min(EliminateCount, |pick|)];
        forall e | e in chosen
          ensures e in WrongIndices(Current())
        {
          assert e in multiset(pick);
        }
        eliminatedOptions := chosen;
        powerUps := powerUps.(eliminate := powerUps.eliminate - 1);
      case TimeFreeze =>
        if powerUps.timeFreeze <= 0 {
          return;
        }
        isFrozen := true;
        powerUps := powerUps.(timeFreeze := powerUps.timeFreeze - 1);
    }

    // -------------------------------------------------------------------------
    // What every reachable session guarantees

    /** A matching board never holds more matches than the question has pairs. */
    lemma MatchedWithinPairs()
      requires Valid()
      requires MatchingWithPairs(Current())
      ensures |matchedPairs| <= PairCount(Current())
    {
      var ps := Current().pairs.value;
      forall x | x in matchedPairs
        ensures x in Lefts(ps)
      {
        var r :| r in rightOptionMap && rightOptionMap[r] == x;
        assert MatchingPair(x, r) in ps;
      }
      DistinctWithinSet(matchedPairs, Lefts(ps));
      LeftsBound(ps);
    }

    /** The answer the screen reads for the current question. */
    function Recorded(): Option<Answer>
      requires currentQuestionIndex < |quiz.questions|
      reads this`currentQuestionIndex, this`answers
    {
      if Current().id in answers then Some(answers[Current().id]) else None
    }

    /** After a classic skip (answered with -1 in time) the timeout banner is
        off, and the skipped banner is on for a matching question and for an
        unselected choice question; a fill-in question, whose banner looks for
        an empty text, never shows it. */
    lemma BannersAfterSkip()
      requires Valid() && isAnswerChecked && !isTimeUp
      requires Current().id in answers && answers[Current().id] == Choice(-1)
      ensures !ShownTimeout(Current(), isTimeUp, isAnswerChecked, Recorded(), selectedOption)
      ensures ShownSkipped(Current(), isTimeUp, isAnswerChecked, Recorded(), selectedOption) <==>
        Current().qtype == Matching || (Current().qtype != FillInTheBlank && selectedOption.None?)
    {
    }

    /** After a timeout outside a speed run (time up, question answered) the
        skipped banner is off, and the timeout banner is on for an unrecorded
        matching question and an unselected choice question; a fill-in
        question, already marked answered, never shows it. */
    lemma BannersAfterTimeOut()
      requires Valid() && isAnswerChecked && isTimeUp
      ensures !ShownSkipped(Current(), isTimeUp, isAnswerChecked, Recorded(), selectedOption)
      ensures ShownTimeout(Current(), isTimeUp, isAnswerChecked, Recorded(), selectedOption) <==>
        (Current().qtype == Matching && Current().id !in answers)
        || (Current().qtype != Matching && Current().qtype != FillInTheBlank && selectedOption.None?)
    {
    }

    /** The eliminate power-up never removes the correct option of a
        multiple-choice question, so it can still be selected. */
    lemma CorrectNeverEliminated()
      requires Valid()
      requires Current().qtype == MultipleChoice && Current().correctAnswerIndex.Some?
      ensures Current().correctAnswerIndex.value !in eliminatedOptions
    {
      var c := Current().correctAnswerIndex.value;
      assert c !in WrongIndices(Current());
    }
  }
}
