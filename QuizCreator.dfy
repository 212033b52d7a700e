/** The quiz creator: a hand-written list of multiple-choice questions, its
    editing handlers, and the validation that turns it into a playable quiz. */
module QuizCreator {
  import opened Types
  import opened Strings

  const HeaderMissing := "Por favor, preencha o título e o tópico do quiz."
  const TextMissing := "Todas as perguntas devem ter um enunciado."
  const OptionMissing := "Todas as opções de resposta devem ser preenchidas."

  /** A new question: multiple choice, four empty options, the first one correct. */
  function BlankQuestion(id: int): (q: Question)
    ensures q.id == id && q.qtype == MultipleChoice && q.text == "" && q.explanation == ""
    ensures |q.options| == 4 && forall k :: 0 <= k < 4 ==> q.options[k] == ""
    ensures q.correctAnswerIndex == Some(0) && q.pairs.None? && q.essayRubric.None?
  {
    Question(id, MultipleChoice, "", ["", "", "", ""], Some(0), None, "", None)
  }

  // ---------------------------------------------------------------------------
  // Question ids

  predicate UniqueIds(qs: seq<Question>) {
    forall i, j :: 0 <= i < j < |qs| ==> qs[i].id != qs[j].id
  }

  /** Adding a question as written: its id is the list length plus one. */
  function AddedAsWritten(qs: seq<Question>): (r: seq<Question>)
    ensures |r| == |qs| + 1 && r[..|qs|] == qs && r[|qs|] == BlankQuestion(|qs| + 1)
  {
    qs + [BlankQuestion(|qs| + 1)]
  }

  /** Start with questions 1 and 2, remove the first, add one: the new
      question gets id 2 again, so two questions share an id (and so share a
      slot in the answer map). */
  lemma DuplicateIdAfterRemoval()
    ensures var left := Removed([BlankQuestion(1), BlankQuestion(2)], 0);
            left == [BlankQuestion(2)] && !UniqueIds(AddedAsWritten(left))
  {
    var start := [BlankQuestion(1), BlankQuestion(2)];
    RemovedIsSplice(start, 0);
    var left := Removed(start, 0);
    assert left == [BlankQuestion(2)];
    var after := AddedAsWritten(left);
    assert after[0].id == 2 && after[1].id == 2;
  }

  function MaxId(qs: seq<Question>): (m: int)
    ensures forall k :: 0 <= k < |qs| ==> qs[k].id <= m
    ensures qs == [] ==> m == 0
  {
    if qs == [] then 0
    else
      var rest := MaxId(qs[..|qs| - 1]);
      var last := qs[|qs| - 1].id;
      if rest < last then last else rest
  }

  /** An id no question in the list has. */
  function FreshId(qs: seq<Question>): (id: int)
    ensures forall k :: 0 <= k < |qs| ==> qs[k].id != id
    ensures qs == [] ==> id == 1
  {
    MaxId(qs) + 1
  }

  /** Adding with a fresh id keeps the ids unique. */
  lemma AddKeepsIdsUnique(qs: seq<Question>)
    requires UniqueIds(qs)
    ensures UniqueIds(qs + [BlankQuestion(FreshId(qs))])
  {
  }

  // ---------------------------------------------------------------------------
  // Removal

  /** `filter((_, i) => i !== index)`: every question except the one at `index`. */
  function Removed(qs: seq<Question>, index: int): (r: seq<Question>)
    ensures |r| <= |qs|
    ensures forall x :: x in r ==> x in qs
  {
    if qs == [] then []
    else
      var init := Removed(qs[..|qs| - 1], index);
      if |qs| - 1 == index then init else init + [qs[|qs| - 1]]
  }

  /** Removing an index in range splices it out; any other index keeps the list. */
  lemma {:induction false} RemovedIsSplice(qs: seq<Question>, index: int)
    ensures 0 <= index < |qs| ==> Removed(qs, index) == qs[..index] + qs[index + 1..]
    ensures !(0 <= index < |qs|) ==> Removed(qs, index) == qs
  {
    if qs != [] {
      var n := |qs| - 1;
      var init := qs[..n];
      RemovedIsSplice(init, index);
      if 0 <= index < n {
        assert init[..index] == qs[..index];
        assert init[index + 1..] + [qs[n]] == qs[index + 1..];
      } else if index == n {
        assert qs[index + 1..] == [];
      } else {
        assert init + [qs[n]] == qs;
      }
    }
  }

  /** Removing keeps ids unique. */
  lemma RemovedKeepsIdsUnique(qs: seq<Question>, index: int)
    requires UniqueIds(qs)
    ensures UniqueIds(Removed(qs, index))
  {
    RemovedIsSplice(qs, index);
    if 0 <= index < |qs| {
      var r := Removed(qs, index);
      forall i, j | 0 <= i < j < |r|
        ensures r[i].id != r[j].id
      {
        var i' := if i < index then i else i + 1;
        var j' := if j < index then j else j + 1;
        assert r[i] == qs[i'] && r[j] == qs[j'];
      }
    }
  }

  // ---------------------------------------------------------------------------
  // Editing

  /** The question fields the editor changes. */
  datatype Edit = SetText(text: string) | SetCorrectIndex(index: int) | SetExplanation(explanation: string)

  function Apply(q: Question, e: Edit): (r: Question)
    ensures r.id == q.id && r.qtype == q.qtype && r.options == q.options
    ensures r.pairs == q.pairs && r.essayRubric == q.essayRubric
    ensures r.text == (if e.SetText? then e.text else q.text)
    ensures r.correctAnswerIndex == (if e.SetCorrectIndex? then Some(e.index) else q.correctAnswerIndex)
    ensures r.explanation == (if e.SetExplanation? then e.explanation else q.explanation)
  {
    match e
    case SetText(t) => q.(text := t)
    case SetCorrectIndex(i) => q.(correctAnswerIndex := Some(i))
    case SetExplanation(x) => q.(explanation := x)
  }

  // ---------------------------------------------------------------------------
  // Validation

  predicate HasBlankOption(q: Question) {
    exists k :: 0 <= k < |q.options| && Blank(q.options[k])
  }

  /** The first validation message the question list deserves, in list order. */
  function FirstProblem(qs: seq<Question>): (m: Option<string>)
    ensures m.None? || m.value in {TextMissing, OptionMissing}
  {
    if qs == [] then None
    else if Blank(qs[0].text) then Some(TextMissing)
    else if HasBlankOption(qs[0]) then Some(OptionMissing)
    else FirstProblem(qs[1..])
  }

  /** A question is complete when its text and every option are non-blank. */
  predicate Complete(q: Question) {
    !Blank(q.text) && forall k :: 0 <= k < |q.options| ==> !Blank(q.options[k])
  }

  /** The list passes exactly when every question is complete. */
  lemma {:induction false} FirstProblemNoneIff(qs: seq<Question>)
    ensures FirstProblem(qs).None? <==> forall k :: 0 <= k < |qs| ==> Complete(qs[k])
  {
    if qs != [] {
      FirstProblemNoneIff(qs[1..]);
      assert forall k :: 1 <= k < |qs| ==> qs[k] == qs[1..][k - 1];
    }
  }

  /** The quiz a successful save hands over: classic, light, single player. */
  function CreatedQuiz(title: string, topic: string, difficulty: Difficulty, qs: seq<Question>): (d: QuizData)
    ensures d.title == title && d.topic == topic && d.difficulty == difficulty && d.questions == qs
    ensures d.theme == Light && !d.isTvMode && d.gameMode == Classic && !d.isMultiplayer && !d.isStoryMode
    ensures d.playerNames.None? && d.arcadeMap.None? && d.storyNarrative.None?
  {
    QuizData(title, topic, difficulty, qs, Light, false, Classic, false, false, None, None, None)
  }

  class Creator {
    var title: string
    var topic: string
    var difficulty: Difficulty
    var questions: seq<Question>

    /** At least one question, and no two with the same id. */
    ghost predicate Valid()
      reads this
    {
      |questions| >= 1 && UniqueIds(questions)
    }

    constructor ()
      ensures Valid()
      ensures title == "" && topic == "" && difficulty == Medium && questions == [BlankQuestion(1)]
    {
      title := "";
      topic := "";
      difficulty := Medium;
      questions := [BlankQuestion(1)];
    }

    /** handleAddQuestion, with a fresh id (see `AddedAsWritten` for the id
        the source assigns). */
    method AddQuestion()
      requires Valid()
      modifies this`questions
      ensures Valid()
      ensures questions == old(questions) + [BlankQuestion(FreshId(old(questions)))]
    {
      AddKeepsIdsUnique(questions);
      questions := questions + [BlankQuestion(FreshId(questions))];
    }

    /** handleRemoveQuestion: the last remaining question cannot be removed. */
    method RemoveQuestion(index: int)
      requires Valid()
      modifies this`questions
      ensures Valid()
      ensures |old(questions)| > 1 ==> questions == Removed(old(questions), index)
      ensures |old(questions)| <= 1 ==> questions == old(questions)
    {
      if |questions| > 1 {
        RemovedIsSplice(questions, index);
        RemovedKeepsIdsUnique(questions, index);
        if 0 <= index < |questions| {
          questions := questions[..index] + questions[index + 1..];
        }
      }
    }

    /** handleQuestionChange for the question at `index`. */
    method ChangeQuestion(index: nat, edit: Edit)
      requires Valid() && index < |questions|
      modifies this`questions
      ensures Valid()
      ensures questions == old(questions)[index := Apply(old(questions)[index], edit)]
    {
      questions := questions[index := Apply(questions[index], edit)];
    }

    /** handleOptionChange for option `optionIndex` of question `questionIndex`. */
    method ChangeOption(questionIndex: nat, optionIndex: nat, value: string)
      requires Valid() && questionIndex < |questions| && optionIndex < |questions[questionIndex].options|
      modifies this`questions
      ensures Valid()
      ensures |questions| == |old(questions)|
      ensures forall k :: 0 <= k < |questions| && k != questionIndex ==> questions[k] == old(questions)[k]
      ensures var q := old(questions)[questionIndex];
              questions[questionIndex] == q.(options := q.options[optionIndex := value])
    {
      var q := questions[questionIndex];
      questions := questions[questionIndex := q.(options := q.options[optionIndex := value])];
    }

    /** handleSave: the quiz to play, or the first validation message. */
    method Save() returns (r: Result<QuizData, string>)
      ensures Blank(title) || Blank(topic) ==> r == Err(HeaderMissing)
      ensures !Blank(title) && !Blank(topic) && FirstProblem(questions).Some? ==>
        r == Err(FirstProblem(questions).value)
      ensures !Blank(title) && !Blank(topic) && FirstProblem(questions).None? ==>
        r == Ok(CreatedQuiz(title, topic, difficulty, questions))
    {
      if Trim(title) == "" || Trim(topic) == "" {
        return Err(HeaderMissing);
      }
      var i := 0;
      while i < |questions|
        invariant 0 <= i <= |questions|
        invariant FirstProblem(questions) == FirstProblem(questions[i..])
      {
        var q := questions[i];
        assert questions[i..][0] == q && questions[i..][1..] == questions[i + 1..];
        if Trim(q.text) == "" {
          return Err(TextMissing);
        }
        if HasBlankOption(q) {
          return Err(OptionMissing);
        }
        i := i + 1;
      }
      return Ok(CreatedQuiz(title, topic, difficulty, questions));
    }
  }

  /** A saved quiz has questions, all of them complete. */
  lemma SavedQuizIsPlayable(c: Creator, d: QuizData)
    requires c.Valid()
    requires FirstProblem(c.questions).None?
    requires d == CreatedQuiz(c.title, c.topic, c.difficulty, c.questions)
    ensures |d.questions| >= 1 && UniqueIds(d.questions)
    ensures forall k :: 0 <= k < |d.questions| ==> Complete(d.questions[k])
  {
    FirstProblemNoneIff(c.questions);
  }
}
