/**
 * The tutor's "new evaluation" page (app/dashboard/tutor/evaluations/new/page.tsx):
 * an editable list of questions, the guard that fills in the user, and the
 * submit handler that validates the form before inserting the evaluation.
 */
module EvaluationEditor {
  import opened Types
  import opened Backend
  import opened Guards

  // ---------------------------------------------------------------------
  // The question list as a value
  // ---------------------------------------------------------------------

  /** The question the list starts with and `addQuestion` appends: no text,
      four empty options, the first option marked correct. */
  function DefaultQuestion(): (q: Question)
    ensures q.question == "" && |q.options| == 4 && q.correct == 0
    ensures forall o :: o in q.options ==> o == ""
  {
    Question("", ["", "", "", ""], 0)
  }

  /** The shape every question keeps under the page's own edits: four options
      and a correct index that names one of them. */
  ghost predicate Shaped(qs: seq<Question>)
  {
    forall i :: 0 <= i < |qs| ==> |qs[i].options| == 4 && 0 <= qs[i].correct < |qs[i].options|
  }

  /** `[...questions, default]`. */
  function WithQuestionAdded(qs: seq<Question>): (r: seq<Question>)
    ensures |r| == |qs| + 1
    ensures r[..|qs|] == qs
    ensures r[|qs|] == DefaultQuestion()
  {
    qs + [DefaultQuestion()]
  }

  /** `qs.filter((_, i) => i !== index)`, walking the positions from the end
      so that each element keeps its own index. */
  function DropPosition(qs: seq<Question>, index: int): (r: seq<Question>)
    ensures 0 <= index < |qs| ==> r == qs[..index] + qs[index + 1..]
    ensures !(0 <= index < |qs|) ==> r == qs
  {
    if qs == [] then []
    else
      var last := |qs| - 1;
      var front := DropPosition(qs[..last], index);
      assert qs == qs[..last] + [qs[last]];
      if last == index then
        assert qs[index + 1..] == [];
        front
      else
        assert 0 <= index < last ==>
          qs[..last][..index] == qs[..index] && qs[..last][index + 1..] + [qs[last]] == qs[index + 1..];
        front + [qs[last]]
  }

  /** `removeQuestion(index)`: only a list of more than one question loses the
      question at `index`. */
  function WithoutQuestion(qs: seq<Question>, index: int): (r: seq<Question>)
    ensures |qs| <= 1 ==> r == qs
    ensures |qs| > 1 && 0 <= index < |qs| ==> r == qs[..index] + qs[index + 1..]
    ensures !(0 <= index < |qs|) ==> r == qs
    ensures |qs| >= 1 ==> |r| >= 1
  {
    if |qs| > 1 then DropPosition(qs, index) else qs
  }

  /** The field `updateQuestion` writes, with its new value. */
  datatype QuestionEdit =
    | SetQuestion(text: string)
    | SetOptions(options: seq<string>)
    | SetCorrect(index: int)

  /** `{ ...q, [field]: value }`. */
  function Edited(q: Question, e: QuestionEdit): Question
  {
    match e
    case SetQuestion(t) => q.(question := t)
    case SetOptions(o) => q.(options := o)
    case SetCorrect(k) => q.(correct := k)
  }

  /** `updateQuestion(index, field, value)` on an existing question. */
  function WithQuestionEdited(qs: seq<Question>, index: int, e: QuestionEdit): (r: seq<Question>)
    requires 0 <= index < |qs|
    ensures |r| == |qs|
    ensures forall j :: 0 <= j < |qs| && j != index ==> r[j] == qs[j]
    ensures r[index].question == (if e.SetQuestion? then e.text else qs[index].question)
    ensures r[index].options == (if e.SetOptions? then e.options else qs[index].options)
    ensures r[index].correct == (if e.SetCorrect? then e.index else qs[index].correct)
  {
    qs[index := Edited(qs[index], e)]
  }

  /** `updateOption(questionIndex, optionIndex, value)` on an existing option. */
  function WithOptionEdited(qs: seq<Question>, qi: int, oi: int, v: string): (r: seq<Question>)
    requires 0 <= qi < |qs| && 0 <= oi < |qs[qi].options|
    ensures |r| == |qs|
    ensures forall j :: 0 <= j < |qs| && j != qi ==> r[j] == qs[j]
    ensures r[qi].question == qs[qi].question && r[qi].correct == qs[qi].correct
    ensures |r[qi].options| == |qs[qi].options| && r[qi].options[oi] == v
    ensures forall k :: 0 <= k < |qs[qi].options| && k != oi ==> r[qi].options[k] == qs[qi].options[k]
  {
    var q := qs[qi];
    qs[qi := q.(options := q.options[oi := v])]
  }

  /** The edits the page itself issues: the question's text input, and the
      radio button of an existing option. */
  predicate PageEdit(q: Question, e: QuestionEdit)
  {
    e.SetQuestion? || (e.SetCorrect? && 0 <= e.index < |q.options|)
  }

  /** Removing the question just added gives back the list it was added to. */
  lemma RemoveUndoesAdd(qs: seq<Question>)
    requires |qs| >= 1
    ensures WithoutQuestion(WithQuestionAdded(qs), |qs|) == qs
  {
  }

  /** The starting list is shaped, and every edit the page issues keeps the
      list shaped: no operation changes how many options a question has, so
      the marked option always exists. */
  lemma EditsKeepShape(qs: seq<Question>, index: int, e: QuestionEdit, qi: int, oi: int, v: string)
    requires Shaped(qs)
    ensures Shaped([DefaultQuestion()])
    ensures Shaped(WithQuestionAdded(qs))
    ensures Shaped(WithoutQuestion(qs, index))
    ensures 0 <= index < |qs| && PageEdit(qs[index], e) ==> Shaped(WithQuestionEdited(qs, index, e))
    ensures 0 <= qi < |qs| && 0 <= oi < |qs[qi].options| ==> Shaped(WithOptionEdited(qs, qi, oi, v))
  {
    AddKeepsShape(qs);
    RemoveKeepsShape(qs, index);
    if 0 <= index < |qs| && PageEdit(qs[index], e) {
      QuestionEditKeepsShape(qs, index, e);
    }
    if 0 <= qi < |qs| && 0 <= oi < |qs[qi].options| {
      OptionEditKeepsShape(qs, qi, oi, v);
    }
  }

  lemma AddKeepsShape(qs: seq<Question>)
    requires Shaped(qs)
    ensures Shaped(WithQuestionAdded(qs))
  {
    var added := WithQuestionAdded(qs);
    assert forall i :: 0 <= i < |qs| ==> added[i] == qs[i];
  }

  lemma RemoveKeepsShape(qs: seq<Question>, index: int)
    requires Shaped(qs)
    ensures Shaped(WithoutQuestion(qs, index))
  {
    if |qs| > 1 && 0 <= index < |qs| {
      var r := WithoutQuestion(qs, index);
      assert r == qs[..index] + qs[index + 1..];
      assert forall i :: 0 <= i < index ==> r[i] == qs[i];
      assert forall i :: index <= i < |r| ==> r[i] == qs[i + 1];
    }
  }

  lemma QuestionEditKeepsShape(qs: seq<Question>, index: int, e: QuestionEdit)
    requires Shaped(qs) && 0 <= index < |qs| && PageEdit(qs[index], e)
    ensures Shaped(WithQuestionEdited(qs, index, e))
  {
  }

  lemma OptionEditKeepsShape(qs: seq<Question>, qi: int, oi: int, v: string)
    requires Shaped(qs) && 0 <= qi < |qs| && 0 <= oi < |qs[qi].options|
    ensures Shaped(WithOptionEdited(qs, qi, oi, v))
  {
  }

  // ---------------------------------------------------------------------
  // Submission
  // ---------------------------------------------------------------------

  const FieldsRequiredMsg := "Por favor completa todos los campos requeridos"
  const QuestionsIncompleteMsg := "Por favor completa todas las preguntas y opciones"
  const UserNotFoundMsg := "Error: Usuario no encontrado"
  const InsertFailedMsg := "Error al crear la evaluación"

  /** The form fields; an unselected subject or level is `None`. */
  datatype EvaluationForm = EvaluationForm(
    title: string,
    description: string,
    subject: Option<SubjectType>,
    educationLevel: Option<EducationLevel>)

  const EmptyEvaluationForm := EvaluationForm("", "", None, None)

  /** The row inserted into `evaluations`. */
  datatype EvaluationRow = EvaluationRow(
    title: string,
    description: string,
    subject: SubjectType,
    educationLevel: EducationLevel,
    questions: seq<Question>,
    createdBy: string)

  /** A question passes the check when its text and every option are non-empty. */
  predicate QuestionFilled(q: Question): (b: bool)
    ensures b <==> q.question != "" && "" !in q.options
  {
    q.question != "" && forall k :: 0 <= k < |q.options| ==> q.options[k] != ""
  }

  /** Every question passes; the empty list passes vacuously. */
  predicate AllFilled(qs: seq<Question>): (b: bool)
    ensures b <==> forall q :: q in qs ==> QuestionFilled(q)
  {
    forall i :: 0 <= i < |qs| ==> QuestionFilled(qs[i])
  }

  /** The checks of `handleSubmit` in their order, and the row it inserts. */
  function ValidateEvaluation(form: EvaluationForm, qs: seq<Question>, userId: Option<string>): (r: Result<EvaluationRow>)
    ensures form.subject.None? || form.educationLevel.None? ==> r == Err(FieldsRequiredMsg)
    ensures form.subject.Some? && form.educationLevel.Some? && !AllFilled(qs) ==> r == Err(QuestionsIncompleteMsg)
    ensures r.Ok? <==> form.subject.Some? && form.educationLevel.Some? && AllFilled(qs) && userId.Some?
    ensures form.subject.Some? && form.educationLevel.Some? && AllFilled(qs) && userId.None? ==> r == Err(UserNotFoundMsg)
    ensures r.Ok? ==> r.value == EvaluationRow(form.title, form.description, form.subject.value,
                                              form.educationLevel.value, qs, userId.value)
  {
    if form.subject.None? || form.educationLevel.None? then Err(FieldsRequiredMsg)
    else if !AllFilled(qs) then Err(QuestionsIncompleteMsg)
    else if userId.None? then Err(UserNotFoundMsg)
    else Ok(EvaluationRow(form.title, form.description, form.subject.value, form.educationLevel.value, qs, userId.value))
  }

  /** The question loop of `handleSubmit`: stops at the first question with an
      empty text or an empty option. */
  method CheckQuestions(qs: seq<Question>) returns (ok: bool)
    ensures ok <==> AllFilled(qs)
  {
    for i := 0 to |qs|
      invariant forall j :: 0 <= j < i ==> QuestionFilled(qs[j])
    {
      var q := qs[i];
      var emptyOption := exists k :: 0 <= k < |q.options| && q.options[k] == "";
      if q.question == "" || emptyOption {
        return false;
      }
    }
    return true;
  }

  /** The title and the description are never checked: a form that passes
      keeps passing whatever they are. */
  lemma TitleNotRequired(form: EvaluationForm, qs: seq<Question>, userId: Option<string>, title: string, description: string)
    ensures ValidateEvaluation(form.(title := title, description := description), qs, userId).Ok?
        == ValidateEvaluation(form, qs, userId).Ok?
  {
  }

  /** A question just added has no text yet, so a submit right after
      `addQuestion` always stops at the question check. */
  lemma AddedQuestionMustBeFilled(qs: seq<Question>)
    ensures !AllFilled(WithQuestionAdded(qs))
  {
    var r := WithQuestionAdded(qs);
    assert !QuestionFilled(r[|qs|]);
  }

  // ---------------------------------------------------------------------
  // The page state
  // ---------------------------------------------------------------------

  class NewEvaluationPage {
    var form: EvaluationForm
    var questions: seq<Question>
    var error: Option<string>
    var isLoading: bool
    var userId: Option<string>
    var userName: string

    /** The list is never empty, and every question has four options with
        the correct one among them. */
    ghost predicate Valid()
      reads this
    {
      |questions| >= 1 && Shaped(questions)
    }

    constructor ()
      ensures Valid()
      ensures questions == [DefaultQuestion()]
      ensures form == EmptyEvaluationForm && error == None && !isLoading
      ensures userId == None && userName == ""
    {
      form := EmptyEvaluationForm;
      questions := [DefaultQuestion()];
      error := None;
      isLoading := false;
      userId := None;
      userName := "";
    }

    /** `checkUser`: only a tutor's profile fills in the user. */
    method CheckUser(user: Option<User>, profiles: ProfileTable) returns (nav: Option<Route>)
      modifies this`userId, this`userName
      ensures match PageGuard(user, profiles, Tutor)
        case Pass(p) => nav == None && userId == Some(user.value.id) && userName == p.fullName
        case Redirect(to) => nav == Some(to) && userId == old(userId) && userName == old(userName)
    {
      if user.None? {
        return Some(Login);
      }
      var profile := LookupProfile(profiles, user.value.id);
      if profile.None? || profile.value.role != Tutor {
        return Some(CompleteProfile);
      }
      userId := Some(user.value.id);
      userName := profile.value.fullName;
      nav := None;
    }

    method AddQuestion()
      requires Valid()
      modifies this`questions
      ensures Valid()
      ensures questions == WithQuestionAdded(old(questions))
    {
      AddKeepsShape(questions);
      questions := WithQuestionAdded(questions);
    }

    method RemoveQuestion(index: int)
      requires Valid()
      modifies this`questions
      ensures Valid()
      ensures questions == WithoutQuestion(old(questions), index)
    {
      RemoveKeepsShape(questions, index);
      if |questions| > 1 {
        questions := DropPosition(questions, index);
      }
    }

    /** An edit the page issues on a question it shows: its text, or the
        radio button of one of its options. */
    method UpdateQuestion(index: int, e: QuestionEdit)
      requires Valid() && 0 <= index < |questions| && PageEdit(questions[index], e)
      modifies this`questions
      ensures Valid()
      ensures questions == WithQuestionEdited(old(questions), index, e)
    {
      QuestionEditKeepsShape(questions, index, e);
      questions := WithQuestionEdited(questions, index, e);
    }

    method UpdateOption(qi: int, oi: int, v: string)
      requires Valid() && 0 <= qi < |questions| && 0 <= oi < |questions[qi].options|
      modifies this`questions
      ensures Valid()
      ensures questions == WithOptionEdited(old(questions), qi, oi, v)
    {
      OptionEditKeepsShape(questions, qi, oi, v);
      var newOptions := questions[qi].options[oi := v];
      questions := questions[qi := questions[qi].(options := newOptions)];
    }

    /** `handleSubmit`: the checks in order, each failure showing its message
        and inserting nothing; on success the insert of the edited list,
        whose failure is `insertFailure`. */
    method HandleSubmit(insertFailure: Option<Thrown>) returns (inserted: Option<EvaluationRow>, nav: Option<Route>)
      modifies this`error, this`isLoading
      ensures !isLoading
      ensures match ValidateEvaluation(form, questions, userId)
        case Err(m) => inserted == None && nav == None && error == Some(m)
        case Ok(row) =>
          && inserted == Some(row)
          && (insertFailure.None? ==> nav == Some(TutorEvaluations) && error == None)
          && (insertFailure.Some? ==> nav == None && error == Some(CaughtMessage(insertFailure.value, InsertFailedMsg)))
    {
      isLoading := true;
      error := None;
      inserted, nav := None, None;

      if form.subject.None? || form.educationLevel.None? {
        error := Some(FieldsRequiredMsg);
        isLoading := false;
        return;
      }

      var filled := CheckQuestions(questions);
      if !filled {
        error := Some(QuestionsIncompleteMsg);
        isLoading := false;
        return;
      }

      if userId.None? {
        error := Some(UserNotFoundMsg);
        isLoading := false;
        return;
      }

      inserted := Some(EvaluationRow(form.title, form.description, form.subject.value,
                                     form.educationLevel.value, questions, userId.value));
      if insertFailure.Some? {
        error := Some(CaughtMessage(insertFailure.value, InsertFailedMsg));
      } else {
        nav := Some(TutorEvaluations);
      }
      isLoading := false;
    }
  }
}
