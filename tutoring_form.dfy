/**
 * The student's "new tutoring request" page
 * (app/dashboard/student/tutoring/new/page.tsx): the student-only guard and
 * the submit handler that inserts a pending row into `tutoring_requests`.
 */
module TutoringForm {
  import opened Types
  import opened Backend
  import opened Guards

  const SubjectMissingMsg := "Por favor selecciona una materia"
  const UserNotFoundMsg := "Error: Usuario no encontrado"
  const InsertFailedMsg := "Error al crear la solicitud"

  /** The form fields; an unselected subject is `None`. */
  datatype TutoringFormData = TutoringFormData(subject: Option<SubjectType>, description: string)

  const EmptyTutoringForm := TutoringFormData(None, "")

  /** The row inserted into `tutoring_requests`: it has no tutor and no
      scheduled date column at all. */
  datatype TutoringInsert = TutoringInsert(
    studentId: string,
    subject: SubjectType,
    description: string,
    status: TutoringStatus)

  /** The checks of `handleSubmit` in their order, and the row it inserts. */
  function ValidateTutoringRequest(form: TutoringFormData, userId: Option<string>): (r: Result<TutoringInsert>)
    ensures form.subject.None? ==> r == Err(SubjectMissingMsg)
    ensures form.subject.Some? && userId.None? ==> r == Err(UserNotFoundMsg)
    ensures r.Ok? <==> form.subject.Some? && userId.Some?
    ensures r.Ok? ==>
      && r.value.status == Pending
      && r.value.studentId == userId.value
      && r.value.subject == form.subject.value
      && r.value.description == form.description
  {
    if form.subject.None? then Err(SubjectMissingMsg)
    else if userId.None? then Err(UserNotFoundMsg)
    else Ok(TutoringInsert(userId.value, form.subject.value, form.description, Pending))
  }

  /** An empty description is accepted. */
  lemma DescriptionNotChecked(form: TutoringFormData, userId: Option<string>, description: string)
    ensures ValidateTutoringRequest(form.(description := description), userId).Ok?
        == ValidateTutoringRequest(form, userId).Ok?
  {
  }

  /** The request as stored: the table assigns the id and both timestamps,
      and the columns the insert leaves out stay empty. */
  function StoredRequest(row: TutoringInsert, id: string, now: int): (r: TutoringRequest)
    ensures r.id == id && r.studentId == row.studentId && r.subject == row.subject
    ensures r.description == row.description && r.status == row.status
    ensures r.tutorId.None? && r.scheduledDate.None?
    ensures r.createdAt == now && r.updatedAt == now
  {
    TutoringRequest(id, row.studentId, None, row.subject, row.description, row.status, None, now, now)
  }

  class NewTutoringRequestPage {
    var form: TutoringFormData
    var error: Option<string>
    var isLoading: bool
    var userId: Option<string>
    var userName: string

    constructor ()
      ensures form == EmptyTutoringForm && error == None && !isLoading
      ensures userId == None && userName == ""
    {
      form := EmptyTutoringForm;
      error := None;
      isLoading := false;
      userId := None;
      userName := "";
    }

    /** `checkUser`: only a student's profile fills in the user. */
    method CheckUser(user: Option<User>, profiles: ProfileTable) returns (nav: Option<Route>)
      modifies this`userId, this`userName
      ensures match PageGuard(user, profiles, Student)
        case Pass(p) => nav == None && userId == Some(user.value.id) && userName == p.fullName
        case Redirect(to) => nav == Some(to) && userId == old(userId) && userName == old(userName)
    {
      if user.None? {
        return Some(Login);
      }
      var profile := LookupProfile(profiles, user.value.id);
      if profile.None? || profile.value.role != Student {
        return Some(CompleteProfile);
      }
      userId := Some(user.value.id);
      userName := profile.value.fullName;
      nav := None;
    }

    /** `handleSubmit`; `insertFailure` is what the insert throws, if anything. */
    method HandleSubmit(insertFailure: Option<Thrown>) returns (inserted: Option<TutoringInsert>, nav: Option<Route>)
      modifies this`error, this`isLoading
      ensures !isLoading
      ensures match ValidateTutoringRequest(form, userId)
        case Err(m) => inserted == None && nav == None && error == Some(m)
        case Ok(row) =>
          && inserted == Some(row)
          && (insertFailure.None? ==> nav == Some(StudentTutoring) && error == None)
          && (insertFailure.Some? ==> nav == None && error == Some(CaughtMessage(insertFailure.value, InsertFailedMsg)))
    {
      isLoading := true;
      error := None;
      inserted, nav := None, None;

      if form.subject.None? {
        error := Some(SubjectMissingMsg);
        isLoading := false;
        return;
      }

      if userId.None? {
        error := Some(UserNotFoundMsg);
        isLoading := false;
        return;
      }

      inserted := Some(TutoringInsert(userId.value, form.subject.value, form.description, Pending));
      if insertFailure.Some? {
        error := Some(CaughtMessage(insertFailure.value, InsertFailedMsg));
      } else {
        nav := Some(StudentTutoring);
      }
      isLoading := false;
    }
  }
}
