/**
 * The tutor's "new content" page (app/dashboard/tutor/content/new/page.tsx):
 * the tutor-only guard and the submit handler that inserts a row into
 * `educational_content`.
 */
module ContentForm {
  import opened Types
  import opened Backend
  import opened Guards

  const FieldsRequiredMsg := "Por favor completa todos los campos requeridos"
  const UserNotFoundMsg := "Error: Usuario no encontrado"
  const InsertFailedMsg := "Error al crear el contenido"

  /** The form fields; an unselected subject or level is `None`. */
  datatype ContentFormData = ContentFormData(
    title: string,
    description: string,
    content: string,
    subject: Option<SubjectType>,
    educationLevel: Option<EducationLevel>)

  const EmptyContentForm := ContentFormData("", "", "", None, None)

  /** The row inserted into `educational_content`. */
  datatype ContentRow = ContentRow(
    title: string,
    description: string,
    content: string,
    subject: SubjectType,
    educationLevel: EducationLevel,
    createdBy: string)

  /** The checks of `handleSubmit` in their order, and the row it inserts:
      the subject and level first, the user second, nothing else. */
  function ValidateContent(form: ContentFormData, userId: Option<string>): (r: Result<ContentRow>)
    ensures form.subject.None? || form.educationLevel.None? ==> r == Err(FieldsRequiredMsg)
    ensures form.subject.Some? && form.educationLevel.Some? && userId.None? ==> r == Err(UserNotFoundMsg)
    ensures r.Ok? <==> form.subject.Some? && form.educationLevel.Some? && userId.Some?
    ensures r.Ok? ==>
      && r.value.title == form.title && r.value.description == form.description
      && r.value.content == form.content && r.value.subject == form.subject.value
      && r.value.educationLevel == form.educationLevel.value && r.value.createdBy == userId.value
  {
    if form.subject.None? || form.educationLevel.None? then Err(FieldsRequiredMsg)
    else if userId.None? then Err(UserNotFoundMsg)
    else Ok(ContentRow(form.title, form.description, form.content, form.subject.value,
                       form.educationLevel.value, userId.value))
  }

  /** An empty title, description or body is not rejected by the handler:
      whether the submit passes does not depend on them. */
  lemma TextFieldsNotChecked(form: ContentFormData, userId: Option<string>, title: string, description: string, content: string)
    ensures ValidateContent(form.(title := title, description := description, content := content), userId).Ok?
        == ValidateContent(form, userId).Ok?
  {
  }

  /** The content as stored: the table assigns the id and both timestamps. */
  function StoredContent(row: ContentRow, id: string, now: int): (c: EducationalContent)
    ensures c.id == id && c.subject == row.subject && c.title == row.title
    ensures c.description == Some(row.description) && c.content == row.content
    ensures c.educationLevel == row.educationLevel && c.createdBy == Some(row.createdBy)
    ensures c.createdAt == now && c.updatedAt == now
  {
    EducationalContent(id, row.subject, row.title, Some(row.description), row.content, row.educationLevel,
                       Some(row.createdBy), now, now)
  }

  class NewContentPage {
    var form: ContentFormData
    var error: Option<string>
    var isLoading: bool
    var userId: Option<string>
    var userName: string

    constructor ()
      ensures form == EmptyContentForm && error == None && !isLoading
      ensures userId == None && userName == ""
    {
      form := EmptyContentForm;
      error := None;
      isLoading := false;
      userId := None;
      userName := "";
    }

    /** `checkUser`: only a tutor's profile fills in the user. */
    method CheckUser(user: Option<User>, profiles: ProfileTable) returns (nav: Option<Route>)
      modifies this`userId, this`userName
      ensures match PageGuard(user, profiles, Tutor)
        case Pass(p) => nav == None && userId == Some(user.value.id) && userName == p.fullName
        case Redirect(to) => nav == Some(to) && userId == old(userId) && userName == old(userName)
    {
      if user.None? {
        return Some(Login);
      }
      var profile := LookupProfile(profiles, user.value.id);
      if profile.None? || profile.value.role != Tutor {
        return Some(CompleteProfile);
      }
      userId := Some(user.value.id);
      userName := profile.value.fullName;
      nav := None;
    }

    /** `handleSubmit`; `insertFailure` is what the insert throws, if anything. */
    method HandleSubmit(insertFailure: Option<Thrown>) returns (inserted: Option<ContentRow>, nav: Option<Route>)
      modifies this`error, this`isLoading
      ensures !isLoading
      ensures match ValidateContent(form, userId)
        case Err(m) => inserted == None && nav == None && error == Some(m)
        case Ok(row) =>
          && inserted == Some(row)
          && (insertFailure.None? ==> nav == Some(TutorContent) && error == None)
          && (insertFailure.Some? ==> nav == None && error == Some(CaughtMessage(insertFailure.value, InsertFailedMsg)))
    {
      isLoading := true;
      error := None;
      inserted, nav := None, None;

      if form.subject.None? || form.educationLevel.None? {
        error := Some(FieldsRequiredMsg);
        isLoading := false;
        return;
      }

      if userId.None? {
        error := Some(UserNotFoundMsg);
        isLoading := false;
        return;
      }

      inserted := Some(ContentRow(form.title, form.description, form.content, form.subject.value,
                                  form.educationLevel.value, userId.value));
      if insertFailure.Some? {
        error := Some(CaughtMessage(insertFailure.value, InsertFailedMsg));
      } else {
        nav := Some(TutorContent);
      }
      isLoading := false;
    }
  }
}
