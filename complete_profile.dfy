/**
 * The profile-completion page (app/auth/complete-profile/page.tsx): where a
 * signed-in user without a profile row creates one, and which sends a user
 * who already has a profile on to that profile's dashboard.
 */
module CompleteProfile {
  import opened Types
  import opened Backend
  import opened Guards
  import Numbers

  const RoleMissingMsg := "Por favor selecciona un tipo de usuario"
  const UserNotFoundMsg := "Error: Usuario no encontrado"
  const InsertFailedMsg := "Error al completar el perfil"

  /** What `checkUser` decides: no user goes to the login page, a user whose
      profile exists goes to that role's dashboard, anyone else stays. */
  function CompleteProfileEntry(user: Option<User>, profiles: ProfileTable): (nav: Option<Route>)
    ensures user.None? ==> nav == Some(Login)
    ensures user.Some? ==> (nav.Some? <==> user.value.id in profiles)
    ensures user.Some? && user.value.id in profiles ==> nav == Some(RoleHome(profiles[user.value.id].role))
  {
    match user
    case None => Some(Login)
    case Some(u) =>
      match LookupProfile(profiles, u.id)
      case None => None
      case Some(p) => Some(RoleHome(p.role))
  }

  /** The form fields as typed; an unselected role or level is `None`. */
  datatype ProfileFormData = ProfileFormData(
    fullName: string,
    age: string,
    role: Option<UserRole>,
    educationLevel: Option<EducationLevel>)

  const EmptyProfileForm := ProfileFormData("", "", None, None)

  /** The row inserted into `profiles`. */
  datatype ProfileRow = ProfileRow(
    id: string,
    email: string,
    fullName: string,
    age: Option<int>,
    role: UserRole,
    educationLevel: Option<EducationLevel>)

  /** `formData.age ? Number.parseInt(formData.age) : null`, where the `NaN`
      of an unreadable age is sent as `null`. The emptiness test is
      redundant: an empty field already reads as no number. */
  function AgeField(age: string): (r: Option<int>)
    ensures r == Numbers.ParseInt(age)
    ensures age == "" ==> r.None?
  {
    if age == "" then None else Numbers.ParseInt(age)
  }

  /** The checks of `handleSubmit` in their order, and the row it inserts. */
  function ValidateProfile(form: ProfileFormData, userId: Option<string>, userEmail: string): (r: Result<ProfileRow>)
    ensures form.role.None? ==> r == Err(RoleMissingMsg)
    ensures form.role.Some? && userId.None? ==> r == Err(UserNotFoundMsg)
    ensures r.Ok? <==> form.role.Some? && userId.Some?
    ensures r.Ok? ==>
      && r.value.id == userId.value
      && r.value.email == userEmail
      && r.value.fullName == form.fullName
      && r.value.age == Numbers.ParseInt(form.age)
      && r.value.role == form.role.value
      && r.value.educationLevel == form.educationLevel
  {
    if form.role.None? then Err(RoleMissingMsg)
    else if userId.None? then Err(UserNotFoundMsg)
    else Ok(ProfileRow(userId.value, userEmail, form.fullName, AgeField(form.age), form.role.value, form.educationLevel))
  }

  /** An age typed as a plain integer that JavaScript represents exactly is
      stored as that integer. */
  lemma TypedAgeIsStored(form: ProfileFormData, userId: Option<string>, userEmail: string, age: int)
    requires -Numbers.MaxSafeInteger <= age <= Numbers.MaxSafeInteger
    requires form.role.Some? && userId.Some?
    ensures ValidateProfile(form.(age := Numbers.IntToString(age)), userId, userEmail).value.age == Some(age)
  {
    Numbers.ParseIntReadsWrittenInteger(age, "");
    assert Numbers.IntToString(age) + "" == Numbers.IntToString(age);
  }

  /** The level select is shown only to students but its value is kept when
      the role changes, so a tutor's row can carry a level. */
  lemma TutorRowMayCarryLevel(userId: string, userEmail: string)
    ensures var form := EmptyProfileForm.(role := Some(Student), educationLevel := Some(Basicos)).(role := Some(Tutor));
      var r := ValidateProfile(form, Some(userId), userEmail);
      r.Ok? && r.value.role == Tutor && r.value.educationLevel == Some(Basicos)
  {
  }

  /** The stored profile: the inserted columns plus both timestamps, which
      the table fills in with the time of the insert. */
  function StoredProfile(row: ProfileRow, now: int): (p: Profile)
    ensures p.id == row.id && p.role == row.role && p.fullName == row.fullName
    ensures p.email == row.email && p.age == row.age && p.educationLevel == row.educationLevel
    ensures p.createdAt == now && p.updatedAt == now
  {
    Profile(row.id, row.email, row.fullName, row.age, row.role, row.educationLevel, now, now)
  }

  /** A successful insert: the table gains the row under its primary key. */
  function InsertProfile(profiles: ProfileTable, row: ProfileRow, now: int): (t: ProfileTable)
    requires row.id !in profiles
    ensures t.Keys == profiles.Keys + {row.id}
    ensures t[row.id] == StoredProfile(row, now)
    ensures forall k :: k in profiles ==> t[k] == profiles[k]
    ensures KeyedById(profiles) ==> KeyedById(t)
  {
    profiles[row.id := StoredProfile(row, now)]
  }

  /** Once the row is stored, the dashboard the handler navigates to lets the
      user in, and coming back to this page leads there again. */
  lemma CompletedProfileOpensDashboard(form: ProfileFormData, user: User, profiles: ProfileTable, now: int)
    requires user.id !in profiles
    requires ValidateProfile(form, Some(user.id), UserEmail(user)).Ok?
    ensures var row := ValidateProfile(form, Some(user.id), UserEmail(user)).value;
      var after := InsertProfile(profiles, row, now);
      && PageGuard(Some(user), after, form.role.value) == Pass(StoredProfile(row, now))
      && CompleteProfileEntry(Some(user), after) == Some(RoleHome(form.role.value))
      && CompleteProfileEntry(Some(user), profiles) == None
  {
  }

  /** `user.email || ""`. */
  function UserEmail(user: User): (e: string)
    ensures user.email.Some? ==> e == user.email.value
    ensures user.email.None? ==> e == ""
  {
    if user.email.Some? then user.email.value else ""
  }

  class CompleteProfilePage {
    var form: ProfileFormData
    var error: Option<string>
    var isLoading: bool
    var userId: Option<string>
    var userEmail: string

    constructor ()
      ensures form == EmptyProfileForm && error == None && !isLoading
      ensures userId == None && userEmail == ""
    {
      form := EmptyProfileForm;
      error := None;
      isLoading := false;
      userId := None;
      userEmail := "";
    }

    /** `checkUser`: the user is recorded before the profile is looked up,
        so it is recorded even when the page then navigates away. */
    method CheckUser(user: Option<User>, profiles: ProfileTable) returns (nav: Option<Route>)
      modifies this`userId, this`userEmail
      ensures nav == CompleteProfileEntry(user, profiles)
      ensures user.None? ==> userId == old(userId) && userEmail == old(userEmail)
      ensures user.Some? ==> userId == Some(user.value.id) && userEmail == UserEmail(user.value)
    {
      if user.None? {
        return Some(Login);
      }
      userId := Some(user.value.id);
      userEmail := if user.value.email.Some? then user.value.email.value else "";
      var profile := LookupProfile(profiles, user.value.id);
      if profile.Some? {
        nav := Some(if profile.value.role == Student then StudentHome else TutorHome);
      } else {
        nav := None;
      }
    }

    /** Choosing a role: the other fields, the level included, are kept. */
    method SelectRole(role: UserRole)
      modifies this`form
      ensures form == old(form).(role := Some(role))
    {
      form := form.(role := Some(role));
    }

    /** `handleSubmit`; `insertFailure` is what the insert throws, if anything. */
    method HandleSubmit(insertFailure: Option<Thrown>) returns (inserted: Option<ProfileRow>, nav: Option<Route>)
      modifies this`error, this`isLoading
      ensures !isLoading
      ensures match ValidateProfile(form, userId, userEmail)
        case Err(m) => inserted == None && nav == None && error == Some(m)
        case Ok(row) =>
          && inserted == Some(row)
          && (insertFailure.None? ==> nav == Some(RoleHome(row.role)) && error == None)
          && (insertFailure.Some? ==> nav == None && error == Some(CaughtMessage(insertFailure.value, InsertFailedMsg)))
    {
      isLoading := true;
      error := None;
      inserted, nav := None, None;

      if form.role.None? {
        error := Some(RoleMissingMsg);
        isLoading := false;
        return;
      }

      if userId.None? {
        error := Some(UserNotFoundMsg);
        isLoading := false;
        return;
      }

      var age := if form.age != "" then Numbers.ParseInt(form.age) else None;
      inserted := Some(ProfileRow(userId.value, userEmail, form.fullName, age, form.role.value, form.educationLevel));
      if insertFailure.Some? {
        error := Some(CaughtMessage(insertFailure.value, InsertFailedMsg));
      } else {
        nav := Some(if form.role.value == Student then StudentHome else TutorHome);
      }
      isLoading := false;
    }
  }
}
