/**
 * The routes the application navigates to and the access guard that every
 * dashboard page runs before it loads anything: no user goes to the login
 * page, a missing profile or a profile of the other role goes to the
 * profile-completion page, and only then is the page rendered.
 */
module Guards {
  import opened Types
  import opened Backend

  datatype Route =
    | Login
    | CompleteProfile
    | VerifyEmail
    | StudentHome
    | TutorHome
    | StudentTutoring
    | TutorContent
    | TutorEvaluations

  /** The URL path of each route. */
  function Path(r: Route): string
  {
    match r
    case Login => "/auth/login"
    case CompleteProfile => "/auth/complete-profile"
    case VerifyEmail => "/auth/verify-email"
    case StudentHome => "/dashboard/student"
    case TutorHome => "/dashboard/tutor"
    case StudentTutoring => "/dashboard/student/tutoring"
    case TutorContent => "/dashboard/tutor/content"
    case TutorEvaluations => "/dashboard/tutor/evaluations"
  }

  /** The dashboard of a role: `role === "student" ? student : tutor`. */
  function RoleHome(role: UserRole): (to: Route)
    ensures to == StudentHome <==> role == Student
    ensures to == TutorHome <==> role == Tutor
  {
    match role
    case Student => StudentHome
    case Tutor => TutorHome
  }

  /** The guard either lets the page render with the caller's profile or
      sends the caller elsewhere. */
  datatype GuardOutcome = Pass(profile: Profile) | Redirect(to: Route)

  /** What a guarded server page produces: its view, or a redirect. */
  datatype Served<+V> = Render(view: V) | Redirected(to: Route)

  /** The guard at the top of every dashboard page and of every client page's
      `checkUser`: the profile is looked up only once a user is known. */
  function PageGuard(user: Option<User>, profiles: ProfileTable, required: UserRole): (g: GuardOutcome)
    ensures user.None? ==> g == Redirect(Login)
    ensures user.Some? ==>
      (g.Pass? <==> user.value.id in profiles && profiles[user.value.id].role == required)
    ensures user.Some? && g.Redirect? ==> g.to == CompleteProfile
    ensures g.Pass? ==> g.profile == profiles[user.value.id] && g.profile.role == required
  {
    match user
    case None => Redirect(Login)
    case Some(u) =>
      match LookupProfile(profiles, u.id)
      case None => Redirect(CompleteProfile)
      case Some(p) => if p.role != required then Redirect(CompleteProfile) else Pass(p)
  }

  /** The guard reads the caller's own profile row and nothing else: two
      tables that agree on that row give the same decision, and without a user
      the table is not consulted at all. */
  lemma GuardReadsOnlyOwnRow(user: Option<User>, p1: ProfileTable, p2: ProfileTable, required: UserRole)
    requires user.Some? ==> LookupProfile(p1, user.value.id) == LookupProfile(p2, user.value.id)
    ensures PageGuard(user, p1, required) == PageGuard(user, p2, required)
  {
  }

  /** Whatever the tables hold, a profile passes at most one of the two
      role guards, so no page is open to both roles. */
  lemma GuardsExclusive(user: Option<User>, profiles: ProfileTable)
    ensures !(PageGuard(user, profiles, Student).Pass? && PageGuard(user, profiles, Tutor).Pass?)
    ensures user.Some? && user.value.id in profiles ==>
      PageGuard(user, profiles, profiles[user.value.id].role).Pass?
  {
  }
}
