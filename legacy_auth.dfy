/**
 * js/auth.js, the helpers of the static HTML pages: session and profile
 * lookups, `protectPage` and `logout`. Navigation is the assignment to
 * `window.location.href`, modelled as a field of a `Browser` object.
 */
module LegacyAuth {
  import opened Types
  import opened Backend

  /** The static pages js/auth.js navigates to. */
  datatype Page = IndexHtml | LoginHtml | DashboardStudentHtml | DashboardTutorHtml

  function PageFile(p: Page): string
  {
    match p
    case IndexHtml => "index.html"
    case LoginHtml => "login.html"
    case DashboardStudentHtml => "dashboard-student.html"
    case DashboardTutorHtml => "dashboard-tutor.html"
  }

  /** The static dashboard of a role, chosen by comparing the stored role
      string with "student". */
  function DashboardPage(role: UserRole): (p: Page)
    ensures p == DashboardStudentHtml <==> role == Student
    ensures p == DashboardTutorHtml <==> role == Tutor
  {
    if RoleName(role) == "student" then DashboardStudentHtml else DashboardTutorHtml
  }

  /** `checkAuth`: the current session, as the auth service reports it. */
  function CheckAuth(session: Option<Session>): (r: Option<Session>)
    ensures r.Some? <==> session.Some?
  {
    session
  }

  /** `getCurrentUserProfile`: no user means no profile and no lookup;
      otherwise the profile row of the user's id, if there is one. */
  function GetCurrentUserProfile(user: Option<User>, profiles: ProfileTable): (r: Option<Profile>)
    ensures user.None? ==> r.None?
    ensures user.Some? ==> (r.Some? <==> user.value.id in profiles)
    ensures r.Some? ==> r.value == profiles[user.value.id]
  {
    match user
    case None => None
    case Some(u) => LookupProfile(profiles, u.id)
  }

  /** What `protectPage` does: the profile it returns and where it navigates. */
  datatype Protection = Protection(profile: Option<Profile>, navigateTo: Option<Page>)

  /** When a role is required, `profile.role` is read without a null check,
      which throws when there is a session but no profile. */
  predicate ProtectPageDefined(session: Option<Session>, user: Option<User>, profiles: ProfileTable,
                               requiredRole: Option<UserRole>)
  {
    session.Some? && requiredRole.Some? ==> GetCurrentUserProfile(user, profiles).Some?
  }

  /** The decision `protectPage(requiredRole)` takes. */
  function PageProtection(session: Option<Session>, user: Option<User>, profiles: ProfileTable,
                       requiredRole: Option<UserRole>): (r: Protection)
    requires ProtectPageDefined(session, user, profiles, requiredRole)
    ensures session.None? ==> r == Protection(None, Some(LoginHtml))
    ensures session.Some? && requiredRole.None? ==>
      r == Protection(GetCurrentUserProfile(user, profiles), None)
    ensures session.Some? && requiredRole.Some? ==>
      var p := GetCurrentUserProfile(user, profiles).value;
      if p.role == requiredRole.value then r == Protection(Some(p), None)
      else r == Protection(None, Some(DashboardPage(p.role)))
  {
    if CheckAuth(session).None? then
      Protection(None, Some(LoginHtml))
    else
      var profile := GetCurrentUserProfile(user, profiles);
      if requiredRole.Some? && profile.value.role != requiredRole.value then
        Protection(None, Some(DashboardPage(profile.value.role)))
      else
        Protection(profile, None)
  }

  /** Without a session nothing about the user or the profiles is consulted. */
  lemma NoSessionNoLookup(user1: Option<User>, user2: Option<User>, p1: ProfileTable, p2: ProfileTable,
                          requiredRole: Option<UserRole>)
    ensures PageProtection(None, user1, p1, requiredRole) == PageProtection(None, user2, p2, requiredRole)
  {
  }

  /** A role mismatch redirects to the dashboard of the profile's own role,
      never to the required role's, and that page admits the profile. */
  lemma MismatchGoesToOwnDashboard(session: Option<Session>, user: Option<User>, profiles: ProfileTable,
                                   required: UserRole)
    requires session.Some? && GetCurrentUserProfile(user, profiles).Some?
    requires GetCurrentUserProfile(user, profiles).value.role != required
    ensures var r := PageProtection(session, user, profiles, Some(required));
      var own := GetCurrentUserProfile(user, profiles).value.role;
      && r.profile.None?
      && r.navigateTo == Some(DashboardPage(own))
      && DashboardPage(own) != DashboardPage(required)
      && PageProtection(session, user, profiles, Some(own)) == Protection(Some(GetCurrentUserProfile(user, profiles).value), None)
  {
  }

  /** The browser window of a static page. */
  class Browser {
    var href: string

    constructor (start: string)
      ensures href == start
    {
      href := start;
    }

    /** `protectPage`: navigates when the decision says so and returns the
        profile; the location is untouched when the page is allowed. */
    method ProtectPage(session: Option<Session>, user: Option<User>, profiles: ProfileTable,
                       requiredRole: Option<UserRole>) returns (profile: Option<Profile>)
      requires ProtectPageDefined(session, user, profiles, requiredRole)
      modifies this
      ensures var d := PageProtection(session, user, profiles, requiredRole);
        && profile == d.profile
        && href == (if d.navigateTo.Some? then PageFile(d.navigateTo.value) else old(href))
    {
      var current := CheckAuth(session);
      if current.None? {
        href := "login.html";
        return None;
      }
      profile := GetCurrentUserProfile(user, profiles);
      if requiredRole.Some? && profile.value.role != requiredRole.value {
        href := PageFile(DashboardPage(profile.value.role));
        return None;
      }
    }

    /** `logout`: after signing out (a backend call) the browser goes to the
        index page. */
    method Logout()
      modifies this
      ensures href == PageFile(IndexHtml)
    {
      href := "index.html";
    }
  }
}
