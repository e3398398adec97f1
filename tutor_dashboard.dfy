/**
 * The tutor's home page (app/dashboard/tutor/page.tsx): the five newest
 * pending requests, the tutor's accepted requests with the first three as
 * upcoming sessions, and two counts.
 */
module TutorDashboard {
  import opened Types
  import opened Backend
  import opened Guards
  import opened Query
  import opened Columns
  import opened TutorRequests

  /** The five newest pending requests, whoever they are assigned to. */
  function NewestPending(requests: seq<TutoringRequest>): (r: seq<TutoringRequest>)
    ensures |r| <= 5
    ensures forall t :: t in r ==> t in requests && t.status == Pending
    ensures Sorted(r, RequestCreatedAt, Descending)
    ensures |r| < 5 ==> forall t :: t in requests && t.status == Pending ==> t in r
    ensures forall t, u :: t in requests && t.status == Pending && t !in r && u in r ==> t.createdAt <= u.createdAt
  {
    var all := AllPending(requests);
    LimitKeepsTop(all, 5, RequestCreatedAt, Descending);
    var r := Limit(all, 5);
    assert |r| < 5 ==> r == all;
    r
  }

  /** "Próximas Sesiones": `acceptedRequests.slice(0, 3)`, the three
      earliest scheduled. */
  function Upcoming(accepted: seq<TutoringRequest>): (r: seq<TutoringRequest>)
    requires Sorted(accepted, RequestScheduledDate, Ascending)
    ensures |r| == if |accepted| < 3 then |accepted| else 3
    ensures r <= accepted
    ensures forall t, u :: t in accepted && t !in r && u in r ==>
      Precedes(Ascending, RequestScheduledDate(u), RequestScheduledDate(t))
  {
    LimitKeepsTop(accepted, 3, RequestScheduledDate, Ascending);
    Limit(accepted, 3)
  }

  /** "Contenidos Creados": an exact count of the tutor's content rows. */
  function ContentCount(uid: string, content: seq<EducationalContent>): (n: nat)
    ensures n == |set i | 0 <= i < |content| && content[i].createdBy == Some(uid)|
  {
    var keep := (c: EducationalContent) => c.createdBy == Some(uid);
    assert MatchingPositions(content, keep) == set i | 0 <= i < |content| && content[i].createdBy == Some(uid);
    CountWhere(content, keep)
  }

  /** "Sesiones Completadas": an exact count of the tutor's completed
      requests. */
  function CompletedCount(uid: string, requests: seq<TutoringRequest>): (n: nat)
    ensures n == |set i | 0 <= i < |requests| && requests[i].tutorId == Some(uid) && requests[i].status == Completed|
  {
    var keep := (t: TutoringRequest) => t.tutorId == Some(uid) && t.status == Completed;
    assert MatchingPositions(requests, keep) ==
      set i | 0 <= i < |requests| && requests[i].tutorId == Some(uid) && requests[i].status == Completed;
    CountWhere(requests, keep)
  }

  datatype TutorHomeView = TutorHomeView(
    profile: Profile,
    pending: seq<TutoringRequest>,
    accepted: seq<TutoringRequest>,
    upcoming: seq<TutoringRequest>,
    contentCount: nat,
    completedCount: nat)

  /** The view of a tutor `uid`. */
  function TutorHome(profile: Profile, uid: string, requests: seq<TutoringRequest>,
                     content: seq<EducationalContent>): (v: TutorHomeView)
    ensures v.profile == profile
    ensures v.pending == NewestPending(requests)
    ensures forall t :: t in v.accepted <==> t in requests && t.tutorId == Some(uid) && t.status == Accepted
    ensures Sorted(v.accepted, RequestScheduledDate, Ascending)
    ensures v.upcoming == Upcoming(v.accepted)
    ensures v.contentCount == |set i | 0 <= i < |content| && content[i].createdBy == Some(uid)|
    ensures v.completedCount ==
      |set i | 0 <= i < |requests| && requests[i].tutorId == Some(uid) && requests[i].status == Completed|
  {
    var accepted := AssignedRequests(uid, Accepted, requests, RequestScheduledDate, Ascending);
    TutorHomeView(profile, NewestPending(requests), accepted, Upcoming(accepted),
                  ContentCount(uid, content), CompletedCount(uid, requests))
  }

  /** The dashboard agrees with the request page: the "Sesiones Completadas"
      card counts the completed tab, both pages list the same accepted
      requests, and the pending card holds the newest of the pending tab, as
      many as fit in five. The two pages run separate queries, so rows with
      equal keys may come back in different orders; the agreement is stated
      on the rows, not on their order. */
  lemma DashboardAgreesWithRequestsPage(profile: Profile, uid: string, requests: seq<TutoringRequest>,
                                        content: seq<EducationalContent>)
    ensures var v := TutorHome(profile, uid, requests, content);
      var t := TutorTabs(uid, requests);
      && v.completedCount == |t.completed|
      && multiset(v.accepted) == multiset(t.accepted)
      && multiset(v.pending) <= multiset(t.pending)
      && |v.pending| == (if |t.pending| < 5 then |t.pending| else 5)
      && (forall r, d :: r in t.pending && r !in v.pending && d in v.pending ==> r.createdAt <= d.createdAt)
  {
    var t := TutorTabs(uid, requests);
    assert t.pending == AllPending(requests);
    assert t.accepted == AssignedRequests(uid, Accepted, requests, RequestScheduledDate, Ascending);
    assert t.completed == AssignedRequests(uid, Completed, requests, RequestUpdatedAt, Descending);
    PendingCardHeadsTab(requests);
    CompletedCardCountsTab(uid, requests);
  }

  /** The pending card is a head of the full pending query. */
  lemma PendingCardHeadsTab(requests: seq<TutoringRequest>)
    ensures var p, all := NewestPending(requests), AllPending(requests);
      && multiset(p) <= multiset(all)
      && |p| == (if |all| < 5 then |all| else 5)
  {
    var all := AllPending(requests);
    assert NewestPending(requests) == Limit(all, 5);
    LimitWithinRows(all, 5);
  }

  /** The completed card counts the rows of the completed query. */
  lemma CompletedCardCountsTab(uid: string, requests: seq<TutoringRequest>)
    ensures CompletedCount(uid, requests) == |AssignedRequests(uid, Completed, requests, RequestUpdatedAt, Descending)|
  {
    var a := MatchingPositions(requests, (r: TutoringRequest) => r.tutorId == Some(uid) && r.status == Completed);
    var b := set i | 0 <= i < |requests| && requests[i].tutorId == Some(uid) && requests[i].status == Completed;
    assert a == b;
  }

  /** The page: the tutor guard, then the view. */
  function TutorHomePage(user: Option<User>, profiles: ProfileTable, requests: seq<TutoringRequest>,
                         content: seq<EducationalContent>): (s: Served<TutorHomeView>)
    ensures s.Redirected? <==> PageGuard(user, profiles, Tutor).Redirect?
    ensures s.Redirected? ==> s.to == PageGuard(user, profiles, Tutor).to
    ensures s.Render? ==>
      s.view == TutorHome(PageGuard(user, profiles, Tutor).profile, user.value.id, requests, content)
  {
    match PageGuard(user, profiles, Tutor)
    case Redirect(to) => Redirected(to)
    case Pass(p) => Render(TutorHome(p, user.value.id, requests, content))
  }

  /** However many requests are pending, the pending card shows at most 5. */
  lemma PendingCardCapped(user: Option<User>, profiles: ProfileTable, requests: seq<TutoringRequest>,
                          content: seq<EducationalContent>)
    ensures var s := TutorHomePage(user, profiles, requests, content);
      s.Render? ==> ShownLength(Some(s.view.pending)) <= 5 && |s.view.upcoming| <= 3
  {
  }
}
