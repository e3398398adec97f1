/**
 * The tutor's request page (app/dashboard/tutor/requests/page.tsx): every
 * pending request, whoever it is assigned to, and the tutor's own accepted
 * and completed requests.
 */
module TutorRequests {
  import opened Types
  import opened Backend
  import opened Guards
  import opened Query
  import opened Columns
  import opened RequestTabs

  /** `.eq("status", "pending").order("created_at", { ascending: false })`:
      no filter on the tutor. */
  function AllPending(requests: seq<TutoringRequest>): (rs: seq<TutoringRequest>)
    ensures forall r :: multiset(rs)[r] == (if r.status == Pending then multiset(requests)[r] else 0)
    ensures forall r :: r in rs <==> r in requests && r.status == Pending
    ensures Sorted(rs, RequestCreatedAt, Descending)
  {
    Select(requests, (r: TutoringRequest) => r.status == Pending, RequestCreatedAt, Descending)
  }

  /** `.eq("tutor_id", uid).eq("status", status)`, ordered as its tab. */
  function AssignedRequests(uid: string, status: TutoringStatus, requests: seq<TutoringRequest>,
                            key: TutoringRequest -> SortKey, dir: Direction): (rs: seq<TutoringRequest>)
    ensures forall r :: multiset(rs)[r] == (if r.tutorId == Some(uid) && r.status == status then multiset(requests)[r] else 0)
    ensures forall r :: r in rs <==> r in requests && r.tutorId == Some(uid) && r.status == status
    ensures Sorted(rs, key, dir)
    ensures |rs| == |MatchingPositions(requests, (r: TutoringRequest) => r.tutorId == Some(uid) && r.status == status)|
  {
    Select(requests, (r: TutoringRequest) => r.tutorId == Some(uid) && r.status == status, key, dir)
  }

  /** The three queries of the page. */
  function TutorTabs(uid: string, requests: seq<TutoringRequest>): (t: Tabs)
    ensures forall r :: multiset(t.pending)[r] == (if r.status == Pending then multiset(requests)[r] else 0)
    ensures forall r :: multiset(t.accepted)[r] == (if r.tutorId == Some(uid) && r.status == Accepted then multiset(requests)[r] else 0)
    ensures forall r :: multiset(t.completed)[r] == (if r.tutorId == Some(uid) && r.status == Completed then multiset(requests)[r] else 0)
    ensures TabOrders(t)
  {
    Tabs(AllPending(requests),
         AssignedRequests(uid, Accepted, requests, RequestScheduledDate, Ascending),
         AssignedRequests(uid, Completed, requests, RequestUpdatedAt, Descending))
  }

  /** Every pending request is open to every tutor, assigned or not; the
      other tabs show only the tutor's own requests; each tab holds only its
      status. */
  lemma TutorTabsShowWhat(uid: string, requests: seq<TutoringRequest>)
    ensures var t := TutorTabs(uid, requests);
      && TabStatuses(t)
      && (forall r :: r in t.pending <==> r in requests && r.status == Pending)
      && (forall r :: r in t.accepted || r in t.completed ==> r in requests && r.tutorId == Some(uid))
  {
    var t := TutorTabs(uid, requests);
    // Each tab is its own query, whose membership is stated by that query.
    assert t.pending == AllPending(requests);
    assert t.accepted == AssignedRequests(uid, Accepted, requests, RequestScheduledDate, Ascending);
    assert t.completed == AssignedRequests(uid, Completed, requests, RequestUpdatedAt, Descending);
  }

  /** Two tutors see the same pending tab. */
  lemma PendingSameForAllTutors(uid1: string, uid2: string, requests: seq<TutoringRequest>)
    ensures TutorTabs(uid1, requests).pending == TutorTabs(uid2, requests).pending
  {
  }

  /** The page: the tutor guard, then the tabs and their counts. */
  function TutorRequestsPage(user: Option<User>, profiles: ProfileTable, requests: seq<TutoringRequest>)
    : (s: Served<(Tabs, TabCounts)>)
    ensures s.Redirected? <==> PageGuard(user, profiles, Tutor).Redirect?
    ensures s.Redirected? ==> s.to == PageGuard(user, profiles, Tutor).to
    ensures s.Render? ==>
      var t := s.view.0;
      && t == TutorTabs(user.value.id, requests)
      && s.view.1 == TabCounts(|t.pending|, |t.accepted|, |t.completed|)
  {
    match PageGuard(user, profiles, Tutor)
    case Redirect(to) => Redirected(to)
    case Pass(_) =>
      var t := TutorTabs(user.value.id, requests);
      Render((t, CountTabs(Some(t.pending), Some(t.accepted), Some(t.completed))))
  }
}
