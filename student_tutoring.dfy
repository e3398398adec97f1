/**
 * The student's tutoring page (app/dashboard/student/tutoring/page.tsx):
 * the student's own requests in three tabs by status.
 */
module StudentTutoring {
  import opened Types
  import opened Backend
  import opened Guards
  import opened Query
  import opened Columns
  import opened RequestTabs

  /** `.eq("student_id", uid).eq("status", status)`, ordered as its tab. */
  function OwnRequests(uid: string, status: TutoringStatus, requests: seq<TutoringRequest>,
                       key: TutoringRequest -> SortKey, dir: Direction): (rs: seq<TutoringRequest>)
    ensures forall r :: multiset(rs)[r] == (if r.studentId == uid && r.status == status then multiset(requests)[r] else 0)
    ensures forall r :: r in rs <==> r in requests && r.studentId == uid && r.status == status
    ensures Sorted(rs, key, dir)
  {
    Select(requests, (r: TutoringRequest) => r.studentId == uid && r.status == status, key, dir)
  }

  /** The three queries of the page. */
  function StudentTabs(uid: string, requests: seq<TutoringRequest>): (t: Tabs)
    ensures forall r :: multiset(t.pending)[r] == (if r.studentId == uid && r.status == Pending then multiset(requests)[r] else 0)
    ensures forall r :: multiset(t.accepted)[r] == (if r.studentId == uid && r.status == Accepted then multiset(requests)[r] else 0)
    ensures forall r :: multiset(t.completed)[r] == (if r.studentId == uid && r.status == Completed then multiset(requests)[r] else 0)
    ensures TabOrders(t)
  {
    Tabs(OwnRequests(uid, Pending, requests, RequestCreatedAt, Descending),
         OwnRequests(uid, Accepted, requests, RequestScheduledDate, Ascending),
         OwnRequests(uid, Completed, requests, RequestUpdatedAt, Descending))
  }

  /** Every request shown is the student's own and in the tab of its status. */
  lemma StudentTabsOwnAndByStatus(uid: string, requests: seq<TutoringRequest>)
    ensures var t := StudentTabs(uid, requests);
      && TabStatuses(t)
      && (forall r :: r in t.pending || r in t.accepted || r in t.completed ==> r in requests && r.studentId == uid)
  {
    var t := StudentTabs(uid, requests);
    // Each tab is its own query, whose membership is stated by that query.
    assert t.pending == OwnRequests(uid, Pending, requests, RequestCreatedAt, Descending);
    assert t.accepted == OwnRequests(uid, Accepted, requests, RequestScheduledDate, Ascending);
    assert t.completed == OwnRequests(uid, Completed, requests, RequestUpdatedAt, Descending);
  }

  /** The tabs together hold each of the student's requests that is not
      cancelled exactly as often as the table does, and nothing else. */
  lemma StudentTabsPartition(uid: string, requests: seq<TutoringRequest>, r: TutoringRequest)
    ensures var t := StudentTabs(uid, requests);
      multiset(t.pending)[r] + multiset(t.accepted)[r] + multiset(t.completed)[r]
        == if r.studentId == uid && r.status != Cancelled then multiset(requests)[r] else 0
  {
  }

  /** The page: the student guard, then the tabs and their counts. */
  function StudentTutoringPage(user: Option<User>, profiles: ProfileTable, requests: seq<TutoringRequest>)
    : (s: Served<(Tabs, TabCounts)>)
    ensures s.Redirected? <==> PageGuard(user, profiles, Student).Redirect?
    ensures s.Redirected? ==> s.to == PageGuard(user, profiles, Student).to
    ensures s.Render? ==>
      var t := s.view.0;
      && t == StudentTabs(user.value.id, requests)
      && s.view.1 == TabCounts(|t.pending|, |t.accepted|, |t.completed|)
  {
    match PageGuard(user, profiles, Student)
    case Redirect(to) => Redirected(to)
    case Pass(_) =>
      var t := StudentTabs(user.value.id, requests);
      Render((t, CountTabs(Some(t.pending), Some(t.accepted), Some(t.completed))))
  }
}
