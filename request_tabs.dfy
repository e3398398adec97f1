/**
 * The three tabs of tutoring requests shared by the student's and the
 * tutor's request pages: pending, accepted and completed, each filtered on
 * one status, with the count shown on each tab.
 */
module RequestTabs {
  import opened Types
  import opened Query
  import Columns

  datatype Tabs = Tabs(
    pending: seq<TutoringRequest>,
    accepted: seq<TutoringRequest>,
    completed: seq<TutoringRequest>)

  /** Each tab holds only requests of its own status. */
  predicate TabStatuses(t: Tabs)
  {
    && (forall r :: r in t.pending ==> r.status == Pending)
    && (forall r :: r in t.accepted ==> r.status == Accepted)
    && (forall r :: r in t.completed ==> r.status == Completed)
  }

  /** The tab orders: pending newest created first, accepted earliest
      scheduled first (undated last), completed latest updated first. */
  ghost predicate TabOrders(t: Tabs)
  {
    && Sorted(t.pending, Columns.RequestCreatedAt, Descending)
    && Sorted(t.accepted, Columns.RequestScheduledDate, Ascending)
    && Sorted(t.completed, Columns.RequestUpdatedAt, Descending)
  }

  /** Tabs split by status never share a request and never show a
      cancelled one. */
  lemma StatusTabsDisjoint(t: Tabs)
    requires TabStatuses(t)
    ensures forall r :: !(r in t.pending && r in t.accepted)
    ensures forall r :: !(r in t.pending && r in t.completed)
    ensures forall r :: !(r in t.accepted && r in t.completed)
    ensures forall r: TutoringRequest :: r.status == Cancelled ==> r !in t.pending && r !in t.accepted && r !in t.completed
  {
  }

  /** The tab titles' counts, `list?.length || 0` each. */
  datatype TabCounts = TabCounts(pending: nat, accepted: nat, completed: nat)

  function CountTabs(pending: Option<seq<TutoringRequest>>, accepted: Option<seq<TutoringRequest>>,
                     completed: Option<seq<TutoringRequest>>): (c: TabCounts)
    ensures c.pending == ShownLength(pending)
    ensures c.accepted == ShownLength(accepted)
    ensures c.completed == ShownLength(completed)
  {
    TabCounts(ShownLength(pending), ShownLength(accepted), ShownLength(completed))
  }
}
