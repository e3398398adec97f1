/**
 * The timestamp columns the pages order by, as sort keys. Only
 * `scheduled_date` may be NULL.
 */
module Columns {
  import opened Types
  import opened Query

  function ContentCreatedAt(c: EducationalContent): SortKey
  {
    Value(c.createdAt)
  }

  function EvaluationCreatedAt(e: Evaluation): SortKey
  {
    Value(e.createdAt)
  }

  function ResultCompletedAt(r: EvaluationResult): SortKey
  {
    Value(r.completedAt)
  }

  function RequestCreatedAt(r: TutoringRequest): SortKey
  {
    Value(r.createdAt)
  }

  function RequestUpdatedAt(r: TutoringRequest): SortKey
  {
    Value(r.updatedAt)
  }

  /** A request without a date sorts as NULL. */
  function RequestScheduledDate(r: TutoringRequest): (k: SortKey)
    ensures k.Null? <==> r.scheduledDate.None?
  {
    match r.scheduledDate
    case None => Null
    case Some(d) => Value(d)
  }
}
