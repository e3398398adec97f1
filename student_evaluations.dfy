/**
 * The student's evaluation list (app/dashboard/student/evaluations/page.tsx):
 * the evaluations of the student's level, newest first, each marked
 * completed when the student has a result for it.
 */
module StudentEvaluations {
  import opened Types
  import opened Backend
  import opened Guards
  import opened Query
  import opened Columns
  import StudentDashboard

  /** `new Set(completedEvaluations.map(e => e.evaluation_id))` over the
      student's own results. */
  function CompletedIds(uid: string, results: seq<EvaluationResult>): (ids: set<string>)
    ensures forall id :: id in ids <==> exists e :: e in results && e.studentId == uid && e.evaluationId == id
  {
    set e | e in Where(results, (e: EvaluationResult) => e.studentId == uid) :: e.evaluationId
  }

  /** A second result for an already completed evaluation changes nothing. */
  lemma DuplicateResultChangesNothing(uid: string, results: seq<EvaluationResult>, extra: EvaluationResult)
    requires exists e :: e in results && e.studentId == uid && e.evaluationId == extra.evaluationId
    ensures CompletedIds(uid, results + [extra]) == CompletedIds(uid, results)
  {
  }

  /** Without results of the student, nothing is completed. */
  lemma NoResultsNothingCompleted(uid: string, results: seq<EvaluationResult>)
    requires forall e :: e in results ==> e.studentId != uid
    ensures CompletedIds(uid, results) == {}
  {
    assert forall id :: id !in CompletedIds(uid, results);
  }

  /** Other students' results never mark an evaluation. */
  lemma OthersResultsIgnored(uid: string, results: seq<EvaluationResult>, other: EvaluationResult)
    requires other.studentId != uid
    ensures CompletedIds(uid, results + [other]) == CompletedIds(uid, results)
  {
  }

  /** The link text of a card. */
  function ButtonLabel(completed: bool): (text: string)
    ensures completed <==> text == "Ver Resultados"
    ensures !completed <==> text == "Comenzar"
  {
    if completed then "Ver Resultados" else "Comenzar"
  }

  /** One card of the list. */
  datatype EvaluationCard = EvaluationCard(evaluation: Evaluation, isCompleted: bool, buttonText: string)

  /** The evaluations of a level, newest first. */
  function LevelEvaluations(level: EducationLevel, evaluations: seq<Evaluation>): (r: seq<Evaluation>)
    ensures forall e :: multiset(r)[e] == if e.educationLevel == level then multiset(evaluations)[e] else 0
    ensures forall e :: e in r <==> e in evaluations && e.educationLevel == level
    ensures Sorted(r, EvaluationCreatedAt, Descending)
  {
    Select(evaluations, (e: Evaluation) => e.educationLevel == level, EvaluationCreatedAt, Descending)
  }

  /** The cards, one per listed evaluation and in its order. */
  function Cards(listed: seq<Evaluation>, completed: set<string>): (cards: seq<EvaluationCard>)
    ensures |cards| == |listed|
    ensures forall i :: 0 <= i < |cards| ==>
      && cards[i].evaluation == listed[i]
      && (cards[i].isCompleted <==> listed[i].id in completed)
      && cards[i].buttonText == ButtonLabel(cards[i].isCompleted)
  {
    seq(|listed|, i requires 0 <= i < |listed| =>
      var done := listed[i].id in completed;
      EvaluationCard(listed[i], done, ButtonLabel(done)))
  }

  /** The page: the student guard, then the cards. */
  function StudentEvaluationsPage(user: Option<User>, profiles: ProfileTable, evaluations: seq<Evaluation>,
                                  results: seq<EvaluationResult>): (s: Served<seq<EvaluationCard>>)
    ensures s.Redirected? <==> PageGuard(user, profiles, Student).Redirect?
    ensures s.Redirected? ==> s.to == PageGuard(user, profiles, Student).to
    ensures s.Render? ==>
      var p := PageGuard(user, profiles, Student).profile;
      s.view == Cards(LevelEvaluations(StudentDashboard.LevelOrDefault(p.educationLevel), evaluations),
                      CompletedIds(user.value.id, results))
  {
    match PageGuard(user, profiles, Student)
    case Redirect(to) => Redirected(to)
    case Pass(p) =>
      Render(Cards(LevelEvaluations(StudentDashboard.LevelOrDefault(p.educationLevel), evaluations),
                   CompletedIds(user.value.id, results)))
  }

  /** A card says "Ver Resultados" exactly when the student has a result for
      its evaluation. */
  lemma CardMarksOwnResults(user: Option<User>, profiles: ProfileTable, evaluations: seq<Evaluation>,
                            results: seq<EvaluationResult>, i: int)
    requires StudentEvaluationsPage(user, profiles, evaluations, results).Render?
    requires 0 <= i < |StudentEvaluationsPage(user, profiles, evaluations, results).view|
    ensures var card := StudentEvaluationsPage(user, profiles, evaluations, results).view[i];
      && (card.buttonText == "Ver Resultados" <==>
            exists e :: e in results && e.studentId == user.value.id && e.evaluationId == card.evaluation.id)
      && card.evaluation in evaluations
  {
    var p := PageGuard(user, profiles, Student).profile;
    var listed := LevelEvaluations(StudentDashboard.LevelOrDefault(p.educationLevel), evaluations);
    assert listed[i] in listed;
  }
}
