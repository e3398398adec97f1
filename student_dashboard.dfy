/**
 * The student's home page (app/dashboard/student/page.tsx): after the
 * student guard it shows the three newest contents of the student's level,
 * the three latest evaluation results, the three newest active tutoring
 * requests and a rounded average of those results' scores.
 */
module StudentDashboard {
  import opened Types
  import opened Backend
  import opened Guards
  import opened Query
  import opened Columns

  /** `profile.education_level || "primaria"`. */
  function LevelOrDefault(level: Option<EducationLevel>): (l: EducationLevel)
    ensures level.Some? ==> l == level.value
    ensures level.None? ==> l == Primaria
  {
    if level.Some? then level.value else Primaria
  }

  /** The three newest contents of a level. */
  function RecentContent(level: EducationLevel, content: seq<EducationalContent>): (r: seq<EducationalContent>)
    ensures |r| <= 3
    ensures forall c :: c in r ==> c in content && c.educationLevel == level
    ensures Sorted(r, ContentCreatedAt, Descending)
    ensures |r| < 3 ==> forall c :: c in content && c.educationLevel == level ==> c in r
    ensures forall c, d :: c in content && c.educationLevel == level && c !in r && d in r ==>
      c.createdAt <= d.createdAt
    ensures multiset(r) <= multiset(content)
  {
    SelectTop(content, (c: EducationalContent) => c.educationLevel == level, ContentCreatedAt, Descending, 3)
  }

  /** The card shows three contents, or all of the level's when there are fewer. */
  lemma RecentContentLength(level: EducationLevel, content: seq<EducationalContent>)
    ensures var m := |set i | 0 <= i < |content| && content[i].educationLevel == level|;
      |RecentContent(level, content)| == if m < 3 then m else 3
  {
    var keep := (c: EducationalContent) => c.educationLevel == level;
    assert MatchingPositions(content, keep) == set i | 0 <= i < |content| && content[i].educationLevel == level;
    var r := SelectTop(content, keep, ContentCreatedAt, Descending, 3);
    assert r == RecentContent(level, content);
  }

  /** The student's three latest results. */
  function RecentResults(uid: string, results: seq<EvaluationResult>): (r: seq<EvaluationResult>)
    ensures |r| <= 3
    ensures forall e :: e in r ==> e in results && e.studentId == uid
    ensures Sorted(r, ResultCompletedAt, Descending)
    ensures |r| < 3 ==> forall e :: e in results && e.studentId == uid ==> e in r
    ensures forall e, f :: e in results && e.studentId == uid && e !in r && f in r ==>
      e.completedAt <= f.completedAt
    ensures multiset(r) <= multiset(results)
  {
    SelectTop(results, (e: EvaluationResult) => e.studentId == uid, ResultCompletedAt, Descending, 3)
  }

  /** The card shows three results, or all of the student's when there are fewer. */
  lemma RecentResultsLength(uid: string, results: seq<EvaluationResult>)
    ensures var m := |set i | 0 <= i < |results| && results[i].studentId == uid|;
      |RecentResults(uid, results)| == if m < 3 then m else 3
  {
    var keep := (e: EvaluationResult) => e.studentId == uid;
    assert MatchingPositions(results, keep) == set i | 0 <= i < |results| && results[i].studentId == uid;
    var r := SelectTop(results, keep, ResultCompletedAt, Descending, 3);
    assert r == RecentResults(uid, results);
  }

  /** `.in("status", ["pending", "accepted"])`. */
  predicate IsActive(status: TutoringStatus): (b: bool)
    ensures b <==> status != Completed && status != Cancelled
  {
    status == Pending || status == Accepted
  }

  /** The student's three newest pending or accepted requests. */
  function ActiveRequests(uid: string, requests: seq<TutoringRequest>): (r: seq<TutoringRequest>)
    ensures |r| <= 3
    ensures forall t :: t in r ==> t in requests && t.studentId == uid && IsActive(t.status)
    ensures Sorted(r, RequestCreatedAt, Descending)
    ensures |r| < 3 ==> forall t :: t in requests && t.studentId == uid && IsActive(t.status) ==> t in r
    ensures forall t, u :: t in requests && t.studentId == uid && IsActive(t.status) && t !in r && u in r ==>
      t.createdAt <= u.createdAt
    ensures multiset(r) <= multiset(requests)
  {
    SelectTop(requests, (t: TutoringRequest) => t.studentId == uid && IsActive(t.status), RequestCreatedAt, Descending, 3)
  }

  /** The card shows three requests, or all of the student's active ones when there are fewer. */
  lemma ActiveRequestsLength(uid: string, requests: seq<TutoringRequest>)
    ensures var m := |set i | 0 <= i < |requests| && requests[i].studentId == uid && IsActive(requests[i].status)|;
      |ActiveRequests(uid, requests)| == if m < 3 then m else 3
  {
    var keep := (t: TutoringRequest) => t.studentId == uid && IsActive(t.status);
    assert MatchingPositions(requests, keep) ==
      set i | 0 <= i < |requests| && requests[i].studentId == uid && IsActive(requests[i].status);
    var r := SelectTop(requests, keep, RequestCreatedAt, Descending, 3);
    assert r == ActiveRequests(uid, requests);
  }

  /** `result.score || 0`: a null score counts as 0. */
  function ScoreOrZero(e: EvaluationResult): (s: int)
    ensures e.score.Some? ==> s == e.score.value
    ensures e.score.None? ==> s == 0
  {
    if e.score.Some? then e.score.value else 0
  }

  /** The sum of the scores, a missing score adding nothing. */
  function SumScores(rs: seq<EvaluationResult>): int
  {
    if rs == [] then 0 else ScoreOrZero(rs[0]) + SumScores(rs[1..])
  }

  /** The `reduce((acc, result) => acc + (result.score || 0), acc)` of the
      progress card, folding from the left: the start value plus the sum of
      the scores. */
  function ReduceScores(acc: int, rs: seq<EvaluationResult>): (total: int)
    ensures total == acc + SumScores(rs)
    decreases |rs|
  {
    if rs == [] then acc else ReduceScores(acc + ScoreOrZero(rs[0]), rs[1..])
  }

  /** `Math.round(num / den)`: the integer nearest to the quotient, a
      quotient exactly halfway between two integers going to the larger. */
  function RoundHalfUp(num: int, den: int): (r: int)
    requires den > 0
    ensures den * (2 * r - 1) <= 2 * num < den * (2 * r + 1)
  {
    var r := (2 * num + den) / (2 * den);
    assert 2 * den * r <= 2 * num + den < 2 * den * r + 2 * den;
    r
  }

  /** Only one integer is that close to the quotient. */
  lemma RoundHalfUpUnique(num: int, den: int, k: int)
    requires den > 0
    requires den * (2 * k - 1) <= 2 * num < den * (2 * k + 1)
    ensures k == RoundHalfUp(num, den)
  {
    var r := RoundHalfUp(num, den);
    if k < r {
      MulLe(den, 2 * k + 1, 2 * r - 1);
    } else if k > r {
      MulLe(den, 2 * r + 1, 2 * k - 1);
    }
  }

  lemma MulLe(a: int, x: int, y: int)
    requires a > 0 && x <= y
    ensures a * x <= a * y
  {
  }

  lemma MulTwice(n: int, x: int)
    ensures n * (2 * x + 1) == 2 * (n * x) + n
    ensures n * (2 * x - 1) == 2 * (n * x) - n
  {
  }

  /** The progress card: 0 without results, otherwise the rounded mean. */
  function AverageScore(rs: seq<EvaluationResult>): (a: int)
    ensures rs == [] ==> a == 0
    ensures rs != [] ==> |rs| * (2 * a - 1) <= 2 * SumScores(rs) < |rs| * (2 * a + 1)
  {
    if |rs| > 0 then RoundHalfUp(ReduceScores(0, rs), |rs|) else 0
  }

  /** The sum of scores that all lie in `[lo, hi]` lies in `[n*lo, n*hi]`. */
  lemma {:induction false} SumWithin(rs: seq<EvaluationResult>, lo: int, hi: int)
    requires forall e :: e in rs ==> lo <= ScoreOrZero(e) <= hi
    ensures |rs| * lo <= SumScores(rs) <= |rs| * hi
  {
    if rs != [] {
      var m := |rs| - 1;
      assert forall e :: e in rs[1..] ==> e in rs;
      SumWithin(rs[1..], lo, hi);
      assert rs[0] in rs;
      MulSucc(m, lo);
      MulSucc(m, hi);
    }
  }

  lemma MulSucc(m: int, x: int)
    ensures (m + 1) * x == m * x + x
  {
  }

  /** The average of scores within `[lo, hi]` lies within `[lo, hi]`. */
  lemma AverageWithin(rs: seq<EvaluationResult>, lo: int, hi: int)
    requires rs != []
    requires forall e :: e in rs ==> lo <= ScoreOrZero(e) <= hi
    ensures lo <= AverageScore(rs) <= hi
  {
    var n, s, a := |rs|, SumScores(rs), AverageScore(rs);
    SumWithin(rs, lo, hi);
    assert n * (2 * a - 1) <= 2 * s < n * (2 * a + 1);
    if a > hi {
      MulLe(n, 2 * hi + 1, 2 * a - 1);
      MulTwice(n, hi);
      assert false;
    }
    if a < lo {
      MulLe(n, 2 * a + 1, 2 * lo - 1);
      MulTwice(n, lo);
      assert false;
    }
  }

  /** The largest score, a missing score counting as 0. */
  function BestScore(rs: seq<EvaluationResult>): (m: int)
    requires rs != []
    ensures forall e :: e in rs ==> ScoreOrZero(e) <= m
    ensures exists e :: e in rs && ScoreOrZero(e) == m
  {
    if |rs| == 1 then
      assert rs[0] in rs;
      ScoreOrZero(rs[0])
    else
      var rest := BestScore(rs[1..]);
      assert forall e :: e in rs ==> e == rs[0] || e in rs[1..];
      assert forall e :: e in rs[1..] ==> e in rs;
      if ScoreOrZero(rs[0]) >= rest then
        assert rs[0] in rs;
        ScoreOrZero(rs[0])
      else
        rest
  }

  /** With scores that are never negative, the average is between 0 and the
      best score of the results it is taken over. */
  lemma AverageBetweenZeroAndBest(rs: seq<EvaluationResult>)
    requires forall e :: e in rs ==> e.score.Some? ==> e.score.value >= 0
    ensures rs == [] ==> AverageScore(rs) == 0
    ensures rs != [] ==> 0 <= AverageScore(rs) <= BestScore(rs)
  {
    if rs != [] {
      AverageWithin(rs, 0, BestScore(rs));
    }
  }

  /** The home page's view. */
  datatype StudentHomeView = StudentHomeView(
    profile: Profile,
    recentContent: seq<EducationalContent>,
    results: seq<EvaluationResult>,
    activeRequests: seq<TutoringRequest>,
    average: int)

  /** The page: the student guard, then the three lists and the average of
      the listed results. */
  function StudentHomePage(user: Option<User>, profiles: ProfileTable, content: seq<EducationalContent>,
                           results: seq<EvaluationResult>, requests: seq<TutoringRequest>): (s: Served<StudentHomeView>)
    ensures s.Redirected? <==> PageGuard(user, profiles, Student).Redirect?
    ensures s.Redirected? ==> s.to == PageGuard(user, profiles, Student).to
    ensures s.Render? ==>
      var p := PageGuard(user, profiles, Student).profile;
      && s.view.profile == p
      && s.view.recentContent == RecentContent(LevelOrDefault(p.educationLevel), content)
      && s.view.results == RecentResults(user.value.id, results)
      && s.view.activeRequests == ActiveRequests(user.value.id, requests)
      && s.view.average == AverageScore(s.view.results)
  {
    match PageGuard(user, profiles, Student)
    case Redirect(to) => Redirected(to)
    case Pass(p) =>
      var shown := RecentResults(user.value.id, results);
      Render(StudentHomeView(p, RecentContent(LevelOrDefault(p.educationLevel), content), shown,
                         ActiveRequests(user.value.id, requests), AverageScore(shown)))
  }

  /** The "completed" and "active" cards count listed rows, so however many
      results and requests the student has, they show at most 3. */
  lemma StatsCapped(user: Option<User>, profiles: ProfileTable, content: seq<EducationalContent>,
                    results: seq<EvaluationResult>, requests: seq<TutoringRequest>)
    ensures var s := StudentHomePage(user, profiles, content, results, requests);
      s.Render? ==>
        && ShownLength(Some(s.view.results)) <= 3
        && ShownLength(Some(s.view.activeRequests)) <= 3
        && ShownLength(Some(s.view.recentContent)) <= 3
  {
  }
}
