/** The employee dashboard route (GET): quick statistics over the user's tasks,
    two fixed charts, and the fetched notifications, scripts and shoots passed
    through. The four store queries and today's local midnight are inputs. */
module EmployeeDashboard {
  import opened Prelude
  import opened Records

  /** `new Date(t.due_date) >= today && t.status !== 'Done'`. */
  predicate IsDue(todayMidnight: int, t: Task) {
    t.due.Some? && t.due.value >= todayMidnight && t.status != "Done"
  }

  predicate IsInReview(t: Task) { t.status == "In Review" }

  function QuickStatsOf(tasks: seq<Task>, shoots: seq<Shoot>, todayMidnight: int): (r: QuickStats)
    ensures r.tasksDue <= |tasks| && r.pendingApprovals <= |tasks|
    ensures r.shootsThisWeek == |shoots|
  {
    QuickStats(|Filter(tasks, t => IsDue(todayMidnight, t))|, |Filter(tasks, IsInReview)|, |shoots|)
  }

  /** `tasksDue` counts exactly the tasks due today or later that are not done, and
      `pendingApprovals` exactly the tasks in review. */
  lemma QuickStatsCount(tasks: seq<Task>, shoots: seq<Shoot>, todayMidnight: int)
    ensures QuickStatsOf(tasks, shoots, todayMidnight).tasksDue ==
            |set i | 0 <= i < |tasks| && tasks[i].due.Some? && tasks[i].due.value >= todayMidnight
                                      && tasks[i].status != "Done"|
    ensures QuickStatsOf(tasks, shoots, todayMidnight).pendingApprovals ==
            |set i | 0 <= i < |tasks| && tasks[i].status == "In Review"|
  {
    var due := (t: Task) => IsDue(todayMidnight, t);
    FilterCount(tasks, due);
    FilterCount(tasks, IsInReview);
    assert IndicesWhere(tasks, due) ==
           set i | 0 <= i < |tasks| && tasks[i].due.Some? && tasks[i].due.value >= todayMidnight
                                    && tasks[i].status != "Done";
    assert IndicesWhere(tasks, IsInReview) == set i | 0 <= i < |tasks| && tasks[i].status == "In Review";
  }

  /** Every task in review that is due today or later is also counted in `tasksDue`
      (a task in review is not done), so those pending approvals never exceed it;
      an overdue task in review counts towards `pendingApprovals` only. */
  lemma {:induction false} InReviewDueCounted(tasks: seq<Task>, shoots: seq<Shoot>, todayMidnight: int)
    ensures |set i | 0 <= i < |tasks| && tasks[i].status == "In Review" && tasks[i].due.Some?
                                      && tasks[i].due.value >= todayMidnight|
            <= QuickStatsOf(tasks, shoots, todayMidnight).tasksDue
  {
    var due := (t: Task) => IsDue(todayMidnight, t);
    FilterCount(tasks, due);
    var reviewDue := set i | 0 <= i < |tasks| && tasks[i].status == "In Review" && tasks[i].due.Some?
                                          && tasks[i].due.value >= todayMidnight;
    SubsetSize(reviewDue, IndicesWhere(tasks, due));
  }

  /** When no task in review is overdue, `pendingApprovals` never exceeds `tasksDue`. */
  lemma InReviewDueAlsoDue(tasks: seq<Task>, shoots: seq<Shoot>, todayMidnight: int)
    requires forall t :: t in tasks && t.status == "In Review" ==>
               t.due.Some? && t.due.value >= todayMidnight
    ensures QuickStatsOf(tasks, shoots, todayMidnight).pendingApprovals <=
            QuickStatsOf(tasks, shoots, todayMidnight).tasksDue
  {
    QuickStatsCount(tasks, shoots, todayMidnight);
    InReviewDueCounted(tasks, shoots, todayMidnight);
    assert (set i | 0 <= i < |tasks| && tasks[i].status == "In Review") ==
           set i | 0 <= i < |tasks| && tasks[i].status == "In Review" && tasks[i].due.Some?
                                    && tasks[i].due.value >= todayMidnight
    by {
      forall i | 0 <= i < |tasks| && tasks[i].status == "In Review"
        ensures tasks[i].due.Some? && tasks[i].due.value >= todayMidnight
      {
        assert tasks[i] in tasks;
      }
    }
  }

  lemma SubsetSize(a: set<int>, b: set<int>)
    requires a <= b
    ensures |a| <= |b|
  {
    assert b == a + (b - a);
  }

  /** Marking a task done removes it from `tasksDue` if it was counted there. */
  lemma MarkingDoneDropsTask(tasks: seq<Task>, shoots: seq<Shoot>, todayMidnight: int, i: nat)
    requires i < |tasks|
    ensures var tasks' := tasks[i := tasks[i].(status := "Done")];
      QuickStatsOf(tasks', shoots, todayMidnight).tasksDue ==
      QuickStatsOf(tasks, shoots, todayMidnight).tasksDue - (if IsDue(todayMidnight, tasks[i]) then 1 else 0)
  {
    var due := (t: Task) => IsDue(todayMidnight, t);
    var tasks' := tasks[i := tasks[i].(status := "Done")];
    FilterCount(tasks, due);
    FilterCount(tasks', due);
    IndicesWhereFalsify(tasks, i, tasks[i].(status := "Done"), due);
  }

  /** `taskCompletionData`: four fixed weeks. */
  const TaskCompletionData: seq<WeekCompletion> := [
    WeekCompletion("W1", 8, 10), WeekCompletion("W2", 7, 10),
    WeekCompletion("W3", 9, 10), WeekCompletion("W4", 6, 8)]

  /** `workloadData`: five fixed weekdays. */
  const WorkloadData: seq<DayWorkload> := [
    DayWorkload("Mon", 2), DayWorkload("Tue", 3), DayWorkload("Wed", 1),
    DayWorkload("Thu", 4), DayWorkload("Fri", 2)]

  /** GET: 404 when the user lookup fails, 500 when any of the four queries fails,
      otherwise the quick statistics, the fixed charts and the fetched lists unchanged. */
  function Get(user: Option<User>, tasksQuery: QueryResult<Task>,
               notificationsQuery: QueryResult<Notification>, scriptsQuery: QueryResult<Script>,
               shootsQuery: QueryResult<Shoot>, todayMidnight: int): (r: Response<EmployeeDashboardData>)
    ensures user.None? ==> r == Failure(404, "User not found")
    ensures user.Some? && (tasksQuery.QueryFailed? || notificationsQuery.QueryFailed?
                           || scriptsQuery.QueryFailed? || shootsQuery.QueryFailed?)
            ==> r == Failure(500, "Failed to fetch dashboard data")
    ensures r.Ok? <==> user.Some? && tasksQuery.QueryRows? && notificationsQuery.QueryRows?
                       && scriptsQuery.QueryRows? && shootsQuery.QueryRows?
    ensures r.Ok? ==>
      && r.payload.user == user.value
      && r.payload.quickStats == QuickStatsOf(tasksQuery.rows, shootsQuery.rows, todayMidnight)
      && r.payload.notifications == notificationsQuery.rows
      && r.payload.scriptsInReview == scriptsQuery.rows
      && r.payload.shootsToday == shootsQuery.rows
      && r.payload.quickStats.shootsThisWeek == |r.payload.shootsToday|
      && |r.payload.taskCompletionData| == 4 && |r.payload.workloadData| == 5
  {
    if user.None? then Failure(404, "User not found")
    else if tasksQuery.QueryFailed? || notificationsQuery.QueryFailed?
            || scriptsQuery.QueryFailed? || shootsQuery.QueryFailed? then
      Failure(500, "Failed to fetch dashboard data")
    else
      Ok(EmployeeDashboardData(
        user.value,
        QuickStatsOf(tasksQuery.rows, shootsQuery.rows, todayMidnight),
        TaskCompletionData,
        WorkloadData,
        notificationsQuery.rows,
        scriptsQuery.rows,
        shootsQuery.rows))
  }

  /** The charts do not depend on the tasks, the shoots or the date. */
  lemma ChartsAreFixed(user: User, t1: seq<Task>, t2: seq<Task>, n: seq<Notification>, s: seq<Script>,
                       sh1: seq<Shoot>, sh2: seq<Shoot>, d1: int, d2: int)
    ensures var r1 := Get(Some(user), QueryRows(t1), QueryRows(n), QueryRows(s), QueryRows(sh1), d1);
            var r2 := Get(Some(user), QueryRows(t2), QueryRows(n), QueryRows(s), QueryRows(sh2), d2);
            && r1.payload.taskCompletionData == r2.payload.taskCompletionData
            && r1.payload.workloadData == r2.payload.workloadData
            && r1.payload.taskCompletionData == TaskCompletionData
            && r1.payload.workloadData == WorkloadData
  {
  }
}
