/** The row shapes the dashboard routes read from the store (lib/types.ts),
    the shape of a query result and of a route's JSON response. */
module Records {
  import opened Prelude

  datatype User = User(id: string, name: string, role: string, joinedDate: string, avatarUrl: string)

  /** A task's `due_date` as a millisecond timestamp; `None` when the text does not
      parse as a date (JavaScript then compares with NaN, which is never `>=`). */
  datatype Task = Task(id: string, title: string, status: string, due: Option<int>,
                       assigneeId: string, projectId: string)

  datatype Notification = Notification(id: string, userId: string, message: string,
                                       isRead: bool, createdAt: string)

  datatype Script = Script(id: string, title: string, version: string, status: string, projectId: string)

  datatype Shoot = Shoot(id: string, title: string, shootDate: string, projectId: string)

  /** `assignedTo` (the JSON field `assigned`) is absent on stored leads and added by the executive route. */
  datatype Lead = Lead(id: string, clientName: string, status: string, value: int,
                       assignedTo: Option<string>)

  datatype Client = Client(id: string, name: string)

  /** `clients` is the joined client row, `None` when the project has no client. */
  datatype Project = Project(id: string, name: string, status: string, progress: int,
                             clients: Option<Client>)

  /** What one store query yields: an error, or its rows in the query's order. */
  datatype QueryResult<T> = QueryFailed | QueryRows(rows: seq<T>)

  /** A route's reply: 200 with a payload, or an error status with its message. */
  datatype Response<T> = Ok(payload: T) | Failure(status: int, message: string)

  // ----- the employee dashboard payload -----

  datatype QuickStats = QuickStats(tasksDue: nat, pendingApprovals: nat, shootsThisWeek: nat)
  datatype WeekCompletion = WeekCompletion(week: string, completed: nat, total: nat)
  datatype DayWorkload = DayWorkload(day: string, deadlines: nat)

  datatype EmployeeDashboardData = EmployeeDashboardData(
    user: User,
    quickStats: QuickStats,
    taskCompletionData: seq<WeekCompletion>,
    workloadData: seq<DayWorkload>,
    notifications: seq<Notification>,
    scriptsInReview: seq<Script>,
    shootsToday: seq<Shoot>)

  // ----- the executive dashboard payload -----

  /** A summary card; `changeTenths` is the "change" percentage in tenths
      (12.5 is 125, -2.1 is -21). */
  datatype Card = Card(value: int, changeTenths: int)
  datatype SummaryCards = SummaryCards(leads: Card, revenue: Card, activeCampaigns: Card,
                                       pendingApprovals: Card)
  datatype ClientRevenue = ClientRevenue(client: string, revenue: int, fill: string)
  datatype MonthRevenue = MonthRevenue(month: string, revenue: int)
  datatype MonthProfit = MonthProfit(month: string, expenses: int, profit: int)

  datatype ExecutiveDashboardData = ExecutiveDashboardData(
    user: User,
    summaryCards: SummaryCards,
    revenueByClientData: seq<ClientRevenue>,
    revenueTrendData: seq<MonthRevenue>,
    expensesProfitData: seq<MonthProfit>,
    pipelineLeads: seq<Lead>,
    projects: seq<Project>)
}
