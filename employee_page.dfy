/** The employee dashboard page: it fetches the route's payload once on mount and
    renders a skeleton, an error, "No data found." or the dashboard; dismissing a
    notification removes it from the list at once and puts the list back only
    when the dismiss request itself is rejected. Each `await` is modelled as an
    outcome passed in, and the two handlers run to completion one at a time. */
module EmployeePage {
  import opened Prelude
  import opened Records

  /** How the `fetch` of the dashboard route ends: a response (`response.ok` is the
      `Ok` case), a thrown `Error` with its message, or a thrown non-`Error`. */
  datatype FetchOutcome =
    | Delivered(response: Response<EmployeeDashboardData>)
    | ThrewError(message: string)
    | ThrewNonError

  /** The page's three state fields; `error` is `None` for `null`. */
  datatype PageState = PageState(data: Option<EmployeeDashboardData>, isLoading: bool, error: Option<string>)

  const InitialPage := PageState(None, true, None)

  /** The state after `fetchData` settles. */
  function Fetched(s: PageState, outcome: FetchOutcome): (r: PageState)
    ensures !r.isLoading
  {
    match outcome
    case Delivered(Ok(payload)) => s.(data := Some(payload), isLoading := false)
    case Delivered(Failure(_, _)) => s.(error := Some("Failed to fetch data"), isLoading := false)
    case ThrewError(message) => s.(error := Some(message), isLoading := false)
    case ThrewNonError => s.(error := Some("An unknown error occurred"), isLoading := false)
  }

  /** `notifications.filter(n => n.id !== id)`. */
  function WithoutId(ns: seq<Notification>, id: string): (r: seq<Notification>)
    ensures |r| <= |ns|
    ensures forall n :: n in r <==> n in ns && n.id != id
  {
    Filter(ns, (n: Notification) => n.id != id)
  }

  /** The state after `handleDismissNotification(id)`: nothing without data; the
      list without `id` when the request resolves (whatever its status); the data
      as it was when the request rejects. */
  function Dismissed(s: PageState, id: string, requestRejects: bool): (r: PageState)
    ensures r.isLoading == s.isLoading && r.error == s.error
    ensures r.data.Some? <==> s.data.Some?
    ensures requestRejects ==> r == s
    ensures r.data.Some? && !requestRejects ==>
      && r.data.value == s.data.value.(notifications := r.data.value.notifications)
      && (forall n :: n in r.data.value.notifications <==> n in s.data.value.notifications && n.id != id)
  {
    if s.data.None? || requestRejects then s
    else s.(data := Some(s.data.value.(notifications := WithoutId(s.data.value.notifications, id))))
  }

  /** What the page renders, in the order the source checks. */
  datatype PageView = Skeleton | ErrorText(message: string) | NoData | Dashboard(data: EmployeeDashboardData)

  function ViewOf(s: PageState): (v: PageView)
    ensures v == Skeleton <==> s.isLoading
    ensures v.ErrorText? <==> !s.isLoading && s.error.Some? && s.error.value != ""
    ensures v.ErrorText? ==> v == ErrorText(s.error.value)
    ensures v == NoData <==> !s.isLoading && (s.error.None? || s.error.value == "") && s.data.None?
    ensures v.Dashboard? <==> !s.isLoading && (s.error.None? || s.error.value == "") && s.data.Some?
    ensures v.Dashboard? ==> s.data == Some(v.data)
  {
    if s.isLoading then Skeleton
    else if s.error.Some? && s.error.value != "" then ErrorText(s.error.value)
    else if s.data.None? then NoData
    else Dashboard(s.data.value)
  }

  class Page {
    var data: Option<EmployeeDashboardData>
    var isLoading: bool
    var error: Option<string>

    constructor ()
      ensures State() == InitialPage
    {
      data := None;
      isLoading := true;
      error := None;
    }

    function State(): PageState
      reads this
    {
      PageState(data, isLoading, error)
    }

    /** The mount effect's `fetchData`. */
    method FetchData(outcome: FetchOutcome)
      modifies this
      ensures State() == Fetched(old(State()), outcome)
    {
      match outcome {
        case Delivered(response) =>
          if response.Failure? {
            error := Some("Failed to fetch data");
          } else {
            data := Some(response.payload);
          }
        case ThrewError(message) =>
          error := Some(message);
        case ThrewNonError =>
          error := Some("An unknown error occurred");
      }
      isLoading := false;
    }

    /** `handleDismissNotification(id)`. */
    method HandleDismiss(id: string, requestRejects: bool)
      modifies this
      ensures State() == Dismissed(old(State()), id, requestRejects)
    {
      if data.None? {
        return;
      }
      var snapshot := data.value;
      var originalNotifications := snapshot.notifications;
      data := Some(snapshot.(notifications := WithoutId(snapshot.notifications, id)));
      if requestRejects {
        data := Some(snapshot.(notifications := originalNotifications));
      }
    }

    function View(): PageView
      reads this
    {
      ViewOf(State())
    }
  }

  /** The fetch shows the dashboard exactly when the route answered with a payload;
      otherwise it shows the error the source sets. */
  lemma FetchOutcomeShown(outcome: FetchOutcome)
    ensures var v := ViewOf(Fetched(InitialPage, outcome));
      && (v.Dashboard? <==> outcome.Delivered? && outcome.response.Ok?)
      && (v.Dashboard? ==> v.data == outcome.response.payload)
      && (outcome.Delivered? && outcome.response.Failure? ==> v == ErrorText("Failed to fetch data"))
      && (outcome == ThrewNonError ==> v == ErrorText("An unknown error occurred"))
      && (outcome.ThrewError? && outcome.message != "" ==> v == ErrorText(outcome.message))
      && (outcome.ThrewError? && outcome.message == "" ==> v == NoData)
  {
  }

  /** After dismissing, the list holds exactly the earlier notifications with
      another id, and the rest of the data is untouched; a dashboard on screen
      stays on screen with the shorter list. */
  lemma DismissRemovesOnlyThatId(s: PageState, id: string)
    requires s.data.Some?
    ensures var d := Dismissed(s, id, false).data;
      && d.Some?
      && (forall n :: n in d.value.notifications <==> n in s.data.value.notifications && n.id != id)
      && d.value == s.data.value.(notifications := d.value.notifications)
      && (ViewOf(s).Dashboard? ==> ViewOf(Dismissed(s, id, false)) == Dashboard(d.value))
  {
  }

  /** Dismissal keeps the relative order: it commutes with splitting the list. */
  lemma DismissKeepsOrder(a: seq<Notification>, b: seq<Notification>, id: string)
    ensures WithoutId(a + b, id) == WithoutId(a, id) + WithoutId(b, id)
  {
    FilterAppend(a, b, (n: Notification) => n.id != id);
  }

  /** Dismissing the same id twice is dismissing it once. */
  lemma DismissTwice(s: PageState, id: string)
    ensures Dismissed(Dismissed(s, id, false), id, false) == Dismissed(s, id, false)
  {
    if s.data.Some? {
      FilterIdempotent(s.data.value.notifications, (n: Notification) => n.id != id);
    }
  }

  /** Dismissing an id the list does not hold changes nothing. */
  lemma DismissAbsentId(s: PageState, id: string)
    requires s.data.Some?
    requires forall i :: 0 <= i < |s.data.value.notifications| ==> s.data.value.notifications[i].id != id
    ensures Dismissed(s, id, false) == s
  {
    FilterKeepsAll(s.data.value.notifications, (n: Notification) => n.id != id);
  }

  /** A rejected request leaves the page as it was before the click, and without
      data a click does nothing. */
  lemma RejectedDismissRestores(s: PageState, id: string)
    ensures Dismissed(s, id, true) == s
    ensures s.data.None? ==> Dismissed(s, id, false) == s
  {
  }
}
