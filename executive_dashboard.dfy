/** The executive dashboard route (GET): key figures over the fetched leads,
    projects and open tasks, revenue per client, the six-month charts and the
    sales pipeline. The three store queries are inputs. */
module ExecutiveDashboard {
  import opened Prelude
  import opened Records

  const UnknownClient: string := "Unknown Client"
  const PipelineSize: nat := 4
  const PipelineAssignee: string := "Alex"

  // ----- key figures -----

  predicate IsClosed(l: Lead) { l.status == "Closed" }
  predicate IsActiveProject(p: Project) { p.status == "In Progress" || p.status == "On Track" }
  predicate IsInReview(t: Task) { t.status == "In Review" }
  function LeadValue(l: Lead): int { l.value }

  /** `totalRevenue`: the values of the closed leads, added up. */
  function TotalRevenue(leads: seq<Lead>): (r: int)
    ensures (forall i :: 0 <= i < |leads| ==> leads[i].status != "Closed") ==> r == 0
  {
    var closed := Filter(leads, IsClosed);
    assert closed != [] ==> closed[0] in closed && closed[0] in leads;
    SumOf(closed, LeadValue)
  }

  /** Lead by lead, a closed lead adds its value and any other lead adds nothing. */
  lemma {:induction false} TotalRevenuePointwise(leads: seq<Lead>)
    ensures leads == [] ==> TotalRevenue(leads) == 0
    ensures leads != [] ==>
      TotalRevenue(leads) == (if leads[0].status == "Closed" then leads[0].value else 0)
                             + TotalRevenue(leads[1..])
  {
  }

  /** Revenue over a concatenation is the sum of the revenues of its parts. */
  lemma TotalRevenueAppend(a: seq<Lead>, b: seq<Lead>)
    ensures TotalRevenue(a + b) == TotalRevenue(a) + TotalRevenue(b)
  {
    FilterAppend(a, b, IsClosed);
    SumOfAppend(Filter(a, IsClosed), Filter(b, IsClosed), LeadValue);
  }

  /** Changing the value of a lead that is not closed leaves the revenue unchanged. */
  lemma {:induction false} TotalRevenueIgnoresOpenLeads(leads: seq<Lead>, i: nat, v: int)
    requires i < |leads| && leads[i].status != "Closed"
    ensures TotalRevenue(leads[i := leads[i].(value := v)]) == TotalRevenue(leads)
  {
    var changed := leads[i := leads[i].(value := v)];
    assert leads == leads[..i] + [leads[i]] + leads[i + 1..];
    assert changed == leads[..i] + [changed[i]] + leads[i + 1..];
    TotalRevenueAppend(leads[..i] + [leads[i]], leads[i + 1..]);
    TotalRevenueAppend(leads[..i], [leads[i]]);
    TotalRevenueAppend(leads[..i] + [changed[i]], leads[i + 1..]);
    TotalRevenueAppend(leads[..i], [changed[i]]);
  }

  /** With non-negative values, the closed revenue never exceeds the value of all leads. */
  lemma {:induction false} TotalRevenueBounded(leads: seq<Lead>)
    requires forall l :: l in leads ==> l.value >= 0
    ensures 0 <= TotalRevenue(leads) <= SumOf(leads, LeadValue)
  {
    if leads != [] {
      TotalRevenuePointwise(leads);
      TotalRevenueBounded(leads[1..]);
    }
  }

  /** `summaryCards`: the lead count, the closed revenue, the projects in progress
      or on track and the tasks in review, with the fixed "change" figures. */
  function SummaryCardsOf(leads: seq<Lead>, projects: seq<Project>, tasks: seq<Task>): (r: SummaryCards)
    ensures r.leads == Card(|leads|, 125)
    ensures r.revenue == Card(TotalRevenue(leads), -21)
    ensures r.activeCampaigns.changeTenths == 0 && r.pendingApprovals.changeTenths == 0
    ensures 0 <= r.activeCampaigns.value <= |projects|
    ensures 0 <= r.pendingApprovals.value <= |tasks|
  {
    SummaryCards(
      Card(|leads|, 125),
      Card(TotalRevenue(leads), -21),
      Card(|Filter(projects, IsActiveProject)|, 0),
      Card(|Filter(tasks, IsInReview)|, 0))
  }

  /** `activeCampaigns` is the number of projects in progress or on track, and
      `pendingApprovals` the number of fetched tasks in review. */
  lemma SummaryCounts(leads: seq<Lead>, projects: seq<Project>, tasks: seq<Task>)
    ensures SummaryCardsOf(leads, projects, tasks).activeCampaigns.value ==
            |set i | 0 <= i < |projects| && (projects[i].status == "In Progress" || projects[i].status == "On Track")|
    ensures SummaryCardsOf(leads, projects, tasks).pendingApprovals.value ==
            |set i | 0 <= i < |tasks| && tasks[i].status == "In Review"|
  {
    FilterCount(projects, IsActiveProject);
    FilterCount(tasks, IsInReview);
    assert IndicesWhere(projects, IsActiveProject) ==
           set i | 0 <= i < |projects| && (projects[i].status == "In Progress" || projects[i].status == "On Track");
    assert IndicesWhere(tasks, IsInReview) == set i | 0 <= i < |tasks| && tasks[i].status == "In Review";
  }

  // ----- revenue by client -----

  /** `p.clients?.name || 'Unknown Client'`. */
  function ClientLabel(p: Project): (r: string)
    ensures r != ""
    ensures p.clients.None? ==> r == UnknownClient
    ensures p.clients.Some? && p.clients.value.name != "" ==> r == p.clients.value.name
    ensures p.clients.Some? && p.clients.value.name == "" ==> r == UnknownClient
  {
    match p.clients
    case Some(c) => if c.name != "" then c.name else UnknownClient
    case None => UnknownClient
  }

  function ClientLabels(projects: seq<Project>): (r: seq<string>)
    ensures |r| == |projects|
    ensures forall i :: 0 <= i < |projects| ==> r[i] == ClientLabel(projects[i])
  {
    seq(|projects|, i requires 0 <= i < |projects| => ClientLabel(projects[i]))
  }

  /** The leads of any status whose `client_name` contains `client`. */
  function MatchingLeads(leads: seq<Lead>, client: string): (r: seq<Lead>)
    ensures forall l :: l in r <==> l in leads && Includes(l.clientName, client)
  {
    Filter(leads, (l: Lead) => Includes(l.clientName, client))
  }

  /** `projectRevenue`: the value of every lead whose client name contains `client`. */
  function MatchedRevenue(leads: seq<Lead>, client: string): (r: int)
    ensures (forall i :: 0 <= i < |leads| ==> !Includes(leads[i].clientName, client)) ==> r == 0
  {
    SumOf(MatchingLeads(leads, client), LeadValue)
  }

  /** The distinct elements of `xs`, each at the place it is first seen. */
  function Distinct(xs: seq<string>): (r: seq<string>)
    ensures |r| <= |xs|
    ensures forall x :: x in r <==> x in xs
  {
    if xs == [] then []
    else
      var d := Distinct(xs[..|xs| - 1]);
      var x := xs[|xs| - 1];
      assert xs == xs[..|xs| - 1] + [x];
      if x in d then d else d + [x]
  }

  function Occurrences(xs: seq<string>, x: string): (n: nat)
    ensures n <= |xs|
    ensures n == 0 <==> x !in xs
  {
    if xs == [] then 0
    else
      assert xs == xs[..|xs| - 1] + [xs[|xs| - 1]];
      Occurrences(xs[..|xs| - 1], x) + (if xs[|xs| - 1] == x then 1 else 0)
  }

  /** The index of the first occurrence of `x` in `xs`. */
  function FirstIndex(xs: seq<string>, x: string): (i: nat)
    requires x in xs
    ensures i < |xs| && xs[i] == x
    ensures forall j :: 0 <= j < i ==> xs[j] != x
  {
    if xs[0] == x then 0 else 1 + FirstIndex(xs[1..], x)
  }

  /** The chart colour of the entry at 0-based position `i`. */
  function Fill(i: nat): string {
    "hsl(var(--chart-" + Decimal(i + 1) + "))"
  }

  /** `amount` added `times` times over, as the reducer adds it once per project. */
  function Repeated(times: nat, amount: int): int {
    if times == 0 then 0 else Repeated(times - 1, amount) + amount
  }

  lemma {:induction false} RepeatedIsProduct(times: nat, amount: int)
    ensures Repeated(times, amount) == times * amount
  {
    if times > 0 {
      RepeatedIsProduct(times - 1, amount);
      assert (times - 1) * amount + amount == times * amount;
    }
  }

  /** The revenue the reducer has added up for `client` after the projects with
      these labels: its matched revenue once per occurrence of its label. */
  function ClientTotal(labels: seq<string>, leads: seq<Lead>, client: string): int {
    Repeated(Occurrences(labels, client), MatchedRevenue(leads, client))
  }

  /** One more project label adds the matched revenue to that client's total only. */
  lemma ClientTotalAppend(labels: seq<string>, x: string, leads: seq<Lead>, y: string)
    ensures ClientTotal(labels + [x], leads, y) ==
            ClientTotal(labels, leads, y) + (if x == y then MatchedRevenue(leads, x) else 0)
  {
    OccurrencesAppend(labels, x, y);
  }

  /** The entries for a sequence of client labels: one per distinct label, in
      first-seen order; its revenue is the matched lead value counted once per
      occurrence of the label; entry `i` has colour `fill(i)`. */
  function EntriesFor(labels: seq<string>, leads: seq<Lead>, fill: nat -> string): (r: seq<ClientRevenue>)
    ensures |r| == |Distinct(labels)|
    ensures forall i :: 0 <= i < |r| ==> r[i].client == Distinct(labels)[i]
  {
    var d := Distinct(labels);
    seq(|d|, i requires 0 <= i < |d| =>
      ClientRevenue(d[i], ClientTotal(labels, leads, d[i]), fill(i)))
  }

  /** What `revenueByClientData` holds for the fetched projects and leads. */
  function RevenueByClientSpec(projects: seq<Project>, leads: seq<Lead>): (r: seq<ClientRevenue>)
    ensures |r| <= |projects|
    ensures projects == [] ==> r == []
  {
    EntriesFor(ClientLabels(projects), leads, Fill)
  }

  /** `acc.find(c => c.client === clientName)`, as the index of the first hit
      (`|acc|` when there is none). */
  method FindClient(acc: seq<ClientRevenue>, clientName: string) returns (j: nat)
    ensures j <= |acc|
    ensures j < |acc| ==> acc[j].client == clientName
    ensures forall k :: 0 <= k < j ==> acc[k].client != clientName
  {
    j := 0;
    while j < |acc| && acc[j].client != clientName
      invariant j <= |acc|
      invariant forall k :: 0 <= k < j ==> acc[k].client != clientName
    {
      j := j + 1;
    }
  }

  /** The reducer's callback for one project: find the client's entry and add the
      project's revenue to it, or append a new entry with the next colour slot. */
  method AddProject(acc: seq<ClientRevenue>, ghost labels: seq<string>, p: Project, leads: seq<Lead>)
    returns (next: seq<ClientRevenue>)
    requires acc == EntriesFor(labels, leads, Fill)
    ensures next == EntriesFor(labels + [ClientLabel(p)], leads, Fill)
  {
    var clientName := ClientLabel(p);
    var projectRevenue := MatchedRevenue(leads, clientName);
    var j := FindClient(acc, clientName);
    if j < |acc| {
      EntriesForSeen(labels, clientName, leads, j, Fill);
      next := acc[j := acc[j].(revenue := acc[j].revenue + projectRevenue)];
    } else {
      AbsentLabel(labels, clientName, leads, Fill);
      EntriesForNew(labels, clientName, leads, Fill);
      next := acc + [ClientRevenue(clientName, projectRevenue, Fill(|acc|))];
    }
  }

  /** The `projects.reduce` that builds `revenueByClientData`, starting from `[]`. */
  method RevenueByClient(projects: seq<Project>, leads: seq<Lead>) returns (acc: seq<ClientRevenue>)
    ensures acc == RevenueByClientSpec(projects, leads)
  {
    acc := [];
    assert ClientLabels(projects[..0]) == [];
    for i := 0 to |projects|
      invariant acc == EntriesFor(ClientLabels(projects[..i]), leads, Fill)
    {
      acc := AddProject(acc, ClientLabels(projects[..i]), projects[i], leads);
      ClientLabelsPrefix(projects, i);
    }
    assert projects[..|projects|] == projects;
  }

  lemma {:induction false} ClientLabelsPrefix(projects: seq<Project>, i: nat)
    requires i < |projects|
    ensures ClientLabels(projects[..i + 1]) == ClientLabels(projects[..i]) + [ClientLabel(projects[i])]
  {
    assert projects[..i + 1][i] == projects[i];
  }

  lemma {:induction false} DistinctAppend(labels: seq<string>, x: string)
    ensures Distinct(labels + [x]) == if x in labels then Distinct(labels) else Distinct(labels) + [x]
  {
    assert (labels + [x])[..|labels|] == labels;
  }

  lemma {:induction false} OccurrencesAppend(labels: seq<string>, x: string, y: string)
    ensures Occurrences(labels + [x], y) == Occurrences(labels, y) + (if x == y then 1 else 0)
  {
    assert (labels + [x])[..|labels|] == labels;
  }

  lemma EntryAt(labels: seq<string>, leads: seq<Lead>, i: nat, fill: nat -> string)
    requires i < |Distinct(labels)|
    ensures var c := Distinct(labels)[i];
      EntriesFor(labels, leads, fill)[i] == ClientRevenue(c, ClientTotal(labels, leads, c), fill(i))
  {
  }

  /** The entry of a label already seen gains that label's matched revenue once more. */
  lemma SeenEntrySame(labels: seq<string>, x: string, leads: seq<Lead>, j: nat, fill: nat -> string)
    requires j < |Distinct(labels)| && Distinct(labels)[j] == x
    requires Distinct(labels + [x]) == Distinct(labels)
    ensures var e := EntriesFor(labels, leads, fill);
      EntriesFor(labels + [x], leads, fill)[j] == e[j].(revenue := e[j].revenue + MatchedRevenue(leads, x))
  {
    ClientTotalAppend(labels, x, leads, x);
    EntryAt(labels + [x], leads, j, fill);
    EntryAt(labels, leads, j, fill);
  }

  /** The entries of the other labels are unchanged. */
  lemma SeenEntryOther(labels: seq<string>, x: string, leads: seq<Lead>, j: nat, k: nat, fill: nat -> string)
    requires j < |Distinct(labels)| && Distinct(labels)[j] == x
    requires k < |Distinct(labels)| && k != j
    requires Distinct(labels + [x]) == Distinct(labels)
    ensures EntriesFor(labels + [x], leads, fill)[k] == EntriesFor(labels, leads, fill)[k]
  {
    var y := Distinct(labels)[k];
    assert y != x by {
      DistinctNoDuplicates(labels);
    }
    ClientTotalAppend(labels, x, leads, y);
    EntryAt(labels + [x], leads, k, fill);
    EntryAt(labels, leads, k, fill);
  }

  /** A label already seen adds the matched revenue to its own entry. */
  lemma {:induction false} EntriesForSeen(labels: seq<string>, x: string, leads: seq<Lead>, j: nat, fill: nat -> string)
    requires j < |Distinct(labels)| && Distinct(labels)[j] == x
    ensures var e := EntriesFor(labels, leads, fill);
      EntriesFor(labels + [x], leads, fill) == e[j := e[j].(revenue := e[j].revenue + MatchedRevenue(leads, x))]
  {
    var e := EntriesFor(labels, leads, fill);
    var e' := EntriesFor(labels + [x], leads, fill);
    var m := MatchedRevenue(leads, x);
    DistinctAppend(labels, x);
    forall k | 0 <= k < |e|
      ensures e'[k] == e[j := e[j].(revenue := e[j].revenue + m)][k]
    {
      if k == j {
        SeenEntrySame(labels, x, leads, j, fill);
      } else {
        SeenEntryOther(labels, x, leads, j, k, fill);
      }
    }
  }

  /** After a new label the earlier entries are unchanged. */
  lemma NewEntryOther(labels: seq<string>, x: string, leads: seq<Lead>, k: nat, fill: nat -> string)
    requires x !in labels && k < |Distinct(labels)|
    requires Distinct(labels + [x]) == Distinct(labels) + [x]
    ensures EntriesFor(labels + [x], leads, fill)[k] == EntriesFor(labels, leads, fill)[k]
  {
    var y := Distinct(labels)[k];
    assert y in labels;
    assert Distinct(labels + [x])[k] == y;
    ClientTotalAppend(labels, x, leads, y);
    EntryAt(labels + [x], leads, k, fill);
    EntryAt(labels, leads, k, fill);
  }

  /** A new label's entry counts its matched revenue once. */
  lemma NewEntryLast(labels: seq<string>, x: string, leads: seq<Lead>, fill: nat -> string)
    requires x !in labels
    requires Distinct(labels + [x]) == Distinct(labels) + [x]
    ensures EntriesFor(labels + [x], leads, fill)[|Distinct(labels)|] ==
            ClientRevenue(x, MatchedRevenue(leads, x), fill(|Distinct(labels)|))
  {
    ClientTotalAppend(labels, x, leads, x);
    assert Occurrences(labels, x) == 0;
    assert ClientTotal(labels, leads, x) == 0;
    EntryAt(labels + [x], leads, |Distinct(labels)|, fill);
  }

  /** A label that no entry carries is not among the labels. */
  lemma AbsentLabel(labels: seq<string>, x: string, leads: seq<Lead>, fill: nat -> string)
    requires forall k :: 0 <= k < |EntriesFor(labels, leads, fill)| ==> EntriesFor(labels, leads, fill)[k].client != x
    ensures x !in labels
  {
    var d := Distinct(labels);
    forall k | 0 <= k < |d| ensures d[k] != x {
      assert EntriesFor(labels, leads, fill)[k].client == d[k];
    }
  }

  /** A new label appends an entry with the next colour slot. */
  lemma {:induction false} EntriesForNew(labels: seq<string>, x: string, leads: seq<Lead>, fill: nat -> string)
    requires x !in labels
    ensures var e := EntriesFor(labels, leads, fill);
      EntriesFor(labels + [x], leads, fill) == e + [ClientRevenue(x, MatchedRevenue(leads, x), fill(|e|))]
  {
    var e := EntriesFor(labels, leads, fill);
    var e' := EntriesFor(labels + [x], leads, fill);
    DistinctAppend(labels, x);
    forall k | 0 <= k < |e|
      ensures e'[k] == e[k]
    {
      NewEntryOther(labels, x, leads, k, fill);
    }
    NewEntryLast(labels, x, leads, fill);
  }

  /** No label appears twice among the distinct labels. */
  lemma {:induction false} DistinctNoDuplicates(xs: seq<string>)
    ensures forall a, b :: 0 <= a < b < |Distinct(xs)| ==> Distinct(xs)[a] != Distinct(xs)[b]
  {
    if xs != [] {
      DistinctNoDuplicates(xs[..|xs| - 1]);
    }
  }

  /** The distinct labels appear in the order in which they are first seen. */
  lemma {:induction false} DistinctFirstSeenOrder(xs: seq<string>)
    ensures forall a, b :: 0 <= a < b < |Distinct(xs)| ==>
              FirstIndex(xs, Distinct(xs)[a]) < FirstIndex(xs, Distinct(xs)[b])
  {
    if xs != [] {
      var init := xs[..|xs| - 1];
      var x := xs[|xs| - 1];
      assert xs == init + [x];
      DistinctFirstSeenOrder(init);
      forall y | y in init ensures FirstIndex(xs, y) == FirstIndex(init, y) {
        FirstIndexPrefix(init, [x], y);
      }
    }
  }

  lemma {:induction false} FirstIndexPrefix(a: seq<string>, b: seq<string>, y: string)
    requires y in a
    ensures FirstIndex(a + b, y) == FirstIndex(a, y)
  {
    if a[0] != y {
      assert (a + b)[1..] == a[1..] + b;
      FirstIndexPrefix(a[1..], b, y);
    }
  }

  /** Distinct chart positions get distinct colours. */
  lemma FillInjective(a: nat, b: nat)
    requires Fill(a) == Fill(b)
    ensures a == b
  {
    var prefix := "hsl(var(--chart-";
    var sa, sb := Decimal(a + 1), Decimal(b + 1);
    assert |sa| == |sb|;
    assert sa == Fill(a)[|prefix|..|prefix| + |sa|];
    assert sb == Fill(b)[|prefix|..|prefix| + |sb|];
    DecimalInjective(a + 1, b + 1);
  }

  /** `revenueByClientData` has at most one entry per project, one entry per
      client label in first-seen order, pairwise distinct clients and colours,
      and a project without a client name shows up as "Unknown Client". */
  lemma RevenueByClientShape(projects: seq<Project>, leads: seq<Lead>)
    ensures var r := RevenueByClientSpec(projects, leads);
      && |r| <= |projects|
      && (forall a, b :: 0 <= a < b < |r| ==> r[a].client != r[b].client && r[a].fill != r[b].fill)
      && (forall i :: 0 <= i < |r| ==> r[i].fill == Fill(i) && r[i].client in ClientLabels(projects))
      && (forall k :: 0 <= k < |projects| ==> exists i :: 0 <= i < |r| && r[i].client == ClientLabel(projects[k]))
      && (forall a, b :: 0 <= a < b < |r| ==>
            FirstIndex(ClientLabels(projects), r[a].client) < FirstIndex(ClientLabels(projects), r[b].client))
  {
    var labels := ClientLabels(projects);
    var d := Distinct(labels);
    var r := RevenueByClientSpec(projects, leads);
    DistinctNoDuplicates(labels);
    DistinctFirstSeenOrder(labels);
    forall a, b | 0 <= a < b < |r| ensures r[a].fill != r[b].fill {
      if r[a].fill == r[b].fill {
        FillInjective(a, b);
      }
    }
    forall k | 0 <= k < |projects| ensures exists i :: 0 <= i < |r| && r[i].client == ClientLabel(projects[k]) {
      assert labels[k] in d;
      var i :| 0 <= i < |d| && d[i] == labels[k];
      assert r[i].client == ClientLabel(projects[k]);
    }
  }

  /** Each entry's revenue is its client's matched lead value times the number of
      that client's projects: a client with k projects counts its leads k times. */
  lemma RevenuePerProject(projects: seq<Project>, leads: seq<Lead>, i: nat)
    requires i < |RevenueByClientSpec(projects, leads)|
    ensures var e := RevenueByClientSpec(projects, leads)[i];
      e.revenue == |set k | 0 <= k < |projects| && ClientLabel(projects[k]) == e.client|
                   * SumOf(Filter(leads, (l: Lead) => Includes(l.clientName, e.client)), LeadValue)
  {
    var labels := ClientLabels(projects);
    var c := RevenueByClientSpec(projects, leads)[i].client;
    EntryAt(labels, leads, i, Fill);
    OccurrencesCount(labels, c);
    RepeatedIsProduct(Occurrences(labels, c), MatchedRevenue(leads, c));
    assert Positions(labels, c) == set k | 0 <= k < |projects| && ClientLabel(projects[k]) == c;
  }

  /** Per-client revenue is not a share of the closed revenue: a client with two
      projects and one open lead is credited twice that lead's value, while the
      closed revenue is 0. */
  lemma PerClientRevenueIgnoresStatus(c: string, v: int, p: Project, l: Lead)
    requires c != "" && p.clients == Some(Client("c1", c))
    requires l.clientName == c && l.status != "Closed" && l.value == v
    ensures RevenueByClientSpec([p, p], [l]) == [ClientRevenue(c, 2 * v, Fill(0))]
    ensures TotalRevenue([l]) == 0
  {
    var labels := ClientLabels([p, p]);
    assert labels == [c, c];
    assert labels[..1] == [c];
    assert Distinct(labels) == [c];
    assert Occurrences(labels, c) == 2;
    IncludesEmptyAndSelf(c);
    assert MatchingLeads([l], c) == [l];
    assert [l][1..] == [];
    assert SumOf([l], LeadValue) == v;
    RepeatedIsProduct(2, v);
    assert ClientTotal(labels, [l], c) == 2 * v;
    var r := RevenueByClientSpec([p, p], [l]);
    assert |r| == 1 && r[0] == ClientRevenue(c, 2 * v, Fill(0));
  }

  /** The positions at which `x` occurs in `xs`. */
  function Positions(xs: seq<string>, x: string): set<int> {
    set k | 0 <= k < |xs| && xs[k] == x
  }

  lemma {:induction false} OccurrencesCount(xs: seq<string>, x: string)
    ensures Occurrences(xs, x) == |Positions(xs, x)|
  {
    if xs == [] {
      assert Positions(xs, x) == {};
    } else {
      var n := |xs| - 1;
      OccurrencesCount(xs[..n], x);
      var a := Positions(xs[..n], x);
      if xs[n] == x {
        assert Positions(xs, x) == a + {n};
      } else {
        assert Positions(xs, x) == a;
      }
    }
  }

  // ----- pipeline and charts -----

  /** `leads.slice(0, 4).map(l => ({...l, assigned: "Alex"}))`. */
  function PipelineLeads(leads: seq<Lead>): (r: seq<Lead>)
    ensures |r| == if |leads| < PipelineSize then |leads| else PipelineSize
    ensures forall i :: 0 <= i < |r| ==> r[i] == leads[i].(assignedTo := Some(PipelineAssignee))
  {
    var n := if |leads| < PipelineSize then |leads| else PipelineSize;
    seq(n, i requires 0 <= i < n => leads[i].(assignedTo := Some(PipelineAssignee)))
  }

  const Months: seq<string> := ["Jan", "Feb", "Mar", "Apr", "May", "Jun"]

  /** `revenueTrendData`: five fixed months and June's closed revenue. */
  function RevenueTrend(totalRevenue: int): (r: seq<MonthRevenue>)
    ensures |r| == 6
    ensures forall i :: 0 <= i < 6 ==> r[i].month == Months[i]
    ensures r[5].revenue == totalRevenue
  {
    [MonthRevenue("Jan", 80000), MonthRevenue("Feb", 95000), MonthRevenue("Mar", 110000),
     MonthRevenue("Apr", 105000), MonthRevenue("May", 120000), MonthRevenue("Jun", totalRevenue)]
  }

  /** `expensesProfitData`: five fixed months and June with expenses 80000. */
  function ExpensesProfit(totalRevenue: int): (r: seq<MonthProfit>)
    ensures |r| == 6
    ensures forall i :: 0 <= i < 6 ==> r[i].month == Months[i]
    ensures r[5] == MonthProfit("Jun", 80000, totalRevenue - 80000)
  {
    [MonthProfit("Jan", 60000, 20000), MonthProfit("Feb", 65000, 30000),
     MonthProfit("Mar", 70000, 40000), MonthProfit("Apr", 72000, 33000),
     MonthProfit("May", 75000, 45000), MonthProfit("Jun", 80000, totalRevenue - 80000)]
  }

  /** The two charts agree month by month: expenses plus profit is that month's revenue;
      only June depends on the leads, and June's profit is negative below 80000. */
  lemma ChartsAgree(t: int, u: int)
    ensures forall i :: 0 <= i < 6 ==>
              ExpensesProfit(t)[i].expenses + ExpensesProfit(t)[i].profit == RevenueTrend(t)[i].revenue
    ensures RevenueTrend(t)[..5] == RevenueTrend(u)[..5]
    ensures ExpensesProfit(t)[..5] == ExpensesProfit(u)[..5]
    ensures ExpensesProfit(t)[5].profit < 0 <==> t < 80000
  {
  }

  // ----- the route -----

  /** GET: 404 when the user lookup fails, 500 when any of the three queries fails,
      otherwise the whole payload. */
  method Get(user: Option<User>, leadsQuery: QueryResult<Lead>, projectsQuery: QueryResult<Project>,
             tasksQuery: QueryResult<Task>)
    returns (r: Response<ExecutiveDashboardData>)
    ensures user.None? ==> r == Failure(404, "User not found")
    ensures user.Some? && (leadsQuery.QueryFailed? || projectsQuery.QueryFailed? || tasksQuery.QueryFailed?)
            ==> r == Failure(500, "Failed to fetch executive data")
    ensures r.Ok? <==> user.Some? && leadsQuery.QueryRows? && projectsQuery.QueryRows? && tasksQuery.QueryRows?
    ensures r.Ok? ==>
      var leads, projects, tasks := leadsQuery.rows, projectsQuery.rows, tasksQuery.rows;
      var d := r.payload;
      && d.user == user.value
      && d.summaryCards == SummaryCardsOf(leads, projects, tasks)
      && d.revenueByClientData == RevenueByClientSpec(projects, leads)
      && d.revenueTrendData == RevenueTrend(TotalRevenue(leads))
      && d.expensesProfitData == ExpensesProfit(TotalRevenue(leads))
      && d.pipelineLeads == PipelineLeads(leads)
      && d.projects == projects
  {
    if user.None? {
      return Failure(404, "User not found");
    }
    if leadsQuery.QueryFailed? || projectsQuery.QueryFailed? || tasksQuery.QueryFailed? {
      return Failure(500, "Failed to fetch executive data");
    }
    var leads, projects, tasks := leadsQuery.rows, projectsQuery.rows, tasksQuery.rows;
    var totalRevenue := TotalRevenue(leads);
    var summaryCards := SummaryCardsOf(leads, projects, tasks);
    var revenueByClientData := RevenueByClient(projects, leads);
    var payload := ExecutiveDashboardData(user.value, summaryCards, revenueByClientData,
                                          RevenueTrend(totalRevenue), ExpensesProfit(totalRevenue),
                                          PipelineLeads(leads), projects);
    r := Ok(payload);
  }
}
