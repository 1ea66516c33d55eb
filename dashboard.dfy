/**
 * The figures the dashboard derives from the collections and the current
 * time: calls logged, active projects, estimated revenue and the pipeline
 * projection, the follow-up queue and the client-status histogram. All are
 * pure functions of their arguments.
 */
module Dashboard {
  import opened Seqs
  import opened Types

  predicate IsCall(i: Interaction) { i.kind == Call }

  /** `interactions.filter(i => i.type === 'Call').length` */
  function CallCount(interactions: seq<Interaction>): (n: nat)
    ensures n <= |interactions|
  {
    |Filter(interactions, IsCall)|
  }

  /** Every interaction of every client, client by client, each in logged order. */
  function AllInteractions(clients: seq<Client>): seq<Interaction>
  {
    if clients == [] then [] else clients[0].interactions + AllInteractions(clients[1..])
  }

  /** `clients.reduce((acc, c) => acc + <calls of c>, 0)` */
  function CallsMade(clients: seq<Client>): (n: nat)
    ensures n <= |AllInteractions(clients)|
  {
    if clients == [] then 0 else CallCount(clients[0].interactions) + CallsMade(clients[1..])
  }

  /** The calls-made figure counts the calls among all interactions of all clients, and nothing else. */
  lemma {:induction false} CallsMadeCountsCalls(clients: seq<Client>)
    ensures CallsMade(clients) == |Filter(AllInteractions(clients), IsCall)|
    ensures forall i :: i in AllInteractions(clients) && i.kind != Call ==>
              i !in Filter(AllInteractions(clients), IsCall)
  {
    if clients != [] {
      CallsMadeCountsCalls(clients[1..]);
      FilterConcat(clients[0].interactions, AllInteractions(clients[1..]), IsCall);
    }
  }

  predicate IsActive(p: Project) { p.status != Completed }

  /** `projects.filter(p => p.status !== 'Completed').length` */
  function ActiveProjects(projects: seq<Project>): (n: nat)
    ensures n <= |projects|
  {
    |Filter(projects, IsActive)|
  }

  /** The active projects are exactly those not completed: the two counts add up to the total. */
  lemma ActivePlusCompleted(projects: seq<Project>)
    ensures ActiveProjects(projects) + |Filter(projects, KeyIs(ProjectStatusOf, Completed))| == |projects|
  {
    FilterSplit(projects, IsActive);
    FilterCongruent(projects, Not(IsActive), KeyIs(ProjectStatusOf, Completed));
  }

  /**
   * `projects.reduce((acc, p) => acc + p.value, 0)`: every project counts,
   * whatever its status. When no value is negative, neither is the revenue,
   * and no single project is worth more than it.
   */
  function EstimatedRevenue(projects: seq<Project>): (r: int)
    ensures (forall i :: 0 <= i < |projects| ==> projects[i].value >= 0) ==>
              r >= 0 && forall i :: 0 <= i < |projects| ==> projects[i].value <= r
  {
    if projects == [] then 0 else projects[0].value + EstimatedRevenue(projects[1..])
  }

  lemma {:induction false} RevenueConcat(a: seq<Project>, b: seq<Project>)
    ensures EstimatedRevenue(a + b) == EstimatedRevenue(a) + EstimatedRevenue(b)
  {
    if a == [] {
      assert a + b == b;
    } else {
      assert (a + b)[0] == a[0] && (a + b)[1..] == a[1..] + b;
      RevenueConcat(a[1..], b);
    }
  }

  /** Adding a project adds exactly its value. */
  lemma RevenueAppend(projects: seq<Project>, p: Project)
    ensures EstimatedRevenue(projects + [p]) == EstimatedRevenue(projects) + p.value
  {
    RevenueConcat(projects, [p]);
    assert EstimatedRevenue([p]) == p.value + EstimatedRevenue([]);
  }

  /** Revenue depends only on the values: projects that carry the same values in the same order give the same sum. */
  lemma {:induction false} RevenueIgnoresStatus(a: seq<Project>, b: seq<Project>)
    requires |a| == |b|
    requires forall i :: 0 <= i < |a| ==> a[i].value == b[i].value
    ensures EstimatedRevenue(a) == EstimatedRevenue(b)
  {
    if a != [] {
      RevenueIgnoresStatus(a[1..], b[1..]);
    }
  }

  datatype Bar = Bar(name: string, value: real)

  /** The revenue chart: the realised figure, then the pipeline projection at 1.5 times it. */
  function RevenueData(revenue: int): (r: seq<Bar>)
    ensures |r| == 2
    ensures r[0] == Bar("Projects", revenue as real)
    ensures r[1].name == "Pipeline" && r[1].value * 2.0 == r[0].value * 3.0
  {
    [Bar("Projects", revenue as real), Bar("Pipeline", revenue as real * 1.5)]
  }

  function Abs(x: int): nat { if x < 0 then -x else x }

  /** `Math.ceil(d / m)` for a non-negative `d`: the least `n` with `n * m >= d`. */
  function CeilDiv(d: nat, m: nat): (n: nat)
    requires m > 0
    ensures n * m >= d
    ensures n == 0 || (n - 1) * m < d
  {
    if d % m == 0 then d / m else d / m + 1
  }

  /**
   * `Math.ceil(Math.abs(now - date) / (1000 * 60 * 60 * 24))`: the whole
   * days between the two instants, rounded up, in either direction.
   */
  function DaysApart(now: Timestamp, date: Timestamp): (n: nat)
    ensures n * DayMs >= Abs(now - date) && (n == 0 || (n - 1) * DayMs < Abs(now - date))
    ensures n == 0 <==> now == date
  {
    CeilDiv(Abs(now - date), DayMs)
  }

  /**
   * The queue rule: the client is still open (neither Closed nor Lost) and
   * has never been contacted, or was last contacted more than 14 days ago,
   * counted in whole days rounded up. That is the same as more than
   * 14 days of milliseconds away, in the past or in the future.
   */
  predicate NeedsFollowUp(now: Timestamp, c: Client)
    ensures NeedsFollowUp(now, c) <==>
              && c.status != Closed && c.status != Lost
              && (c.lastContacted.None? || Abs(now - c.lastContacted.value) > 14 * DayMs)
  {
    && c.status != Closed && c.status != Lost
    && (c.lastContacted.None? ||
        (FourteenDays(Abs(now - c.lastContacted.value)); DaysApart(now, c.lastContacted.value) > 14))
  }

  function FollowUpTest(now: Timestamp): (p: Client -> bool)
    ensures forall c :: p(c) <==> NeedsFollowUp(now, c)
  {
    c => NeedsFollowUp(now, c)
  }

  /** `clients.filter(<queue rule>)` */
  function CallQueue(clients: seq<Client>, now: Timestamp): (r: seq<Client>)
    ensures forall c :: c in r <==> c in clients && NeedsFollowUp(now, c)
    ensures forall c :: c in r ==> c.status != Closed && c.status != Lost
  {
    Filter(clients, FollowUpTest(now))
  }

  /** More than 14 days rounded up is the same as strictly more than 14 days of milliseconds. */
  lemma FourteenDays(d: nat)
    ensures CeilDiv(d, DayMs) > 14 <==> d > 14 * DayMs
  {
    var n := CeilDiv(d, DayMs);
    if n <= 14 {
      assert n * DayMs <= 14 * DayMs;
    } else {
      assert (n - 1) * DayMs >= 14 * DayMs;
    }
  }

  /**
   * The queue keeps the clients' order; open clients never contacted are
   * always in it; an open client with a last-contacted date is in it
   * exactly when that date is more than 14 days of milliseconds away from
   * now, in the past or in the future.
   */
  lemma CallQueueProperties(clients: seq<Client>, now: Timestamp)
    ensures IsSubsequence(CallQueue(clients, now), clients)
    ensures forall c :: c in clients && c.status != Closed && c.status != Lost && c.lastContacted.None? ==>
              c in CallQueue(clients, now)
    ensures forall c :: c in clients && c.status != Closed && c.status != Lost && c.lastContacted.Some? ==>
              (c in CallQueue(clients, now) <==> Abs(now - c.lastContacted.value) > 14 * DayMs)
  {
    FilterIsSubsequence(clients, FollowUpTest(now));
  }

  /** A date `d` ms in the past and one `d` ms in the future are treated alike. */
  lemma FollowUpSymmetric(now: Timestamp, c: Client, d: nat)
    ensures NeedsFollowUp(now, c.(lastContacted := Some(now - d))) == NeedsFollowUp(now, c.(lastContacted := Some(now + d)))
  {
  }

  /**
   * An open client contacted on day `day` (a UTC midnight) is due on the
   * 15th day after it, and not yet at midnight of the 14th; but, because
   * "now" carries a time of day, it is already due at any instant of the
   * 14th day after midnight.
   */
  lemma FollowUpBoundary(day: Timestamp, c: Client, t: int)
    requires c.status == Lead && c.lastContacted == Some(day)
    requires 0 < t < DayMs
    ensures NeedsFollowUp(day + 15 * DayMs, c)
    ensures !NeedsFollowUp(day + 14 * DayMs, c)
    ensures NeedsFollowUp(day + 14 * DayMs + t, c)
  {
  }

  datatype StatusSlice = StatusSlice(name: ClientStatus, value: nat)

  /** One slice per status of `statuses`, holding the number of clients with that status. */
  function Histogram(clients: seq<Client>, statuses: seq<ClientStatus>): (r: seq<StatusSlice>)
    ensures |r| == |statuses|
    ensures forall i :: 0 <= i < |statuses| ==>
              r[i].name == statuses[i] && r[i].value == |Filter(clients, KeyIs(ClientStatusOf, statuses[i]))|
  {
    if statuses == [] then []
    else [StatusSlice(statuses[0], |Filter(clients, KeyIs(ClientStatusOf, statuses[0]))|)] + Histogram(clients, statuses[1..])
  }

  /** `Object.values(ClientStatus).map(status => ({ name: status, value: <count> }))` */
  function StatusData(clients: seq<Client>): (r: seq<StatusSlice>)
    ensures |r| == 5
    ensures forall i :: 0 <= i < 5 ==> r[i].name == ClientStatuses[i]
  {
    Histogram(clients, ClientStatuses)
  }

  function SliceTotal(slices: seq<StatusSlice>): nat
  {
    if slices == [] then 0 else slices[0].value + SliceTotal(slices[1..])
  }

  lemma {:induction false} HistogramIsGrouping(clients: seq<Client>, statuses: seq<ClientStatus>)
    ensures SliceTotal(Histogram(clients, statuses)) == SumSizes(GroupBy(clients, ClientStatusOf, statuses))
  {
    if statuses != [] {
      HistogramIsGrouping(clients, statuses[1..]);
    }
  }

  /**
   * Every status has its slice, in enumeration order, and the slices add
   * up to the number of clients; with no clients every slice is zero.
   */
  lemma StatusDataTotal(clients: seq<Client>)
    ensures SliceTotal(StatusData(clients)) == |clients|
    ensures clients == [] ==> forall i :: 0 <= i < 5 ==> StatusData(clients)[i].value == 0
  {
    EnumerationsComplete();
    HistogramIsGrouping(clients, ClientStatuses);
    GroupByPartition(clients, ClientStatusOf, ClientStatuses);
  }

  /** The worked figures: values 1200, 5000 and 0 give revenue 6200 and a pipeline of 9300. */
  lemma RevenueExample(a: Project, b: Project, c: Project)
    requires a.value == 1200 && b.value == 5000 && c.value == 0
    ensures EstimatedRevenue([a, b, c]) == 6200
    ensures RevenueData(EstimatedRevenue([a, b, c]))[1].value == 9300.0
  {
    assert [a, b, c][1..] == [b, c] && [b, c][1..] == [c] && [c][1..] == [];
    assert EstimatedRevenue([c]) == 0;
    assert EstimatedRevenue([b, c]) == 5000;
  }
}
