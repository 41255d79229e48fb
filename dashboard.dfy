/** The dashboard (client/src/pages/dashboard.tsx): device counts by status,
    task totals across all checklists, the rounded completion rate, and the
    five most recent devices and notes. */
module Dashboard {
  import opened Collections
  import opened Records
  import opened Checklists
  import opened Store

  predicate IsOnline(d: Device) { d.status == Online }
  predicate IsOffline(d: Device) { d.status == Offline }
  predicate InMaintenance(d: Device) { d.status == Maintenance }

  /** Every device has exactly one of the three statuses, so the three
      filtered counts add up to the inventory. */
  lemma {:induction false} StatusPartition(ds: seq<Device>)
    ensures |Keep(ds, IsOnline)| + |Keep(ds, IsOffline)| + |Keep(ds, InMaintenance)| == |ds|
  {
    if ds != [] {
      StatusPartition(ds[1..]);
    }
  }

  /** `checklists.flatMap(c => c.tasks)`: the first checklist's tasks come
      first, and there are as many tasks as the cards count. */
  function AllTasks(cs: seq<Checklist>): (r: seq<Task>)
    ensures forall c, t :: c in cs && t in c.tasks ==> t in r
    ensures forall t :: t in r ==> exists c :: c in cs && t in c.tasks
    ensures |r| == CardTotals(cs)
    ensures cs != [] ==> cs[0].tasks <= r
  {
    if cs == [] then []
    else
      var rest := AllTasks(cs[1..]);
      assert forall c :: c in cs ==> c == cs[0] || c in cs[1..];
      assert forall c :: c in cs[1..] ==> c in cs;
      cs[0].tasks + rest
  }

  /** The task total of the cards on the checklists page, added up. */
  function CardTotals(cs: seq<Checklist>): nat
  {
    if cs == [] then 0 else |cs[0].tasks| + CardTotals(cs[1..])
  }

  /** The completed counts of the cards on the checklists page, added up. */
  function CardCompleted(cs: seq<Checklist>): nat
  {
    if cs == [] then 0 else CompletedCount(cs[0].tasks) + CardCompleted(cs[1..])
  }

  /** The dashboard's figures are the sums of the per-checklist figures the
      checklists page shows. */
  lemma {:induction false} DashboardAgreesWithCards(cs: seq<Checklist>)
    ensures |AllTasks(cs)| == CardTotals(cs)
    ensures |Keep(AllTasks(cs), IsCompleted)| == CardCompleted(cs)
  {
    if cs != [] {
      DashboardAgreesWithCards(cs[1..]);
      KeepConcat(cs[0].tasks, AllTasks(cs[1..]), IsCompleted);
    }
  }

  /** Division facts for `(200 * c + d) / (2 * d)` with `c <= d`. */
  lemma RoundedPercent(c: nat, d: nat)
    requires 0 < d && c <= d
    ensures 200 * c - d < 2 * d * ((200 * c + d) / (2 * d)) <= 200 * c + d
    ensures (200 * c + d) / (2 * d) <= 100
    ensures c == 0 ==> (200 * c + d) / (2 * d) == 0
    ensures c == d ==> (200 * c + d) / (2 * d) == 100
  {
    var n := 200 * c + d;
    var m := 2 * d;
    var q := n / m;
    assert n == m * q + n % m && 0 <= n % m < m;
    assert m * q < m * 101;
    LessByFactor(m, q, 101);
    if c == 0 {
      DivUnique(n, m, 0, d);
    }
    if c == d {
      DivUnique(n, m, 100, d);
    }
  }

  lemma LessByFactor(m: int, a: int, b: int)
    requires 0 < m && m * a < m * b
    ensures a < b
  {
  }

  /** Quotient and remainder are unique. */
  lemma DivUnique(n: int, m: int, q: int, r: int)
    requires 0 < m && 0 <= r < m && n == m * q + r
    ensures n / m == q
  {
    var k := n / m - q;
    assert m * k == r - n % m;
    LessByFactor(m, k, 1);
    LessByFactor(m, -1, k);
  }

  /** `Math.round(completed / (total || 1) * 100)`, in exact integer arithmetic:
      the nearest whole percentage, halves rounded up. */
  function CompletionRate(completed: nat, total: nat): (r: nat)
    requires completed <= total
    ensures r <= 100
    ensures var d := if total == 0 then 1 else total;
            200 * completed - d < 2 * d * r <= 200 * completed + d
    ensures completed == 0 ==> r == 0
    ensures 0 < total && completed == total ==> r == 100
  {
    var d := if total == 0 then 1 else total;
    RoundedPercent(completed, d);
    (200 * completed + d) / (2 * d)
  }

  /** A rate shown as 100% can still leave a task pending: 199 of 200. */
  lemma FullRateWithPending()
    ensures CompletionRate(199, 200) == 100
  {
  }

  /** The dashboard's cards. */
  datatype Summary = Summary(
    deviceCount: nat,
    online: nat,
    offline: nat,
    noteCount: nat,
    pending: nat,
    completionRate: nat)

  /** The figures of the dashboard, computed from the store's collections. */
  function Summarise(ds: seq<Device>, ns: seq<Note>, cs: seq<Checklist>): (s: Summary)
    ensures s.deviceCount == |ds| && s.noteCount == |ns|
    ensures s.online == |Keep(ds, IsOnline)| && s.offline == |Keep(ds, IsOffline)|
    ensures s.online + s.offline <= s.deviceCount
    ensures s.pending + |Keep(AllTasks(cs), IsCompleted)| == |AllTasks(cs)|
    ensures s.pending == CardTotals(cs) - CardCompleted(cs)
    ensures s.completionRate <= 100
    ensures s.pending == 0 && AllTasks(cs) != [] ==> s.completionRate == 100
    ensures s.completionRate == CompletionRate(|Keep(AllTasks(cs), IsCompleted)|, |AllTasks(cs)|)
    ensures AllTasks(cs) == [] ==> s.completionRate == 0
  {
    var online := |Keep(ds, IsOnline)|;
    var offline := |Keep(ds, IsOffline)|;
    StatusPartition(ds);
    var tasks := AllTasks(cs);
    var completed := CompletedCount(tasks);
    DashboardAgreesWithCards(cs);
    Summary(|ds|, online, offline, |ns|, |tasks| - completed, CompletionRate(completed, |tasks|))
  }

  /** `xs.slice(0, 5)`: the first five, or all of them when there are fewer. */
  function Recent<T>(xs: seq<T>): (r: seq<T>)
    ensures r <= xs
    ensures |r| == if |xs| < 5 then |xs| else 5
  {
    Take(xs, 5)
  }

  lemma InitialDeviceCounts(seen1: string, seen2: string, dayAgo: string)
    ensures |Keep(InitialDevices(seen1, seen2, dayAgo), IsOnline)| == 2
    ensures |Keep(InitialDevices(seen1, seen2, dayAgo), IsOffline)| == 1
  {
    var ds := InitialDevices(seen1, seen2, dayAgo);
    ThreeDeviceCounts(ds[0], ds[1], ds[2]);
    assert ds == [ds[0], ds[1], ds[2]];
  }

  /** Two online devices and one offline one. */
  lemma ThreeDeviceCounts(a: Device, b: Device, c: Device)
    requires a.status == Online && b.status == Online && c.status == Offline
    ensures |Keep([a, b, c], IsOnline)| == 2 && |Keep([a, b, c], IsOffline)| == 1
  {
    assert [a, b, c][1..] == [b, c] && [b, c][1..] == [c] && [c][1..] == [];
    assert Keep([c], IsOnline) == [] && Keep([c], IsOffline) == [c];
    assert Keep([b, c], IsOnline) == [b] && Keep([b, c], IsOffline) == [c];
  }

  lemma InitialTaskCounts()
    ensures |AllTasks(InitialChecklists())| == 5
    ensures CompletedCount(AllTasks(InitialChecklists())) == 0
  {
    var cs := InitialChecklists();
    assert cs[1..] == [];
    assert AllTasks(cs) == cs[0].tasks + [];
    var ts := AllTasks(cs);
    assert forall t :: t in ts ==> !t.completed;
  }

  /** The dashboard of a fresh store: three devices, two online and one
      offline, one note, five pending tasks and a 0% completion rate. */
  lemma InitialSummary(seen1: string, seen2: string, dayAgo: string, noteCreated: string, noteUpdated: string)
    ensures Summarise(InitialDevices(seen1, seen2, dayAgo), InitialNotes(noteCreated, noteUpdated), InitialChecklists())
         == Summary(3, 2, 1, 1, 5, 0)
  {
    InitialDeviceCounts(seen1, seen2, dayAgo);
    InitialTaskCounts();
  }
}
