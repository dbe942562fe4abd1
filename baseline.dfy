/** backend/security/baseline.py: saved baselines of the system state, the
    keyed comparison of a new scan against one of them, the risk score of
    what appeared since, and the table of baselines with its "at most one
    active baseline" rule. The SQLite tables are the fields of a
    `BaselineStore`; scans, clock readings and JSON encoding are not part of
    this model, so the scanned lists and times are parameters. */
module Baseline {
  import opened Wrappers
  import opened Seqs
  import opened Risk
  import Processes
  import Ports
  import Startup
  import Integrity

  // ---------------------------------------------------------------------
  // Keyed comparison of two lists (`_compare_lists`)
  // ---------------------------------------------------------------------

  datatype Diff<T> = Diff(added: seq<T>, removed: seq<T>, unchangedCount: nat)

  /** `{item[key] for item in items}`. */
  function KeysOf<T(==,!new), K(==)>(s: seq<T>, key: T -> K): (ks: set<K>)
    ensures forall x :: x in s ==> key(x) in ks
    ensures forall k :: k in ks ==> exists x :: x in s && key(x) == k
  {
    set x | x in s :: key(x)
  }

  /** The condition `item[key] in keys`. */
  function KeyIn<T, K(==)>(key: T -> K, keys: set<K>): T -> bool
  {
    x => key(x) in keys
  }

  /** The condition `item[key] not in keys`. */
  function KeyNotIn<T, K(==)>(key: T -> K, keys: set<K>): T -> bool
  {
    x => key(x) !in keys
  }

  /** `_compare_lists`: the current items whose key is new, the baseline
      items whose key is gone, and how many distinct keys are in both. */
  function CompareLists<T(==,!new), K(==)>(base: seq<T>, cur: seq<T>, key: T -> K): (d: Diff<T>)
    ensures forall x :: x in d.added <==> x in cur && key(x) !in KeysOf(base, key)
    ensures forall x :: x in d.removed <==> x in base && key(x) !in KeysOf(cur, key)
  {
    var baseKeys := KeysOf(base, key);
    var curKeys := KeysOf(cur, key);
    var addedKeys := curKeys - baseKeys;
    var removedKeys := baseKeys - curKeys;
    var d := Diff(Filter(cur, KeyIn(key, addedKeys)), Filter(base, KeyIn(key, removedKeys)), |baseKeys * curKeys|);
    forall x ensures x in d.added <==> x in cur && key(x) !in baseKeys {
      FilterMembership(cur, KeyIn(key, addedKeys), x);
    }
    forall x ensures x in d.removed <==> x in base && key(x) !in curKeys {
      FilterMembership(base, KeyIn(key, removedKeys), x);
    }
    d
  }

  /** `added` is the current list with the items whose key the baseline
      lacks kept, in their current order; `removed` is the baseline list
      with the items whose key the current list lacks kept, in their
      baseline order. */
  lemma CompareListsKeepsOrder<T(!new), K>(base: seq<T>, cur: seq<T>, key: T -> K)
    ensures CompareLists(base, cur, key).added == Filter(cur, KeyNotIn(key, KeysOf(base, key)))
    ensures CompareLists(base, cur, key).removed == Filter(base, KeyNotIn(key, KeysOf(cur, key)))
  {
    var baseKeys, curKeys := KeysOf(base, key), KeysOf(cur, key);
    FilterCongruent(cur, KeyIn(key, curKeys - baseKeys), KeyNotIn(key, baseKeys));
    FilterCongruent(base, KeyIn(key, baseKeys - curKeys), KeyNotIn(key, curKeys));
  }

  /** The keys of `added` are exactly the new keys and those of `removed`
      exactly the vanished ones, so the two never share a key. */
  lemma CompareListsKeys<T(!new), K>(base: seq<T>, cur: seq<T>, key: T -> K)
    ensures var d := CompareLists(base, cur, key);
            var baseKeys, curKeys := KeysOf(base, key), KeysOf(cur, key);
            && KeysOf(d.added, key) == curKeys - baseKeys
            && KeysOf(d.removed, key) == baseKeys - curKeys
            && KeysOf(d.added, key) * KeysOf(d.removed, key) == {}
  {
    var d := CompareLists(base, cur, key);
    var baseKeys, curKeys := KeysOf(base, key), KeysOf(cur, key);
    forall k | k in curKeys - baseKeys ensures k in KeysOf(d.added, key) {
      var x :| x in cur && key(x) == k;
      assert x in d.added;
    }
    forall k | k in baseKeys - curKeys ensures k in KeysOf(d.removed, key) {
      var x :| x in base && key(x) == k;
      assert x in d.removed;
    }
  }

  /** `unchanged` counts the keys on both sides, so with the new keys it
      accounts for every current key, and with the vanished keys for every
      baseline key. */
  lemma CompareListsCounts<T(!new), K>(base: seq<T>, cur: seq<T>, key: T -> K)
    ensures var d := CompareLists(base, cur, key);
            && d.unchangedCount == |KeysOf(base, key) * KeysOf(cur, key)|
            && |KeysOf(cur, key)| == |KeysOf(d.added, key)| + d.unchangedCount
            && |KeysOf(base, key)| == |KeysOf(d.removed, key)| + d.unchangedCount
  {
    var baseKeys, curKeys := KeysOf(base, key), KeysOf(cur, key);
    CompareListsKeys(base, cur, key);
    SplitCard(curKeys, baseKeys);
    SplitCard(baseKeys, curKeys);
    assert curKeys * baseKeys == baseKeys * curKeys;
  }

  /** A set splits into the part outside `b` and the part inside it. */
  lemma SplitCard<K>(a: set<K>, b: set<K>)
    ensures |a| == |a - b| + |a * b|
  {
    assert a == (a - b) + (a * b);
    assert (a - b) * (a * b) == {};
  }

  /** Items are identified by their key alone: when both sides have the same
      keys nothing is added or removed, whatever else differs. */
  lemma SameKeysNoChange<T(!new), K>(base: seq<T>, cur: seq<T>, key: T -> K)
    requires KeysOf(base, key) == KeysOf(cur, key)
    ensures CompareLists(base, cur, key) == Diff([], [], |KeysOf(cur, key)|)
  {
    var keys := KeysOf(cur, key);
    CompareListsKeepsOrder(base, cur, key);
    FilterDropsAll(cur, KeyNotIn(key, keys));
    FilterDropsAll(base, KeyNotIn(key, keys));
    assert keys * keys == keys;
  }

  /** Comparing a list with itself reports no change. */
  lemma CompareWithItself<T(!new), K>(s: seq<T>, key: T -> K)
    ensures CompareLists(s, s, key) == Diff([], [], |KeysOf(s, key)|)
  {
    SameKeysNoChange(s, s, key);
  }

  /** Against an empty baseline everything current is added. */
  lemma CompareWithEmptyBaseline<T(!new), K>(cur: seq<T>, key: T -> K)
    ensures CompareLists([], cur, key) == Diff(cur, [], 0)
  {
    var curKeys := KeysOf(cur, key);
    FilterKeepsAll(cur, KeyIn(key, curKeys - {}));
  }

  function ProcessKey(p: Processes.Process): string { p.name }

  function PortKey(p: Ports.Port): Option<nat> { p.localPort }

  function StartupKey(s: Startup.StartupItem): string { s.name }

  /** Two processes with the same name are the same process for the
      comparison, even with different pids. */
  lemma ProcessIdentityIsName(p: Processes.Process, q: Processes.Process)
    requires p.name == q.name && p.pid != q.pid
    ensures CompareLists([p], [q], ProcessKey) == Diff([], [], 1)
  {
    SingletonKeys(p, ProcessKey);
    SingletonKeys(q, ProcessKey);
    SameKeysNoChange([p], [q], ProcessKey);
  }

  lemma SingletonKeys<T(!new), K>(x: T, key: T -> K)
    ensures KeysOf([x], key) == {key(x)}
  {
    assert x in [x];
    forall k | k in KeysOf([x], key) ensures k == key(x) {
      var y :| y in [x] && key(y) == k;
    }
  }

  // ---------------------------------------------------------------------
  // Risk score of a comparison (`_calculate_risk_score`, `_get_risk_level`)
  // ---------------------------------------------------------------------

  /** What one item of tier `l` is worth; safe items are worth nothing. */
  function Weight(l: RiskLevel, high: nat, medium: nat, low: nat): nat
  {
    match l
    case High => high
    case Medium => medium
    case Low => low
    case Safe => 0
  }

  /** `sum(high for x in s if x is high) + sum(medium ...) + sum(low ...)`. */
  function Points<T>(s: seq<T>, level: T -> RiskLevel, high: nat, medium: nat, low: nat): (p: nat)
    ensures |s| == 1 ==> p == Weight(level(s[0]), high, medium, low)
  {
    SingleBucket(s, level, High);
    SingleBucket(s, level, Medium);
    SingleBucket(s, level, Low);
    high * |OfLevel(s, level, High)| + medium * |OfLevel(s, level, Medium)| + low * |OfLevel(s, level, Low)|
  }

  /** A list scores nothing exactly when each of its items sits in a tier
      whose weight is zero. */
  lemma PointsZero<T>(s: seq<T>, level: T -> RiskLevel, high: nat, medium: nat, low: nat)
    ensures Points(s, level, high, medium, low) == 0 <==>
              forall i :: 0 <= i < |s| ==> Weight(level(s[i]), high, medium, low) == 0
  {
    if forall i :: 0 <= i < |s| ==> Weight(level(s[i]), high, medium, low) == 0 {
      if high > 0 { OfLevelNone(s, level, High); }
      if medium > 0 { OfLevelNone(s, level, Medium); }
      if low > 0 { OfLevelNone(s, level, Low); }
    } else {
      var i :| 0 <= i < |s| && Weight(level(s[i]), high, medium, low) != 0;
      PointsAtLeast(s, level, high, medium, low, i);
    }
  }

  /** Every item contributes its weight: the total is at least any one
      item's weight. */
  lemma PointsAtLeast<T>(s: seq<T>, level: T -> RiskLevel, high: nat, medium: nat, low: nat, i: int)
    requires 0 <= i < |s|
    ensures Points(s, level, high, medium, low) >= Weight(level(s[i]), high, medium, low)
  {
    var l := level(s[i]);
    OfLevelMembership(s, level, l, s[i]);
    var n := |OfLevel(s, level, l)|;
    assert n >= 1;
    var h, m, lo := |OfLevel(s, level, High)|, |OfLevel(s, level, Medium)|, |OfLevel(s, level, Low)|;
    assert Points(s, level, high, medium, low) == high * h + medium * m + low * lo;
    assert high * h >= 0 && medium * m >= 0 && low * lo >= 0;
    match l
    case High => MulAtLeast(high, n); assert high * h >= high;
    case Medium => MulAtLeast(medium, n); assert medium * m >= medium;
    case Low => MulAtLeast(low, n); assert low * lo >= low;
    case Safe =>
  }

  lemma {:induction false} MulAtLeast(w: nat, n: nat)
    requires n >= 1
    ensures w * n >= w
  {
    if n > 1 {
      MulAtLeast(w, n - 1);
      assert w * n == w * (n - 1) + w;
    }
  }

  /** A one-item list has one item in its own tier and none in the others. */
  lemma SingleBucket<T>(s: seq<T>, level: T -> RiskLevel, l: RiskLevel)
    ensures |s| == 1 ==> |OfLevel(s, level, l)| == if level(s[0]) == l then 1 else 0
  {
    if |s| == 1 {
      OfLevelCons(s, level, l);
      assert s[1..] == [];
    }
  }

  lemma PointsAppend<T>(a: seq<T>, b: seq<T>, level: T -> RiskLevel, high: nat, medium: nat, low: nat)
    ensures Points(a + b, level, high, medium, low) == Points(a, level, high, medium, low) + Points(b, level, high, medium, low)
  {
    OfLevelAppend(a, b, level, High);
    OfLevelAppend(a, b, level, Medium);
    OfLevelAppend(a, b, level, Low);
    assert high * (|OfLevel(a, level, High)| + |OfLevel(b, level, High)|)
           == high * |OfLevel(a, level, High)| + high * |OfLevel(b, level, High)|;
    assert medium * (|OfLevel(a, level, Medium)| + |OfLevel(b, level, Medium)|)
           == medium * |OfLevel(a, level, Medium)| + medium * |OfLevel(b, level, Medium)|;
    assert low * (|OfLevel(a, level, Low)| + |OfLevel(b, level, Low)|)
           == low * |OfLevel(a, level, Low)| + low * |OfLevel(b, level, Low)|;
  }

  /** The uncapped score: 20/10/3 per added high/medium/low process, 15/8 per
      added high/medium port, 25/12 per added high/medium startup item. */
  function RawScore(processes: seq<Processes.Process>, ports: seq<Ports.Port>, startupItems: seq<Startup.StartupItem>): (raw: nat)
    ensures raw == 0 <==>
              && (forall i :: 0 <= i < |processes| ==> processes[i].risk == Safe)
              && (forall i :: 0 <= i < |ports| ==> ports[i].risk in {Low, Safe})
              && (forall i :: 0 <= i < |startupItems| ==> startupItems[i].risk in {Low, Safe})
  {
    PointsZero(processes, Processes.RiskOf, 20, 10, 3);
    PointsZero(ports, Ports.RiskOf, 15, 8, 0);
    PointsZero(startupItems, Startup.RiskOf, 25, 12, 0);
    Points(processes, Processes.RiskOf, 20, 10, 3) + Points(ports, Ports.RiskOf, 15, 8, 0)
    + Points(startupItems, Startup.RiskOf, 25, 12, 0)
  }

  /** `_calculate_risk_score` on the three `added` lists: the raw score
      capped at 100. */
  function RiskScore(processes: seq<Processes.Process>, ports: seq<Ports.Port>, startupItems: seq<Startup.StartupItem>): (score: nat)
    ensures score <= 100
    ensures score <= RawScore(processes, ports, startupItems)
    ensures RawScore(processes, ports, startupItems) <= 100 ==> score == RawScore(processes, ports, startupItems)
    ensures RawScore(processes, ports, startupItems) >= 100 ==> score == 100
  {
    var raw := RawScore(processes, ports, startupItems);
    if raw < 100 then raw else 100
  }

  /** Adding items to any of the three `added` lists never lowers the score. */
  lemma RiskScoreMonotone(processes: seq<Processes.Process>, ports: seq<Ports.Port>, startupItems: seq<Startup.StartupItem>,
                          moreProcesses: seq<Processes.Process>, morePorts: seq<Ports.Port>,
                          moreStartup: seq<Startup.StartupItem>)
    ensures RiskScore(processes, ports, startupItems)
            <= RiskScore(processes + moreProcesses, ports + morePorts, startupItems + moreStartup)
  {
    PointsAppend(processes, moreProcesses, Processes.RiskOf, 20, 10, 3);
    PointsAppend(ports, morePorts, Ports.RiskOf, 15, 8, 0);
    PointsAppend(startupItems, moreStartup, Startup.RiskOf, 25, 12, 0);
  }

  /** What one added item is worth on its own. */
  lemma RiskScoreOfOneProcess(p: Processes.Process)
    ensures RiskScore([p], [], []) == match p.risk
                                      case High => 20
                                      case Medium => 10
                                      case Low => 3
                                      case Safe => 0
  {
    assert Points([p], Processes.RiskOf, 20, 10, 3) == Weight(p.risk, 20, 10, 3);
  }

  /** One added port is worth 15 if high and 8 if medium; low and safe ports
      are worth nothing. */
  lemma RiskScoreOfOnePort(q: Ports.Port)
    ensures RiskScore([], [q], []) == match q.risk
                                      case High => 15
                                      case Medium => 8
                                      case Low => 0
                                      case Safe => 0
  {
    assert Points([q], Ports.RiskOf, 15, 8, 0) == Weight(q.risk, 15, 8, 0);
  }

  /** One added startup item is worth 25 if high and 12 if medium; low and
      safe items are worth nothing. */
  lemma RiskScoreOfOneStartupItem(t: Startup.StartupItem)
    ensures RiskScore([], [], [t]) == match t.risk
                                      case High => 25
                                      case Medium => 12
                                      case Low => 0
                                      case Safe => 0
  {
    assert Points([t], Startup.RiskOf, 25, 12, 0) == Weight(t.risk, 25, 12, 0);
  }

  /** `_get_risk_level`. */
  function RiskLevelFor(score: int): (r: RiskLevel)
    ensures r == High <==> score >= 70
    ensures r == Medium <==> 40 <= score < 70
    ensures r == Low <==> 10 <= score < 40
    ensures r == Safe <==> score < 10
  {
    if score >= 70 then High
    else if score >= 40 then Medium
    else if score >= 10 then Low
    else Safe
  }

  /** A higher score never gives a lower tier. */
  lemma RiskLevelForMonotone(s: int, t: int)
    requires s <= t
    ensures Severity(RiskLevelFor(s)) <= Severity(RiskLevelFor(t))
  {
  }

  // ---------------------------------------------------------------------
  // One comparison (`compare_with_baseline`, lines 183-215)
  // ---------------------------------------------------------------------

  /** What a baseline keeps of the scan it was made from. */
  datatype Snapshot = Snapshot(
    processes: seq<Processes.Process>,
    ports: seq<Ports.Port>,
    startupItems: seq<Startup.StartupItem>,
    fileIntegrity: seq<Integrity.FileCheck>)

  datatype Summary = Summary(
    newProcesses: nat,
    removedProcesses: nat,
    newPorts: nat,
    closedPorts: nat,
    newStartup: nat,
    removedStartup: nat,
    riskScore: nat,
    riskLevel: RiskLevel)

  datatype Differences = Differences(
    processes: Diff<Processes.Process>,
    ports: Diff<Ports.Port>,
    startupItems: Diff<Startup.StartupItem>,
    summary: Summary)

  /** The differences between a baseline and the current scan: processes
      and startup items matched by name, ports by local port. */
  function Differ(base: Snapshot, processes: seq<Processes.Process>, ports: seq<Ports.Port>,
                  startupItems: seq<Startup.StartupItem>): (d: Differences)
    ensures d.processes == CompareLists(base.processes, processes, ProcessKey)
    ensures d.ports == CompareLists(base.ports, ports, PortKey)
    ensures d.startupItems == CompareLists(base.startupItems, startupItems, StartupKey)
    ensures d.summary.newProcesses == |d.processes.added| && d.summary.removedProcesses == |d.processes.removed|
    ensures d.summary.newPorts == |d.ports.added| && d.summary.closedPorts == |d.ports.removed|
    ensures d.summary.newStartup == |d.startupItems.added| && d.summary.removedStartup == |d.startupItems.removed|
    ensures d.summary.riskScore == RiskScore(d.processes.added, d.ports.added, d.startupItems.added)
    ensures d.summary.riskScore <= 100
    ensures d.summary.riskLevel == RiskLevelFor(d.summary.riskScore)
  {
    var dp := CompareLists(base.processes, processes, ProcessKey);
    var dq := CompareLists(base.ports, ports, PortKey);
    var ds := CompareLists(base.startupItems, startupItems, StartupKey);
    var score := RiskScore(dp.added, dq.added, ds.added);
    Differences(dp, dq, ds,
      Summary(|dp.added|, |dp.removed|, |dq.added|, |dq.removed|, |ds.added|, |ds.removed|,
              score, RiskLevelFor(score)))
  }

  /** Comparing a baseline with the very scan it was made from finds
      nothing new, nothing gone, a score of 0 and the safe tier. */
  lemma DifferFromOwnScan(base: Snapshot)
    ensures var d := Differ(base, base.processes, base.ports, base.startupItems);
            && d.summary.newProcesses == 0 && d.summary.removedProcesses == 0
            && d.summary.newPorts == 0 && d.summary.closedPorts == 0
            && d.summary.newStartup == 0 && d.summary.removedStartup == 0
            && d.summary.riskScore == 0 && d.summary.riskLevel == Safe
  {
    CompareWithItself(base.processes, ProcessKey);
    CompareWithItself(base.ports, PortKey);
    CompareWithItself(base.startupItems, StartupKey);
  }

  // ---------------------------------------------------------------------
  // The table of baselines
  // ---------------------------------------------------------------------

  /** The `metrics` column `create_baseline` stores. */
  datatype BaselineMetrics = BaselineMetrics(
    totalProcesses: nat,
    totalPorts: nat,
    totalStartupItems: nat,
    totalFiles: nat,
    safeProcesses: nat,
    safePorts: nat)

  function MetricsOf(s: Snapshot): (m: BaselineMetrics)
    ensures m.totalProcesses == |s.processes| && m.totalPorts == |s.ports|
    ensures m.totalStartupItems == |s.startupItems| && m.totalFiles == |s.fileIntegrity|
    ensures m.safeProcesses <= m.totalProcesses && m.safePorts <= m.totalPorts
    ensures m.safeProcesses == |OfLevel(s.processes, Processes.RiskOf, Safe)|
    ensures m.safePorts == |OfLevel(s.ports, Ports.RiskOf, Safe)|
  {
    BaselineMetrics(|s.processes|, |s.ports|, |s.startupItems|, |s.fileIntegrity|,
                    |OfLevel(s.processes, Processes.RiskOf, Safe)|, |OfLevel(s.ports, Ports.RiskOf, Safe)|)
  }

  /** One row of the `baselines` table. */
  datatype Baseline = Baseline(
    id: int,
    name: string,
    description: string,
    createdAt: int,
    isActive: bool,
    snapshot: Snapshot,
    metrics: BaselineMetrics)

  /** One row of the `baseline_comparisons` table. */
  datatype Comparison = Comparison(baselineId: int, differences: Differences, riskScore: nat)

  /** What `compare_with_baseline` returns. */
  datatype Report = Report(
    baselineId: int,
    baselineName: string,
    baselineCreatedAt: int,
    comparedAt: int,
    differences: Differences)

  function ActiveIds(rows: map<int, Baseline>): set<int>
  {
    set id | id in rows && rows[id].isActive
  }

  predicate AtMostOneActive(rows: map<int, Baseline>)
  {
    forall a, b :: a in ActiveIds(rows) && b in ActiveIds(rows) ==> a == b
  }

  /** The active baseline, if any; with at most one active row there is
      no choice to make. */
  ghost function ActiveBaseline(rows: map<int, Baseline>): (r: Option<Baseline>)
    ensures r.Some? <==> ActiveIds(rows) != {}
    ensures r.Some? ==> exists id :: id in ActiveIds(rows) && rows[id] == r.value
  {
    if exists id :: id in rows && rows[id].isActive then
      var id :| id in rows && rows[id].isActive;
      assert id in ActiveIds(rows);
      Some(rows[id])
    else
      assert ActiveIds(rows) == {} by {
        assert forall k :: k !in ActiveIds(rows);
      }
      None
  }

  /** The baseline a comparison is made against: a missing or zero id
      means the active baseline; an unknown id does not fall back to it. */
  ghost function Target(rows: map<int, Baseline>, baselineId: Option<int>): (r: Option<Baseline>)
    ensures baselineId.Some? && baselineId.value != 0 ==>
              (r.Some? <==> baselineId.value in rows) && (r.Some? ==> r.value == rows[baselineId.value])
    ensures (baselineId.None? || baselineId.value == 0) ==>
              (r.Some? <==> ActiveIds(rows) != {}) && (r.Some? ==> exists id :: id in ActiveIds(rows) && rows[id] == r.value)
  {
    if baselineId.Some? && baselineId.value != 0 then
      (if baselineId.value in rows then Some(rows[baselineId.value]) else None)
    else ActiveBaseline(rows)
  }

  /** The comparisons not made against baseline `id`, in order. */
  function ComparisonsNotFor(comparisons: seq<Comparison>, id: int): seq<Comparison>
  {
    Filter(comparisons, NotFor(id))
  }

  /** The condition `baseline_id != id` on a comparison row. */
  function NotFor(id: int): Comparison -> bool
  {
    (c: Comparison) => c.baselineId != id
  }

  /** The two tables of the baseline database. Row ids come from an
      AUTOINCREMENT counter, so an id is never handed out twice. */
  class BaselineStore {
    var rows: map<int, Baseline>
    var nextId: int
    var comparisons: seq<Comparison>

    ghost predicate Valid()
      reads this
    {
      && nextId >= 1
      && (forall id :: id in rows ==> 1 <= id < nextId && rows[id].id == id)
      && AtMostOneActive(rows)
    }

    /** `_init_database` on an empty database. */
    constructor()
      ensures Valid()
      ensures rows == map[] && nextId == 1 && comparisons == []
    {
      rows := map[];
      nextId := 1;
      comparisons := [];
    }

    /** `create_baseline`: inserts the new row as active, then deactivates
        every other row. */
    method Create(name: string, description: string, snapshot: Snapshot, createdAt: int) returns (b: Baseline)
      requires Valid()
      modifies this
      ensures Valid()
      ensures b == Baseline(old(nextId), name, description, createdAt, true, snapshot, MetricsOf(snapshot))
      ensures b.id !in old(rows)
      ensures rows.Keys == old(rows).Keys + {b.id} && rows[b.id] == b
      ensures forall id :: id in old(rows) ==> rows[id] == old(rows)[id].(isActive := false)
      ensures ActiveIds(rows) == {b.id}
      ensures nextId == old(nextId) + 1 && comparisons == old(comparisons)
    {
      var id := nextId;
      b := Baseline(id, name, description, createdAt, true, snapshot, MetricsOf(snapshot));
      rows := rows[id := b];
      nextId := nextId + 1;
      rows := map k | k in rows :: if k != id then rows[k].(isActive := false) else rows[k];
      assert ActiveIds(rows) == {id};
      assert AtMostOneActive(rows);
      assert forall k :: k in rows ==> 1 <= k < nextId && rows[k].id == k;
    }

    /** `get_active_baseline`. */
    method GetActive() returns (r: Option<Baseline>)
      requires Valid()
      ensures r == ActiveBaseline(rows)
      ensures r.Some? <==> ActiveIds(rows) != {}
      ensures r.Some? ==> ActiveIds(rows) == {r.value.id} && rows[r.value.id] == r.value
    {
      if exists id :: id in rows && rows[id].isActive {
        var id :| id in rows && rows[id].isActive;
        assert id in ActiveIds(rows);
        assert forall k :: k in ActiveIds(rows) <==> k == id;
        r := Some(rows[id]);
        assert ActiveBaseline(rows) == r;
      } else {
        assert forall k :: k !in ActiveIds(rows);
        r := None;
      }
    }

    /** `get_baseline`. */
    method Get(id: int) returns (r: Option<Baseline>)
      requires Valid()
      ensures r.Some? <==> id in rows
      ensures r.Some? ==> r.value == rows[id] && r.value.id == id
    {
      if id in rows {
        r := Some(rows[id]);
      } else {
        r := None;
      }
    }

    /** `set_active_baseline`: deactivates every row, then activates `id`
        if there is such a row. Always reports success. */
    method SetActive(id: int) returns (ok: bool)
      requires Valid()
      modifies this
      ensures Valid() && ok
      ensures rows.Keys == old(rows).Keys
      ensures forall k :: k in rows ==> rows[k] == old(rows)[k].(isActive := k == id)
      ensures ActiveIds(rows) == if id in rows then {id} else {}
      ensures nextId == old(nextId) && comparisons == old(comparisons)
    {
      rows := map k | k in rows :: rows[k].(isActive := false);
      if id in rows {
        rows := rows[id := rows[id].(isActive := true)];
      }
      assert ActiveIds(rows) == if id in rows then {id} else {};
      ok := true;
    }

    /** `delete_baseline`: removes the row and the comparisons made against
        it. Deleting the active baseline leaves none active. Always reports
        success. */
    method Delete(id: int) returns (ok: bool)
      requires Valid()
      modifies this
      ensures Valid() && ok
      ensures rows == old(rows) - {id}
      ensures ActiveIds(rows) == ActiveIds(old(rows)) - {id}
      ensures comparisons == ComparisonsNotFor(old(comparisons), id)
      ensures forall c :: c in comparisons <==> c in old(comparisons) && c.baselineId != id
      ensures nextId == old(nextId)
    {
      comparisons := ComparisonsNotFor(comparisons, id);
      rows := rows - {id};
      assert ActiveIds(rows) == ActiveIds(old(rows)) - {id};
      ok := true;
      forall c ensures c in comparisons <==> c in old(comparisons) && c.baselineId != id {
        FilterMembership(old(comparisons), NotFor(id), c);
      }
    }

    /** The baseline `compare_with_baseline` looks up: the one asked for,
        or the active one when the id is missing or zero. */
    method FindTarget(baselineId: Option<int>) returns (target: Option<Baseline>)
      requires Valid()
      ensures target == Target(rows, baselineId)
      ensures target.Some? ==> target.value.id in rows && rows[target.value.id] == target.value
    {
      if baselineId.Some? && baselineId.value != 0 {
        target := Get(baselineId.value);
      } else {
        target := GetActive();
      }
    }

    /** Saves a comparison after those already made. */
    method Record(c: Comparison)
      requires Valid()
      modifies this
      ensures Valid()
      ensures rows == old(rows) && nextId == old(nextId)
      ensures comparisons == old(comparisons) + [c]
    {
      comparisons := comparisons + [c];
    }

    /** `compare_with_baseline`: without a baseline the comparison fails
        and nothing is recorded; otherwise it is recorded and reported. */
    method CompareWith(baselineId: Option<int>, processes: seq<Processes.Process>, ports: seq<Ports.Port>,
                       startupItems: seq<Startup.StartupItem>, comparedAt: int)
      returns (r: Result<Report>)
      requires Valid()
      modifies this
      ensures Valid()
      ensures rows == old(rows) && nextId == old(nextId)
      ensures r.Failure? <==> Target(rows, baselineId).None?
      ensures r.Failure? ==> r.error == "No baseline found" && comparisons == old(comparisons)
      ensures r.Success? ==>
                var b := Target(rows, baselineId).value;
                var d := Differ(b.snapshot, processes, ports, startupItems);
                && r.value == Report(b.id, b.name, b.createdAt, comparedAt, d)
                && comparisons == old(comparisons) + [Comparison(b.id, d, d.summary.riskScore)]
    {
      var target := FindTarget(baselineId);
      if target.None? {
        return Failure("No baseline found");
      }
      var b := target.value;
      var d := Differ(b.snapshot, processes, ports, startupItems);
      Record(Comparison(b.id, d, d.summary.riskScore));
      r := Success(Report(b.id, b.name, b.createdAt, comparedAt, d));
    }
  }
}
