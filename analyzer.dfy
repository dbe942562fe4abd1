/** backend/security/analyzer.py: the dashboard metrics computed from one
    scan, the alerts raised for risky entries, and the overall security
    score. The identifier of the k-th alert raised (counting from 0) is
    `idOf(k)`, standing for a fresh `uuid4`; the clock reading is a
    parameter. */
module Analyzer {
  import opened Wrappers
  import opened Text
  import opened Seqs
  import opened Risk
  import Processes
  import Ports
  import Startup
  import Integrity

  // ---------------------------------------------------------------------
  // Metrics
  // ---------------------------------------------------------------------

  /** `alerts_count`: how many scanned entries carry each risk tier. */
  datatype AlertCounts = AlertCounts(safe: nat, low: nat, medium: nat, high: nat)

  datatype Metrics = Metrics(
    totalProcesses: nat,
    suspiciousProcesses: nat,
    openPorts: nat,
    highRiskPorts: nat,
    startupItems: nat,
    suspiciousStartup: nat,
    fileChanges: nat,
    alertsCount: AlertCounts,
    lastScan: int)

  predicate SuspiciousProcess(p: Processes.Process)
  {
    p.risk == Medium || p.risk == High
  }

  predicate HighRiskPort(p: Ports.Port)
  {
    p.risk == High
  }

  predicate SuspiciousStartup(s: Startup.StartupItem)
  {
    s.risk == Medium || s.risk == High
  }

  predicate FileChanged(f: Integrity.FileCheck)
  {
    f.status == Integrity.Modified || f.status == Integrity.Missing
  }

  /** The risk tiers of the entries of `s`, in order. */
  function Levels<T>(s: seq<T>, level: T -> RiskLevel): (r: seq<RiskLevel>)
    ensures |r| == |s| && forall i :: 0 <= i < |s| ==> r[i] == level(s[i])
  {
    seq(|s|, i requires 0 <= i < |s| => level(s[i]))
  }

  /** The tiers of every scanned entry: processes, then ports, then startup
      items, then file checks. */
  function AllLevels(processes: seq<Processes.Process>, ports: seq<Ports.Port>,
                     startupItems: seq<Startup.StartupItem>, files: seq<Integrity.FileCheck>): (r: seq<RiskLevel>)
    ensures |r| == |processes| + |ports| + |startupItems| + |files|
  {
    Levels(processes, Processes.RiskOf) + Levels(ports, Ports.RiskOf)
    + Levels(startupItems, Startup.RiskOf) + Levels(files, Integrity.RiskOf)
  }

  /** How many entries of `levels` equal `l`. */
  function Tally(levels: seq<RiskLevel>, l: RiskLevel): (n: nat)
    ensures n <= |levels|
  {
    if levels == [] then 0 else (if levels[0] == l then 1 else 0) + Tally(levels[1..], l)
  }

  lemma {:induction false} TallyAppend(a: seq<RiskLevel>, b: seq<RiskLevel>, l: RiskLevel)
    ensures Tally(a + b, l) == Tally(a, l) + Tally(b, l)
  {
    if a == [] {
      assert a + b == b;
    } else {
      assert (a + b)[0] == a[0] && (a + b)[1..] == a[1..] + b;
      TallyAppend(a[1..], b, l);
    }
  }

  /** Every entry falls in exactly one of the four tiers. */
  lemma {:induction false} TallyTotal(levels: seq<RiskLevel>)
    ensures Tally(levels, Safe) + Tally(levels, Low) + Tally(levels, Medium) + Tally(levels, High) == |levels|
  {
    if levels != [] {
      TallyTotal(levels[1..]);
    }
  }

  /** A comprehension that keeps the entries in one or two tiers counts the
      same entries as the tallies of those tiers. */
  lemma {:induction false} CountIsTally<T>(s: seq<T>, p: T -> bool, level: T -> RiskLevel, l1: RiskLevel, l2: RiskLevel)
    requires forall x :: p(x) <==> level(x) == l1 || level(x) == l2
    ensures Count(s, p) == Tally(Levels(s, level), l1) + (if l1 == l2 then 0 else Tally(Levels(s, level), l2))
  {
    if s != [] {
      assert Levels(s, level)[1..] == Levels(s[1..], level);
      CountIsTally(s[1..], p, level, l1, l2);
    }
  }

  /** `generate_metrics`; `now` is the clock reading stored as `last_scan`. */
  method GenerateMetrics(processes: seq<Processes.Process>, ports: seq<Ports.Port>,
                         startupItems: seq<Startup.StartupItem>, files: seq<Integrity.FileCheck>, now: int)
    returns (m: Metrics)
    ensures m.totalProcesses == |processes| && m.startupItems == |startupItems|
    ensures m.suspiciousProcesses == Count(processes, SuspiciousProcess)
    ensures m.openPorts == Count(ports, Ports.IsListening)
    ensures m.highRiskPorts == Count(ports, HighRiskPort)
    ensures m.suspiciousStartup == Count(startupItems, SuspiciousStartup)
    ensures m.fileChanges == Count(files, FileChanged)
    ensures var all := AllLevels(processes, ports, startupItems, files);
            m.alertsCount == AlertCounts(Tally(all, Safe), Tally(all, Low), Tally(all, Medium), Tally(all, High))
    ensures m.alertsCount.safe + m.alertsCount.low + m.alertsCount.medium + m.alertsCount.high
            == |processes| + |ports| + |startupItems| + |files|
    ensures m.lastScan == now
  {
    var all := AllLevels(processes, ports, startupItems, files);
    var safe, low, medium, high := 0, 0, 0, 0;
    for i := 0 to |all|
      invariant safe == Tally(all[..i], Safe) && low == Tally(all[..i], Low)
      invariant medium == Tally(all[..i], Medium) && high == Tally(all[..i], High)
    {
      var risk := all[i];
      assert all[..i + 1] == all[..i] + [risk];
      TallyAppend(all[..i], [risk], Safe);
      TallyAppend(all[..i], [risk], Low);
      TallyAppend(all[..i], [risk], Medium);
      TallyAppend(all[..i], [risk], High);
      match risk
      case Safe => safe := safe + 1;
      case Low => low := low + 1;
      case Medium => medium := medium + 1;
      case High => high := high + 1;
    }
    assert all[..|all|] == all;
    TallyTotal(all);
    m := Metrics(
      |processes|,
      Count(processes, SuspiciousProcess),
      Count(ports, Ports.IsListening),
      Count(ports, HighRiskPort),
      |startupItems|,
      Count(startupItems, SuspiciousStartup),
      Count(files, FileChanged),
      AlertCounts(safe, low, medium, high),
      now);
  }

  /** The suspicious counts are the medium and high tallies of their own
      list, so they never exceed the medium and high tallies over all
      entries; likewise the high-risk ports among the high tally. */
  lemma SuspiciousWithinTallies(processes: seq<Processes.Process>, ports: seq<Ports.Port>,
                                startupItems: seq<Startup.StartupItem>, files: seq<Integrity.FileCheck>)
    ensures var all := AllLevels(processes, ports, startupItems, files);
            && Count(processes, SuspiciousProcess) + Count(startupItems, SuspiciousStartup)
               <= Tally(all, Medium) + Tally(all, High)
            && Count(ports, HighRiskPort) <= Tally(all, High)
  {
    var lp, lo, ls, lf := Levels(processes, Processes.RiskOf), Levels(ports, Ports.RiskOf),
                          Levels(startupItems, Startup.RiskOf), Levels(files, Integrity.RiskOf);
    CountIsTally(processes, SuspiciousProcess, Processes.RiskOf, Medium, High);
    CountIsTally(ports, HighRiskPort, Ports.RiskOf, High, High);
    CountIsTally(startupItems, SuspiciousStartup, Startup.RiskOf, Medium, High);
    forall l: RiskLevel
      ensures Tally(lp + lo + ls + lf, l) == Tally(lp, l) + Tally(lo, l) + Tally(ls, l) + Tally(lf, l)
    {
      TallyAppend(lp + lo + ls, lf, l);
      TallyAppend(lp + lo, ls, l);
      TallyAppend(lp, lo, l);
    }
  }

  /** Each check `scan_file_integrity` produces is high risk when the file
      changed, so the file changes are among the high tally. */
  lemma FileChangesAreHighRisk(files: seq<Integrity.FileCheck>, fs: Integrity.FileSystem,
                               baseline: map<string, string>, paths: seq<string>)
    requires |files| == |paths|
    requires forall i :: 0 <= i < |paths| ==> files[i] == Integrity.CheckFile(paths[i], fs, baseline)
    ensures Count(files, FileChanged) <= Tally(Levels(files, Integrity.RiskOf), High)
  {
    forall i | 0 <= i < |files|
      ensures FileChanged(files[i]) ==> files[i].risk == High
    {
    }
    CountIsTally(files, FileRiskHigh, Integrity.RiskOf, High, High);
    FilterSubset(files, FileChanged, FileRiskHigh);
  }

  predicate FileRiskHigh(f: Integrity.FileCheck)
  {
    f.risk == High
  }

  /** Filtering by a weaker condition keeps at least as many entries. */
  lemma {:induction false} FilterSubset<T>(s: seq<T>, p: T -> bool, q: T -> bool)
    requires forall i :: 0 <= i < |s| && p(s[i]) ==> q(s[i])
    ensures Count(s, p) <= Count(s, q)
  {
    if s != [] {
      FilterSubset(s[1..], p, q);
    }
  }

  // ---------------------------------------------------------------------
  // Alerts
  // ---------------------------------------------------------------------

  datatype AlertType = ProcessAlert | PortAlert | StartupAlert | FileAlert

  /** An alert before it is given an identifier and a time. */
  datatype Draft = Draft(kind: AlertType, severity: RiskLevel, title: string)

  datatype Alert = Alert(
    id: string,
    kind: AlertType,
    severity: RiskLevel,
    title: string,
    timestamp: int,
    resolved: bool)

  /** `str(port['local_port'])`, which reads "None" for a socket without a
      local address. */
  function PortLabel(port: Option<nat>): string
  {
    match port
    case None => "None"
    case Some(n) => NatToString(n)
  }

  predicate AlertingPort(p: Ports.Port)
  {
    p.risk == Medium || p.risk == High
  }

  predicate HighRiskStartup(s: Startup.StartupItem)
  {
    s.risk == High
  }

  /** The alert raised for a process: one for high and medium risk. */
  function ProcessDraft(p: Processes.Process): (d: seq<Draft>)
    ensures |d| == if SuspiciousProcess(p) then 1 else 0
    ensures d != [] ==> d[0].kind == ProcessAlert && d[0].severity == p.risk
  {
    if p.risk == High then [Draft(ProcessAlert, High, "Suspicious Process: " + p.name)]
    else if p.risk == Medium then [Draft(ProcessAlert, Medium, "High Resource Usage: " + p.name)]
    else []
  }

  /** The alert raised for a port: one for high and medium risk. */
  function PortDraft(p: Ports.Port): (d: seq<Draft>)
    ensures |d| == if AlertingPort(p) then 1 else 0
    ensures d != [] ==> d[0].kind == PortAlert && d[0].severity == p.risk
  {
    if p.risk == High then [Draft(PortAlert, High, "High-Risk Port Open: " + PortLabel(p.localPort))]
    else if p.risk == Medium then [Draft(PortAlert, Medium, "Potentially Vulnerable Port: " + PortLabel(p.localPort))]
    else []
  }

  /** The alert raised for a startup item: one for high risk only. */
  function StartupDraft(s: Startup.StartupItem): (d: seq<Draft>)
    ensures |d| == if HighRiskStartup(s) then 1 else 0
    ensures d != [] ==> d[0].kind == StartupAlert && d[0].severity == High
  {
    if s.risk == High then [Draft(StartupAlert, High, "Suspicious Startup Item: " + s.name)] else []
  }

  /** The alert raised for a file check: one, always high, for a modified or
      missing file, whatever risk the check itself carries. */
  function FileDraft(f: Integrity.FileCheck): (d: seq<Draft>)
    ensures |d| == if FileChanged(f) then 1 else 0
    ensures d != [] ==> d[0].kind == FileAlert && d[0].severity == High
  {
    if f.status == Integrity.Modified then [Draft(FileAlert, High, "Critical File Modified")]
    else if f.status == Integrity.Missing then [Draft(FileAlert, High, "Critical File Missing")]
    else []
  }

  /** The alerts in the order the four loops raise them. */
  function Drafts(processes: seq<Processes.Process>, ports: seq<Ports.Port>,
                  startupItems: seq<Startup.StartupItem>, files: seq<Integrity.FileCheck>): (d: seq<Draft>)
    ensures |d| == Count(processes, SuspiciousProcess) + Count(ports, AlertingPort)
                   + Count(startupItems, HighRiskStartup) + Count(files, FileChanged)
    ensures forall k :: 0 <= k < |d| ==> WellRaised(d[k])
  {
    var dp, dq, ds, df := FlatMap(processes, ProcessDraft), FlatMap(ports, PortDraft),
                          FlatMap(startupItems, StartupDraft), FlatMap(files, FileDraft);
    FlatMapLength(processes, ProcessDraft, SuspiciousProcess);
    FlatMapLength(ports, PortDraft, AlertingPort);
    FlatMapLength(startupItems, StartupDraft, HighRiskStartup);
    FlatMapLength(files, FileDraft, FileChanged);
    ProcessDraftsWellRaised(processes);
    PortDraftsWellRaised(ports);
    StartupDraftsWellRaised(startupItems);
    FileDraftsWellRaised(files);
    AllWellRaised(dp, dq);
    AllWellRaised(dp + dq, ds);
    AllWellRaised(dp + dq + ds, df);
    dp + dq + ds + df
  }

  /** The `k`-th raised alert, with its identifier and time. */
  function Issue(k: nat, d: Draft, idOf: nat -> string, timestamp: int): Alert
  {
    Alert(idOf(k), d.kind, d.severity, d.title, timestamp, false)
  }

  /** The issued alerts for `drafts`. */
  function IssueAll(drafts: seq<Draft>, idOf: nat -> string, timestamp: int): (raw: seq<Alert>)
    ensures |raw| == |drafts|
    ensures forall k :: 0 <= k < |raw| ==> raw[k] == Issue(k, drafts[k], idOf, timestamp)
  {
    seq(|drafts|, k requires 0 <= k < |drafts| => Issue(k, drafts[k], idOf, timestamp))
  }

  function AlertSeverity(a: Alert): RiskLevel { a.severity }

  /** The alerts raised before sorting. */
  function RawAlerts(processes: seq<Processes.Process>, ports: seq<Ports.Port>,
                     startupItems: seq<Startup.StartupItem>, files: seq<Integrity.FileCheck>,
                     idOf: nat -> string, timestamp: int): (raw: seq<Alert>)
    ensures |raw| == |Drafts(processes, ports, startupItems, files)|
    ensures forall k :: 0 <= k < |raw| ==>
              raw[k].id == idOf(k) && raw[k].timestamp == timestamp && !raw[k].resolved
              && raw[k].severity in {Medium, High}
  {
    IssueAll(Drafts(processes, ports, startupItems, files), idOf, timestamp)
  }

  /** Appending the alerts of one more entry to the issued alerts issues
      them at the next positions. */
  lemma IssueMore(drafts: seq<Draft>, more: seq<Draft>, idOf: nat -> string, timestamp: int)
    requires |more| <= 1
    ensures IssueAll(drafts + more, idOf, timestamp)
            == IssueAll(drafts, idOf, timestamp)
               + (if more == [] then [] else [Issue(|drafts|, more[0], idOf, timestamp)])
  {
  }

  /** One of the four loops of `generate_alerts`: walks `s` in order and
      appends the alert `draft` gives for each entry, if any, numbering it
      by its position among all alerts raised so far. */
  method RaiseAlerts<T>(s: seq<T>, draft: T -> seq<Draft>, raw: seq<Alert>, ghost before: seq<Draft>,
                        idOf: nat -> string, timestamp: int)
    returns (raw': seq<Alert>)
    requires forall x :: |draft(x)| <= 1
    requires raw == IssueAll(before, idOf, timestamp)
    ensures raw' == IssueAll(before + FlatMap(s, draft), idOf, timestamp)
  {
    raw' := raw;
    for i := 0 to |s|
      invariant raw' == IssueAll(before + FlatMap(s[..i], draft), idOf, timestamp)
    {
      var more := draft(s[i]);
      FlatMapSnoc(s, i, draft);
      IssueMore(before + FlatMap(s[..i], draft), more, idOf, timestamp);
      if more != [] {
        raw' := raw' + [Issue(|raw'|, more[0], idOf, timestamp)];
      }
      assert before + FlatMap(s[..i + 1], draft) == before + FlatMap(s[..i], draft) + more;
    }
    assert s[..|s|] == s;
  }

  /** `generate_alerts`: raises one alert per high or medium process, per
      high or medium port, per high startup item and per modified or missing
      file, in that order, then sorts them stably from high to safe. */
  method GenerateAlerts(processes: seq<Processes.Process>, ports: seq<Ports.Port>,
                        startupItems: seq<Startup.StartupItem>, files: seq<Integrity.FileCheck>,
                        idOf: nat -> string, timestamp: int)
    returns (alerts: seq<Alert>)
    ensures alerts == WorstFirst(RawAlerts(processes, ports, startupItems, files, idOf, timestamp), AlertSeverity)
    ensures |alerts| == Count(processes, SuspiciousProcess) + Count(ports, AlertingPort)
                        + Count(startupItems, HighRiskStartup) + Count(files, FileChanged)
    ensures IsWorstFirst(alerts, AlertSeverity)
    ensures multiset(alerts) == multiset(RawAlerts(processes, ports, startupItems, files, idOf, timestamp))
    ensures forall l :: OfLevel(alerts, AlertSeverity, l)
                        == OfLevel(RawAlerts(processes, ports, startupItems, files, idOf, timestamp), AlertSeverity, l)
    ensures forall a :: a in alerts ==> a.severity in {Medium, High} && !a.resolved && a.timestamp == timestamp
    ensures forall a :: a in alerts && a.kind == FileAlert ==> a.severity == High
  {
    ghost var dp, dq, ds := FlatMap(processes, ProcessDraft), FlatMap(ports, PortDraft), FlatMap(startupItems, StartupDraft);
    var raw: seq<Alert> := [];
    assert [] + dp == dp;
    raw := RaiseAlerts(processes, ProcessDraft, raw, [], idOf, timestamp);
    raw := RaiseAlerts(ports, PortDraft, raw, dp, idOf, timestamp);
    raw := RaiseAlerts(startupItems, StartupDraft, raw, dp + dq, idOf, timestamp);
    raw := RaiseAlerts(files, FileDraft, raw, dp + dq + ds, idOf, timestamp);
    assert raw == RawAlerts(processes, ports, startupItems, files, idOf, timestamp);
    alerts := WorstFirst(raw, AlertSeverity);
    SortedAlertFacts(processes, ports, startupItems, files, idOf, timestamp);
  }

  /** What sorting the raised alerts keeps and establishes. */
  lemma SortedAlertFacts(processes: seq<Processes.Process>, ports: seq<Ports.Port>,
                         startupItems: seq<Startup.StartupItem>, files: seq<Integrity.FileCheck>,
                         idOf: nat -> string, timestamp: int)
    ensures var raw := RawAlerts(processes, ports, startupItems, files, idOf, timestamp);
            var alerts := WorstFirst(raw, AlertSeverity);
            && |alerts| == Count(processes, SuspiciousProcess) + Count(ports, AlertingPort)
                           + Count(startupItems, HighRiskStartup) + Count(files, FileChanged)
            && IsWorstFirst(alerts, AlertSeverity)
            && multiset(alerts) == multiset(raw)
            && (forall l :: OfLevel(alerts, AlertSeverity, l) == OfLevel(raw, AlertSeverity, l))
            && (forall a :: a in alerts ==> a.severity in {Medium, High} && !a.resolved && a.timestamp == timestamp)
            && (forall a :: a in alerts && a.kind == FileAlert ==> a.severity == High)
  {
    var raw := RawAlerts(processes, ports, startupItems, files, idOf, timestamp);
    var alerts := WorstFirst(raw, AlertSeverity);
    RawAlertFacts(processes, ports, startupItems, files, idOf, timestamp);
    WorstFirstSorted(raw, AlertSeverity);
    WorstFirstPermutation(raw, AlertSeverity);
    forall l ensures OfLevel(alerts, AlertSeverity, l) == OfLevel(raw, AlertSeverity, l) {
      WorstFirstStable(raw, AlertSeverity, l);
    }
    forall a | a in alerts ensures a in raw {
      assert a in multiset(alerts);
    }
  }

  /** How many alerts are raised and what every one of them looks like,
      before sorting. */
  lemma RawAlertFacts(processes: seq<Processes.Process>, ports: seq<Ports.Port>,
                      startupItems: seq<Startup.StartupItem>, files: seq<Integrity.FileCheck>,
                      idOf: nat -> string, timestamp: int)
    ensures var raw := RawAlerts(processes, ports, startupItems, files, idOf, timestamp);
            && |raw| == Count(processes, SuspiciousProcess) + Count(ports, AlertingPort)
                        + Count(startupItems, HighRiskStartup) + Count(files, FileChanged)
            && (forall a :: a in raw ==> a.severity in {Medium, High} && !a.resolved && a.timestamp == timestamp)
            && (forall a :: a in raw && a.kind == FileAlert ==> a.severity == High)
  {
    var drafts := Drafts(processes, ports, startupItems, files);
    var raw := IssueAll(drafts, idOf, timestamp);
    forall a | a in raw
      ensures a.severity in {Medium, High} && !a.resolved && a.timestamp == timestamp
      ensures a.kind == FileAlert ==> a.severity == High
    {
      var k :| 0 <= k < |raw| && raw[k] == a;
      assert WellRaised(drafts[k]);
    }
  }

  lemma ProcessDraftsWellRaised(processes: seq<Processes.Process>)
    ensures forall k :: 0 <= k < |FlatMap(processes, ProcessDraft)| ==> WellRaised(FlatMap(processes, ProcessDraft)[k])
  {
    FlatMapAll(processes, ProcessDraft, WellRaised);
  }

  lemma PortDraftsWellRaised(ports: seq<Ports.Port>)
    ensures forall k :: 0 <= k < |FlatMap(ports, PortDraft)| ==> WellRaised(FlatMap(ports, PortDraft)[k])
  {
    FlatMapAll(ports, PortDraft, WellRaised);
  }

  lemma StartupDraftsWellRaised(startupItems: seq<Startup.StartupItem>)
    ensures forall k :: 0 <= k < |FlatMap(startupItems, StartupDraft)| ==> WellRaised(FlatMap(startupItems, StartupDraft)[k])
  {
    FlatMapAll(startupItems, StartupDraft, WellRaised);
  }

  lemma FileDraftsWellRaised(files: seq<Integrity.FileCheck>)
    ensures forall k :: 0 <= k < |FlatMap(files, FileDraft)| ==> WellRaised(FlatMap(files, FileDraft)[k])
  {
    FlatMapAll(files, FileDraft, WellRaised);
  }

  lemma AllWellRaised(a: seq<Draft>, b: seq<Draft>)
    requires forall k :: 0 <= k < |a| ==> WellRaised(a[k])
    requires forall k :: 0 <= k < |b| ==> WellRaised(b[k])
    ensures forall k :: 0 <= k < |a + b| ==> WellRaised((a + b)[k])
  {
    forall k | 0 <= k < |a + b| ensures WellRaised((a + b)[k]) {
      if k >= |a| {
        assert (a + b)[k] == b[k - |a|];
      }
    }
  }

  /** What every raised alert satisfies: medium or high, and high when it is
      about a file. */
  predicate WellRaised(d: Draft)
  {
    (d.severity == Medium || d.severity == High) && (d.kind == FileAlert ==> d.severity == High)
  }

  // ---------------------------------------------------------------------
  // Security score
  // ---------------------------------------------------------------------

  /** `min(count * per, cap)`. */
  function Deduction(count: nat, per: nat, cap: nat): (d: nat)
    ensures d <= cap && d <= count * per
    ensures count * per <= cap ==> d == count * per
    ensures cap <= count * per ==> d == cap
    ensures d == 0 <==> count == 0 || per == 0 || cap == 0
  {
    if count * per < cap then count * per else cap
  }

  /** The score of `calculate_security_score`: 100, less at most 30 for
      suspicious processes, 40 for high-risk ports, 15 for suspicious
      startup items and 40 for file changes, and never below 0. */
  function SecurityScore(m: Metrics): (score: int)
    ensures 0 <= score <= 100
    ensures score == 100 <==>
              m.suspiciousProcesses == 0 && m.highRiskPorts == 0 && m.suspiciousStartup == 0 && m.fileChanges == 0
  {
    var raw := 100 - Deduction(m.suspiciousProcesses, 10, 30) - Deduction(m.highRiskPorts, 15, 40)
               - Deduction(m.suspiciousStartup, 5, 15) - Deduction(m.fileChanges, 20, 40);
    if raw < 0 then 0 else raw
  }

  /** `calculate_security_score`, deducting step by step. */
  method CalculateSecurityScore(m: Metrics) returns (score: int)
    ensures score == SecurityScore(m)
    ensures 0 <= score <= 100
  {
    score := 100;
    score := score - Deduction(m.suspiciousProcesses, 10, 30);
    score := score - Deduction(m.highRiskPorts, 15, 40);
    score := score - Deduction(m.suspiciousStartup, 5, 15);
    score := score - Deduction(m.fileChanges, 20, 40);
    if score < 0 {
      score := 0;
    }
  }

  /** More findings never raise the score. */
  lemma SecurityScoreAntitone(m: Metrics, m': Metrics)
    requires m.suspiciousProcesses <= m'.suspiciousProcesses && m.highRiskPorts <= m'.highRiskPorts
    requires m.suspiciousStartup <= m'.suspiciousStartup && m.fileChanges <= m'.fileChanges
    ensures SecurityScore(m') <= SecurityScore(m)
  {
    DeductionMonotone(m.suspiciousProcesses, m'.suspiciousProcesses, 10, 30);
    DeductionMonotone(m.highRiskPorts, m'.highRiskPorts, 15, 40);
    DeductionMonotone(m.suspiciousStartup, m'.suspiciousStartup, 5, 15);
    DeductionMonotone(m.fileChanges, m'.fileChanges, 20, 40);
  }

  lemma DeductionMonotone(c: nat, c': nat, per: nat, cap: nat)
    requires c <= c'
    ensures Deduction(c, per, cap) <= Deduction(c', per, cap)
  {
    assert c * per <= c' * per;
  }

  /** Once every deduction is at its cap the deductions add up to 125 and
      the score is clamped to 0; below the caps each finding costs its full
      weight. */
  lemma SecurityScoreCaps(m: Metrics)
    ensures (m.suspiciousProcesses >= 3 && m.highRiskPorts >= 3 && m.suspiciousStartup >= 3
             && m.fileChanges >= 2) ==> SecurityScore(m) == 0
    ensures (m.suspiciousProcesses <= 3 && m.highRiskPorts <= 2 && m.suspiciousStartup <= 3
             && m.fileChanges <= 2
             && 10 * m.suspiciousProcesses + 15 * m.highRiskPorts + 5 * m.suspiciousStartup
                + 20 * m.fileChanges <= 100) ==>
              SecurityScore(m) == 100 - 10 * m.suspiciousProcesses - 15 * m.highRiskPorts
                                  - 5 * m.suspiciousStartup - 20 * m.fileChanges
  {
  }
}
