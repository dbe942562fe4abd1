/** src/utils/securityUtils.ts: the client's presentation rules for risk
    tiers (text colour and badge variant), the minimum-severity filter, the
    worst-first sort, the overall system status and the one-line scan
    summary. The metrics the client receives are the backend's `Metrics`. */
module SecurityUtils {
  import opened Text
  import opened Seqs
  import opened Risk
  import Analyzer

  // ---------------------------------------------------------------------
  // Lookup tables
  // ---------------------------------------------------------------------

  /** `getRiskColor`. The table covers all four tiers, so the fallback
      'text-muted-foreground' is never returned. */
  function RiskColor(r: RiskLevel): (c: string)
    ensures c == "text-success" <==> r == Safe
    ensures c == "text-warning" <==> r == Low || r == Medium
    ensures c == "text-destructive" <==> r == High
    ensures c != "text-muted-foreground"
  {
    match r
    case Safe => "text-success"
    case Low => "text-warning"
    case Medium => "text-warning"
    case High => "text-destructive"
  }

  datatype BadgeVariant = Default | Secondary | Destructive | Outline

  /** `getRiskBadgeVariant`. Every tier has its own entry, so the fallback
      'default' is reached only through the medium entry. */
  function RiskBadgeVariant(r: RiskLevel): (v: BadgeVariant)
    ensures v == Secondary <==> r == Safe
    ensures v == Outline <==> r == Low
    ensures v == Default <==> r == Medium
    ensures v == Destructive <==> r == High
  {
    match r
    case Safe => Secondary
    case Low => Outline
    case Medium => Default
    case High => Destructive
  }

  /** Distinct tiers get distinct badges. */
  lemma RiskBadgeVariantInjective(a: RiskLevel, b: RiskLevel)
    requires RiskBadgeVariant(a) == RiskBadgeVariant(b)
    ensures a == b
  {
  }

  /** The `riskOrder` table of `filterByRiskLevel`. */
  function FilterRank(r: RiskLevel): nat
  {
    match r
    case Safe => 0
    case Low => 1
    case Medium => 2
    case High => 3
  }

  /** The `riskOrder` table of `sortByRisk`. */
  function SortRank(r: RiskLevel): nat
  {
    match r
    case High => 0
    case Medium => 1
    case Low => 2
    case Safe => 3
  }

  /** The two tables are exact reverses of each other and both follow the
      tier order safe < low < medium < high: the filter ranks by severity,
      the sort by its complement. */
  lemma RankTablesAgree(a: RiskLevel, b: RiskLevel)
    ensures FilterRank(a) == Severity(a)
    ensures SortRank(a) == 3 - FilterRank(a)
    ensures FilterRank(a) <= FilterRank(b) <==> SortRank(b) <= SortRank(a)
    ensures FilterRank(a) == FilterRank(b) <==> a == b
  {
  }

  // ---------------------------------------------------------------------
  // Filtering and sorting
  // ---------------------------------------------------------------------

  /** The filter condition `riskOrder[item.risk_level] >= minLevel`. */
  function AtLeast<T>(level: T -> RiskLevel, minRisk: RiskLevel): T -> bool
  {
    x => FilterRank(level(x)) >= FilterRank(minRisk)
  }

  /** `filterByRiskLevel(items, minRisk)`: the items at least as severe as
      `minRisk`, in their original order. */
  function FilterByRiskLevel<T(!new)>(items: seq<T>, level: T -> RiskLevel, minRisk: RiskLevel): (r: seq<T>)
    ensures forall x :: x in r <==> x in items && Severity(level(x)) >= Severity(minRisk)
    ensures forall i :: 0 <= i < |r| ==> Severity(level(r[i])) >= Severity(minRisk)
  {
    var r := Filter(items, AtLeast(level, minRisk));
    forall x ensures x in r <==> x in items && Severity(level(x)) >= Severity(minRisk) {
      FilterMembership(items, AtLeast(level, minRisk), x);
    }
    r
  }

  /** `filterByRiskLevel(items)`: the default minimum is 'low'. */
  function FilterByDefaultRiskLevel<T(!new)>(items: seq<T>, level: T -> RiskLevel): (r: seq<T>)
    ensures forall x :: x in r <==> x in items && level(x) != Safe
  {
    FilterByRiskLevel(items, level, Low)
  }

  /** The filter keeps the input order: filtering the two halves of a list
      and concatenating gives the filtering of the whole. */
  lemma FilterByRiskLevelKeepsOrder<T(!new)>(a: seq<T>, b: seq<T>, level: T -> RiskLevel, minRisk: RiskLevel)
    ensures FilterByRiskLevel(a + b, level, minRisk)
            == FilterByRiskLevel(a, level, minRisk) + FilterByRiskLevel(b, level, minRisk)
  {
    FilterAppend(a, b, AtLeast(level, minRisk));
  }

  /** A minimum of 'safe' keeps every item. */
  lemma FilterBySafeKeepsAll<T(!new)>(items: seq<T>, level: T -> RiskLevel)
    ensures FilterByRiskLevel(items, level, Safe) == items
  {
    FilterKeepsAll(items, AtLeast(level, Safe));
  }

  /** A minimum of 'high' keeps exactly the high tier, in order. */
  lemma FilterByHighIsHighTier<T(!new)>(items: seq<T>, level: T -> RiskLevel)
    ensures FilterByRiskLevel(items, level, High) == OfLevel(items, level, High)
  {
    FilterCongruent(items, AtLeast(level, High), x => level(x) == High);
  }

  /** Filtering with one minimum and then a higher one is the same as
      filtering with the higher one directly. */
  lemma FilterByRiskLevelNested<T(!new)>(items: seq<T>, level: T -> RiskLevel, lo: RiskLevel, hi: RiskLevel)
    requires Severity(lo) <= Severity(hi)
    ensures FilterByRiskLevel(FilterByRiskLevel(items, level, lo), level, hi) == FilterByRiskLevel(items, level, hi)
  {
    RankTablesAgree(lo, hi);
    FilterOfFilter(items, AtLeast(level, lo), AtLeast(level, hi));
  }

  /** Ascending in the sort table, as `sortByRisk`'s comparator
      `riskOrder[a] - riskOrder[b]` orders them. */
  ghost predicate SortedByRank<T>(s: seq<T>, level: T -> RiskLevel)
  {
    forall i, j :: 0 <= i < j < |s| ==> SortRank(level(s[i])) <= SortRank(level(s[j]))
  }

  /** `sortByRisk`: a stable sort of a copy of `items` by the sort table.
      The result is a permutation of the input, ordered high, medium, low,
      safe, and keeps the input order within each tier; the input, a value
      here, is left as it was. */
  function SortByRisk<T>(items: seq<T>, level: T -> RiskLevel): (r: seq<T>)
    ensures |r| == |items| && multiset(r) == multiset(items)
    ensures SortedByRank(r, level)
    ensures forall l :: OfLevel(r, level, l) == OfLevel(items, level, l)
  {
    var r := WorstFirst(items, level);
    WorstFirstPermutation(items, level);
    WorstFirstSorted(items, level);
    forall l ensures OfLevel(r, level, l) == OfLevel(items, level, l) {
      WorstFirstStable(items, level, l);
    }
    r
  }

  /** The stable sort is unique: any ascending arrangement by the sort
      table that keeps each tier's input order is `sortByRisk`'s result. */
  lemma SortByRiskUnique<T>(items: seq<T>, t: seq<T>, level: T -> RiskLevel)
    requires SortedByRank(t, level)
    requires forall l :: OfLevel(t, level, l) == OfLevel(items, level, l)
    ensures t == SortByRisk(items, level)
  {
    assert IsWorstFirst(t, level) by {
      forall i, j | 0 <= i < j < |t|
        ensures Severity(level(t[i])) >= Severity(level(t[j]))
      {
        RankTablesAgree(level(t[i]), level(t[j]));
      }
    }
    WorstFirstUnique(items, t, level);
  }

  /** Sorting an already sorted list changes nothing. */
  lemma SortByRiskIdempotent<T>(items: seq<T>, level: T -> RiskLevel)
    ensures SortByRisk(SortByRisk(items, level), level) == SortByRisk(items, level)
  {
    var s := SortByRisk(items, level);
    SortByRiskUnique(s, s, level);
  }

  // ---------------------------------------------------------------------
  // System status
  // ---------------------------------------------------------------------

  datatype Status = Critical | Warning | Secure

  datatype SystemStatus = SystemStatus(status: Status, color: string, message: string)

  /** `getSystemStatus`: decided by the high and medium alert counts alone. */
  function GetSystemStatus(metrics: Analyzer.Metrics): (s: SystemStatus)
    ensures s.status == Critical <==> metrics.alertsCount.high > 0
    ensures s.status == Warning <==> metrics.alertsCount.high == 0 && metrics.alertsCount.medium > 3
    ensures s.status == Secure <==> metrics.alertsCount.high == 0 && metrics.alertsCount.medium <= 3
  {
    var highAlerts := metrics.alertsCount.high;
    var mediumAlerts := metrics.alertsCount.medium;
    if highAlerts > 0 then
      SystemStatus(Critical, "text-destructive",
        NatToString(highAlerts) + " critical security issue" + (if highAlerts > 1 then "s" else "") + " detected")
    else if mediumAlerts > 3 then
      SystemStatus(Warning, "text-warning", NatToString(mediumAlerts) + " security warnings detected")
    else
      SystemStatus(Secure, "text-success", "System security is optimal")
  }

  /** The status colour is the colour of the matching risk tier: critical
      as high, warning as medium, secure as safe. */
  lemma StatusColorIsRiskColor(metrics: Analyzer.Metrics)
    ensures var s := GetSystemStatus(metrics);
            s.color == RiskColor(match s.status
                                 case Critical => High
                                 case Warning => Medium
                                 case Secure => Safe)
  {
  }

  /** A critical message starts with the number of high alerts, which reads
      back as that number, and says "issue" in the singular exactly when
      there is one: the letter before " detected" is then the final 'e' of
      "issue", otherwise the plural 's'. */
  lemma CriticalMessageCounts(metrics: Analyzer.Metrics)
    requires metrics.alertsCount.high > 0
    ensures var msg := GetSystemStatus(metrics).message;
            var digits := NatToString(metrics.alertsCount.high);
            && digits <= msg
            && DigitsValue(digits) == metrics.alertsCount.high
            && |msg| >= |digits| + 33
            && msg[|msg| - 10] == (if metrics.alertsCount.high == 1 then 'e' else 's')
            && (|msg| == |digits| + 33 <==> metrics.alertsCount.high == 1)
  {
    var n := metrics.alertsCount.high;
    var digits := NatToString(n);
    DigitsValueOfNatToString(n);
    var msg := GetSystemStatus(metrics).message;
    var head := digits + " critical security issue";
    var tail := (if n > 1 then "s" else "") + " detected";
    assert msg == head + tail;
    assert digits <= msg by {
      assert msg[..|digits|] == digits;
    }
    assert msg[|msg| - 10] == if n > 1 then 's' else head[|head| - 1];
  }

  /** More high alerts never make the status better. */
  lemma StatusMonotoneInHigh(m0: Analyzer.Metrics, m1: Analyzer.Metrics)
    requires m0.alertsCount.high <= m1.alertsCount.high
    requires m0.alertsCount.medium == m1.alertsCount.medium
    ensures GetSystemStatus(m0).status == Critical ==> GetSystemStatus(m1).status == Critical
    ensures GetSystemStatus(m1).status == Secure ==> GetSystemStatus(m0).status == Secure
  {
  }

  // ---------------------------------------------------------------------
  // Scan summary
  // ---------------------------------------------------------------------

  function ProcessIssue(n: nat): string { NatToString(n) + " suspicious processes" }

  function PortIssue(n: nat): string { NatToString(n) + " high-risk ports" }

  function StartupIssue(n: nat): string { NatToString(n) + " suspicious startup items" }

  /** The `issues` list of `generateSummary`: one entry per non-zero count,
      processes first, then ports, then startup items. */
  function Issues(metrics: Analyzer.Metrics): (issues: seq<string>)
    ensures |issues| == (if metrics.suspiciousProcesses > 0 then 1 else 0)
                        + (if metrics.highRiskPorts > 0 then 1 else 0)
                        + (if metrics.suspiciousStartup > 0 then 1 else 0)
    ensures metrics.suspiciousProcesses > 0 ==> issues[0] == ProcessIssue(metrics.suspiciousProcesses)
    ensures metrics.suspiciousStartup > 0 ==> issues[|issues| - 1] == StartupIssue(metrics.suspiciousStartup)
    ensures metrics.highRiskPorts > 0 ==>
              PortIssue(metrics.highRiskPorts) == issues[if metrics.suspiciousProcesses > 0 then 1 else 0]
  {
    (if metrics.suspiciousProcesses > 0 then [ProcessIssue(metrics.suspiciousProcesses)] else [])
    + (if metrics.highRiskPorts > 0 then [PortIssue(metrics.highRiskPorts)] else [])
    + (if metrics.suspiciousStartup > 0 then [StartupIssue(metrics.suspiciousStartup)] else [])
  }

  /** `generateSummary`. */
  function GenerateSummary(metrics: Analyzer.Metrics): (summary: string)
    ensures summary == "No security issues detected" <==>
              metrics.suspiciousProcesses == 0 && metrics.highRiskPorts == 0 && metrics.suspiciousStartup == 0
    ensures |Issues(metrics)| > 0 ==> summary == "Found: " + Join(Issues(metrics), ", ")
  {
    var issues := Issues(metrics);
    if |issues| == 0 then "No security issues detected"
    else
      var s := "Found: " + Join(issues, ", ");
      assert s[0] == 'F';
      s
  }

  /** Every non-zero count is reported in the summary, with its number. */
  lemma SummaryMentionsEveryIssue(metrics: Analyzer.Metrics)
    ensures metrics.suspiciousProcesses > 0 ==>
              Contains(GenerateSummary(metrics), ProcessIssue(metrics.suspiciousProcesses))
    ensures metrics.highRiskPorts > 0 ==>
              Contains(GenerateSummary(metrics), PortIssue(metrics.highRiskPorts))
    ensures metrics.suspiciousStartup > 0 ==>
              Contains(GenerateSummary(metrics), StartupIssue(metrics.suspiciousStartup))
  {
    var issues := Issues(metrics);
    forall k | 0 <= k < |issues|
      ensures Contains(GenerateSummary(metrics), issues[k])
    {
      var joined := Join(issues, ", ");
      var s := "Found: " + joined;
      JoinContainsPart(issues, ", ", k);
      assert s[7..] == joined;
      ContainsSlice(s, 7, |s|);
      ContainsTransitive(s, joined, issues[k]);
    }
  }
}
