/** backend/security/processes.py: the risk rule applied to each running
    process. Enumerating processes with psutil is not part of this model; the
    information psutil reports for one process is the input. */
module Processes {
  import opened Wrappers
  import opened Text
  import opened Risk

  /** What psutil reports for one process (`proc.info`). The CPU share is a
      percentage; `username` is absent when psutil could not read it. */
  datatype ProcessInfo = ProcessInfo(
    pid: int,
    name: string,
    username: Option<string>,
    cpuPercent: real,
    memoryPercent: real,
    status: string,
    createTime: int,
    cmdline: seq<string>)

  /** One row of the process scan, with the risk tier attached. */
  datatype Process = Process(
    pid: int,
    name: string,
    username: string,
    cpuPercent: real,
    memoryPercent: real,
    status: string,
    createTime: int,
    cmdline: seq<string>,
    risk: RiskLevel)

  function RiskOf(p: Process): RiskLevel { p.risk }

  const HighRiskKeywords: seq<string> :=
    ["miner", "crypto", "trojan", "keylogger", "backdoor", "ransomware", "rootkit"]

  const MediumRiskKeywords: seq<string> := ["unknown", "suspicious", "temp", "tmp"]

  /** A Python value that is falsy: no user name, or an empty one. */
  predicate NoUser(username: Option<string>)
  {
    username.None? || username.value == ""
  }

  /** `analyze_process_risk`: the first rule that fires decides. */
  function AnalyzeProcessRisk(info: ProcessInfo): (r: RiskLevel)
    ensures ContainsAny(Lower(info.name), HighRiskKeywords) ==> r == High
    ensures r == Safe ==> !NoUser(info.username) && !(info.cpuPercent > 80.0)
                          && !ContainsAny(Lower(info.name), MediumRiskKeywords)
    ensures r == Low ==> NoUser(info.username)
  {
    var name := Lower(info.name);
    var cmdline := Lower(Join(info.cmdline, " "));
    if ContainsAny(name, HighRiskKeywords) then High
    else if ContainsAny(cmdline, HighRiskKeywords) then High
    else if info.cpuPercent > 80.0 then Medium
    else if ContainsAny(name, MediumRiskKeywords) then Medium
    else if NoUser(info.username) then Low
    else Safe
  }

  /** The row `scan_processes` records for one process: a missing or empty
      user name is stored as "SYSTEM", after the risk rule has already seen
      it as missing. */
  function ProcessRecord(info: ProcessInfo): (p: Process)
    ensures p.username != ""
    ensures p.risk == AnalyzeProcessRisk(info)
    ensures NoUser(info.username) ==> p.username == "SYSTEM" && p.risk in {Low, Medium, High}
    ensures !NoUser(info.username) ==> p.username == info.username.value
    ensures p.pid == info.pid && p.name == info.name && p.status == info.status
    ensures p.cpuPercent == info.cpuPercent && p.memoryPercent == info.memoryPercent
    ensures p.createTime == info.createTime && p.cmdline == info.cmdline
  {
    Process(info.pid, info.name, if NoUser(info.username) then "SYSTEM" else info.username.value,
            info.cpuPercent, info.memoryPercent, info.status, info.createTime, info.cmdline,
            AnalyzeProcessRisk(info))
  }

  /** A high-risk keyword anywhere in the lower-cased name makes the process
      high risk, whatever its CPU usage and user. */
  lemma HighKeywordInName(info: ProcessInfo, k: int)
    requires 0 <= k < |HighRiskKeywords|
    requires Contains(Lower(info.name), HighRiskKeywords[k])
    ensures AnalyzeProcessRisk(info) == High
  {
  }

  /** A high-risk keyword inside any one command-line argument (compared
      case-insensitively) makes the process high risk: the arguments are
      joined with spaces before the search, so each argument is still there. */
  lemma HighKeywordInArgument(info: ProcessInfo, a: int, k: int)
    requires 0 <= a < |info.cmdline| && 0 <= k < |HighRiskKeywords|
    requires Contains(Lower(info.cmdline[a]), HighRiskKeywords[k])
    ensures AnalyzeProcessRisk(info) == High
  {
    var joined := Join(info.cmdline, " ");
    JoinContainsPart(info.cmdline, " ", a);
    ContainsLower(joined, info.cmdline[a]);
    ContainsTransitive(Lower(joined), Lower(info.cmdline[a]), HighRiskKeywords[k]);
  }

  /** Without a high-risk keyword, a CPU share strictly above 80% gives
      medium; exactly 80% is not enough on its own. */
  lemma CpuThreshold(info: ProcessInfo)
    requires !ContainsAny(Lower(info.name), HighRiskKeywords)
    requires !ContainsAny(Lower(Join(info.cmdline, " ")), HighRiskKeywords)
    ensures info.cpuPercent > 80.0 ==> AnalyzeProcessRisk(info) == Medium
    ensures info.cpuPercent == 80.0 && !ContainsAny(Lower(info.name), MediumRiskKeywords)
            ==> AnalyzeProcessRisk(info) != Medium
  {
  }

  /** The whole decision, read as a characterisation of each tier. */
  lemma ProcessRiskTiers(info: ProcessInfo)
    ensures var name := Lower(info.name);
            var high := ContainsAny(name, HighRiskKeywords)
                        || ContainsAny(Lower(Join(info.cmdline, " ")), HighRiskKeywords);
            && (AnalyzeProcessRisk(info) == High <==> high)
            && (AnalyzeProcessRisk(info) == Medium <==>
                  !high && (info.cpuPercent > 80.0 || ContainsAny(name, MediumRiskKeywords)))
            && (AnalyzeProcessRisk(info) == Low <==>
                  !high && info.cpuPercent <= 80.0 && !ContainsAny(name, MediumRiskKeywords)
                  && NoUser(info.username))
  {
  }

  /** A medium-risk keyword in the name is enough for medium when no
      high-risk keyword occurs, even at low CPU usage. */
  lemma MediumKeywordInName(info: ProcessInfo, k: int)
    requires 0 <= k < |MediumRiskKeywords|
    requires Contains(Lower(info.name), MediumRiskKeywords[k])
    requires !ContainsAny(Lower(info.name), HighRiskKeywords)
    requires !ContainsAny(Lower(Join(info.cmdline, " ")), HighRiskKeywords)
    ensures AnalyzeProcessRisk(info) == Medium
  {
  }
}
