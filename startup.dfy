/** backend/security/startup.py: the risk rule for a startup entry, the
    publisher guess from its path, and the two readers of XDG `.desktop`
    files. Reading the registry and directories is not part of this model; a
    `.desktop` file is given as the lines that could be read from it. */
module Startup {
  import opened Wrappers
  import opened Text
  import opened Risk

  /** One row of the startup scan. */
  datatype StartupItem = StartupItem(
    name: string,
    path: string,
    location: string,
    enabled: bool,
    publisher: Option<string>,
    risk: RiskLevel)

  function RiskOf(s: StartupItem): RiskLevel { s.risk }

  const HighRiskKeywords: seq<string> :=
    ["miner", "crypto", "unknown", "suspicious", "temp", "tmp", "backdoor", "trojan"]

  /** The publisher table in its insertion order, which is the order Python
      iterates a dict in. */
  const KnownPublishers: seq<(string, string)> := [
    ("microsoft", "Microsoft Corporation"),
    ("google", "Google LLC"),
    ("adobe", "Adobe Systems"),
    ("nvidia", "NVIDIA Corporation"),
    ("intel", "Intel Corporation")
  ]

  // ---------------------------------------------------------------------
  // Publisher guess
  // ---------------------------------------------------------------------

  /** The publisher of the first table entry whose keyword occurs in `text`. */
  function FirstPublisher(text: string, table: seq<(string, string)>): (r: Option<string>)
    ensures r.None? <==> forall k :: 0 <= k < |table| ==> !Contains(text, table[k].0)
    ensures r.Some? ==> exists k :: 0 <= k < |table| && Contains(text, table[k].0) && r.value == table[k].1
  {
    if table == [] then None
    else if Contains(text, table[0].0) then Some(table[0].1)
    else
      var r := FirstPublisher(text, table[1..]);
      assert forall k :: 1 <= k < |table| ==> table[1..][k - 1] == table[k];
      r
  }

  /** `extract_publisher`. */
  function ExtractPublisher(path: string): (r: Option<string>)
    ensures r.None? <==> forall k :: 0 <= k < |KnownPublishers| ==> !Contains(Lower(path), KnownPublishers[k].0)
    ensures r.Some? ==> r.value in {"Microsoft Corporation", "Google LLC", "Adobe Systems",
                                    "NVIDIA Corporation", "Intel Corporation"}
  {
    FirstPublisher(Lower(path), KnownPublishers)
  }

  /** The publisher returned is the one of the first keyword, in table order,
      that occurs in the lower-cased path; there is none exactly when no
      keyword occurs. */
  lemma {:induction false} FirstPublisherIsFirstMatch(text: string, table: seq<(string, string)>, k: int)
    requires 0 <= k < |table| && Contains(text, table[k].0)
    requires forall j :: 0 <= j < k ==> !Contains(text, table[j].0)
    ensures FirstPublisher(text, table) == Some(table[k].1)
  {
    if k > 0 {
      assert forall j :: 0 <= j < k - 1 ==> table[1..][j] == table[j + 1];
      FirstPublisherIsFirstMatch(text, table[1..], k - 1);
    }
  }

  /** A path naming two vendors gets the one listed first: "microsoft" wins
      over "intel" wherever they appear in the path. */
  lemma EarlierPublisherWins(path: string)
    requires Contains(Lower(path), "microsoft")
    ensures ExtractPublisher(path) == Some("Microsoft Corporation")
  {
    FirstPublisherIsFirstMatch(Lower(path), KnownPublishers, 0);
  }

  // ---------------------------------------------------------------------
  // Risk rule
  // ---------------------------------------------------------------------

  /** `analyze_startup_risk`; `isWindows` stands for `platform.system() == 'Windows'`. */
  function AnalyzeStartupRisk(name: string, path: string, isWindows: bool): (r: RiskLevel)
    ensures r == High <==> ContainsAny(Lower(name), HighRiskKeywords) || ContainsAny(Lower(path), HighRiskKeywords)
    ensures r == Safe ==> !isWindows || ExtractPublisher(path).Some?
  {
    var nameLower := Lower(name);
    var pathLower := Lower(path);
    if ContainsAny(nameLower, HighRiskKeywords) then High
    else if ContainsAny(pathLower, HighRiskKeywords) then High
    else if Contains(pathLower, "temp") || Contains(pathLower, "tmp") then Medium
    else if isWindows && ExtractPublisher(path).None? then Low
    else Safe
  }

  /** The temporary-directory rule can never fire: "temp" and "tmp" are
      already high-risk keywords checked against the same lower-cased path,
      so no startup entry is ever classified medium. */
  lemma NeverMedium(name: string, path: string, isWindows: bool)
    ensures AnalyzeStartupRisk(name, path, isWindows) != Medium
  {
    var pathLower := Lower(path);
    assert HighRiskKeywords[4] == "temp" && HighRiskKeywords[5] == "tmp";
    if Contains(pathLower, "temp") || Contains(pathLower, "tmp") {
      assert ContainsAny(pathLower, HighRiskKeywords);
    }
  }

  /** A high-risk keyword in the lower-cased name or path gives high. */
  lemma HighKeywordGivesHigh(name: string, path: string, isWindows: bool, k: int)
    requires 0 <= k < |HighRiskKeywords|
    requires Contains(Lower(name), HighRiskKeywords[k]) || Contains(Lower(path), HighRiskKeywords[k])
    ensures AnalyzeStartupRisk(name, path, isWindows) == High
  {
  }

  /** Low is the Windows-only verdict for an entry with no high-risk keyword
      and no recognised publisher; elsewhere the rule answers high or safe. */
  lemma LowOnlyOnWindows(name: string, path: string, isWindows: bool)
    ensures AnalyzeStartupRisk(name, path, isWindows) == Low <==>
              && isWindows
              && !ContainsAny(Lower(name), HighRiskKeywords)
              && !ContainsAny(Lower(path), HighRiskKeywords)
              && ExtractPublisher(path).None?
    ensures !isWindows ==> AnalyzeStartupRisk(name, path, isWindows) in {High, Safe}
  {
    NeverMedium(name, path, isWindows);
  }

  // ---------------------------------------------------------------------
  // .desktop files
  // ---------------------------------------------------------------------

  /** Python's `s.split(c, 1)[1]`: the text after the first `c`. */
  function AfterFirst(s: string, c: char): (r: string)
    requires c in s
    ensures exists i :: 0 <= i < |s| && s[i] == c && c !in s[..i] && r == s[i + 1..]
  {
    if s[0] == c then
      assert s[..0] == [];
      s[1..]
    else
      var r := AfterFirst(s[1..], c);
      var i :| 0 <= i < |s[1..]| && s[1..][i] == c && c !in s[1..][..i] && r == s[1..][i + 1..];
      assert s[..i + 1] == [s[0]] + s[1..][..i];
      r
  }

  predicate IsExecLine(line: string)
  {
    "Exec=" <= line
  }

  /** The value of an `Exec=` line: the text after its first '=', trimmed. */
  function ExecValue(line: string): (r: string)
    requires IsExecLine(line)
    ensures r == Strip(line[5..])
  {
    AfterFirstOfExec(line);
    Strip(AfterFirst(line, '='))
  }

  /** Splitting at the first `c` of `p + [c] + rest`, where `p` has no `c`,
      leaves `rest`. */
  lemma {:induction false} AfterFirstPrefix(p: string, c: char, rest: string)
    requires c !in p
    ensures c in p + [c] + rest && AfterFirst(p + [c] + rest, c) == rest
  {
    var s := p + [c] + rest;
    assert s[|p|] == c;
    if p == [] {
      assert s == [c] + rest;
    } else {
      assert s[0] == p[0] && s[1..] == p[1..] + [c] + rest;
      AfterFirstPrefix(p[1..], c, rest);
    }
  }

  /** The first '=' of an `Exec=` line is the one right after "Exec". */
  lemma AfterFirstOfExec(line: string)
    requires IsExecLine(line)
    ensures '=' in line && AfterFirst(line, '=') == line[5..]
  {
    assert line == "Exec" + ['='] + line[5..];
    AfterFirstPrefix("Exec", '=', line[5..]);
  }

  /** `parse_desktop_file` over the lines read from the file: the value of
      the first `Exec=` line, or "" when there is none. An I/O error while
      reading ends the search like the end of the file does, so the lines
      read before it are the whole input. */
  function ParseDesktopFile(lines: seq<string>): (r: string)
    ensures r == "" || exists k :: 0 <= k < |lines| && IsExecLine(lines[k]) && r == Strip(lines[k][5..])
  {
    if lines == [] then ""
    else if IsExecLine(lines[0]) then ExecValue(lines[0])
    else
      var r := ParseDesktopFile(lines[1..]);
      assert forall k :: 0 <= k < |lines| - 1 ==> lines[1..][k] == lines[k + 1];
      r
  }

  /** The first `Exec=` line decides; later ones are ignored. */
  lemma {:induction false} ParseDesktopFileFirstExec(lines: seq<string>, k: int)
    requires 0 <= k < |lines| && IsExecLine(lines[k])
    requires forall j :: 0 <= j < k ==> !IsExecLine(lines[j])
    ensures ParseDesktopFile(lines) == Strip(lines[k][5..])
  {
    if k > 0 {
      assert forall j :: 0 <= j < k - 1 ==> lines[1..][j] == lines[j + 1];
      ParseDesktopFileFirstExec(lines[1..], k - 1);
    }
  }

  /** Without an `Exec=` line the result is empty. */
  lemma {:induction false} ParseDesktopFileNoExec(lines: seq<string>)
    requires forall j :: 0 <= j < |lines| ==> !IsExecLine(lines[j])
    ensures ParseDesktopFile(lines) == ""
  {
    if lines != [] {
      assert forall j :: 0 <= j < |lines| - 1 ==> lines[1..][j] == lines[j + 1];
      ParseDesktopFileNoExec(lines[1..]);
    }
  }

  predicate IsHiddenLine(line: string)
  {
    Lower(Strip(line)) == "hidden=true"
  }

  /** `is_desktop_file_enabled` over the lines read from the file: disabled
      exactly when some line, trimmed and lower-cased, reads `hidden=true`. */
  function IsDesktopFileEnabled(lines: seq<string>): (enabled: bool)
    ensures !enabled <==> exists j :: 0 <= j < |lines| && IsHiddenLine(lines[j])
  {
    if lines == [] then true
    else if IsHiddenLine(lines[0]) then false
    else
      var rest := IsDesktopFileEnabled(lines[1..]);
      HiddenInTail(lines);
      rest
  }

  lemma HiddenInTail(lines: seq<string>)
    requires lines != []
    ensures (exists j :: 0 <= j < |lines| && IsHiddenLine(lines[j])) <==>
            IsHiddenLine(lines[0]) || exists j :: 0 <= j < |lines[1..]| && IsHiddenLine(lines[1..][j])
  {
    if exists j :: 0 <= j < |lines| && IsHiddenLine(lines[j]) {
      var j :| 0 <= j < |lines| && IsHiddenLine(lines[j]);
      if j > 0 { assert lines[1..][j - 1] == lines[j]; }
    }
    if exists j :: 0 <= j < |lines[1..]| && IsHiddenLine(lines[1..][j]) {
      var j :| 0 <= j < |lines[1..]| && IsHiddenLine(lines[1..][j]);
      assert lines[1..][j] == lines[j + 1];
    }
  }

  /** The whole trimmed line is compared, not a key inside it: a line whose
      first character is not blank and does not lower-case to 'h' (such as
      `NoHidden=true`) never hides the entry. */
  lemma NotHiddenByFirstChar(line: string)
    requires line != [] && !IsSpace(line[0]) && LowerChar(line[0]) != 'h'
    ensures !IsHiddenLine(line)
  {
    StripLocation(line);
    var t := Strip(line);
    assert |line| - |StripLeft(line)| == 0;
    if t != [] {
      assert t[0] == line[0];
      assert Lower(t)[0] != 'h';
    }
  }
}
