# Baby-Pluto-Guard security core in Dafny

Baby-Pluto-Guard is a desktop security monitor. Its Python backend scans
running processes, network connections, startup entries and critical files.
It gives every entry a risk tier (safe, low, medium or high), counts the
findings into metrics, raises alerts and computes a security score. It keeps
saved *baselines* of the system state and diffs a new scan against one of
them. Its TypeScript client filters, sorts and summarises what the backend
reports.

This project models the deterministic core of that system and proves what it
promises:

- `processes.dfy`, `ports.dfy`, `startup.dfy`: the per-entity risk rules,
  plus the `.desktop` file readers and the port-list queries.
- `integrity.dfy`: the per-file status decision, the one-result-per-path
  scan and the hash baseline of files. The file system is a map.
- `analyzer.dfy`: metrics, alerts and the security score. The alert loops
  and the score deductions are methods, proved against the functions that
  specify them.
- `baseline.dfy`:
  - the keyed list comparison, the risk score and the risk tier of a
    comparison;
  - a `BaselineStore` class whose fields are the two SQLite tables, with the
    "at most one active baseline" rule as its invariant.
- `security_utils.dfy`: the client's colour and badge tables, the
  minimum-severity filter, the worst-first sort, the system status and the
  summary line.
- Shared helpers:
  - `risk.dfy`: the risk tiers and the stable worst-first ordering, with its
    uniqueness.
  - `seqs.dfy`: comprehensions and concatenated per-entry results.
  - `text.dfy`: lower-casing, substring search, `strip`, `join` and decimal
    rendering.
  - `wrappers.dfy`: `Option` and `Result`.

Clock readings, `uuid4` identifiers, the platform check and everything psutil,
winreg or the file system reports are parameters of the model.

## Model

| member | source | states |
|---|---|---|
| Processes.AnalyzeProcessRisk | backend/security/processes.py:49-92 | A high keyword in the name gives high; a safe process has a user, CPU at most 80% and no medium keyword in its name; low means no user |
| Processes.ProcessRecord | backend/security/processes.py:28-40 | The stored row carries the risk the rule gives; a missing or empty user is stored as "SYSTEM", and such a process is never safe; a present user, the pid, name, CPU and memory shares, status, creation time and command line are copied |
| Processes.HighKeywordInName | backend/security/processes.py:59-76 | A high-risk keyword in the lower-cased name gives high, whatever the CPU share and user |
| Processes.HighKeywordInArgument | backend/security/processes.py:61-79 | A high-risk keyword in any one command-line argument, compared case-insensitively, gives high, because the space-joined command line contains every argument |
| Processes.CpuThreshold | backend/security/processes.py:75-86 | Without a high keyword, a CPU share above 80 gives medium; exactly 80 without a medium keyword does not |
| Processes.MediumKeywordInName | backend/security/processes.py:75-86 | Without a high keyword, a medium keyword in the name gives medium even at low CPU |
| Processes.ProcessRiskTiers | backend/security/processes.py:49-92 | Each tier as an if-and-only-if over the keyword, CPU and user conditions, in the order the rules fire |
| Ports.NoLocalAddressIsSafe | backend/security/ports.py:61-62 | A connection without a local address is safe |
| Ports.PortRiskTiers | backend/security/ports.py:64-104 | High iff the port is in the malware list; medium iff in the monitored list; low iff above 49152 (and not 54321); safe otherwise |
| Ports.DynamicRangeBoundary | backend/security/ports.py:95-97 | Port 49152 is safe and 49153 is low |
| Ports.AnalyzePortRisk | backend/security/ports.py:51-104 | No local address gives safe; a malware port gives high; medium only for the monitored ports; low only above 49152 |
| Ports.PortRecord | backend/security/ports.py:33-43 | The stored row copies the local port, is tcp exactly for stream sockets, and carries the rule's risk, which is safe without a local port; the local ip, the remote address and port (absent together), status, pid and process name are copied |
| Ports.ListeningPorts | backend/security/ports.py:107-115 | Exactly the LISTEN entries of the scanned list |
| Ports.ListeningPortsInOrder | backend/security/ports.py:115 | The listing distributes over concatenation and keeps a single entry iff it is listening, so scan order is kept |
| Ports.EstablishedConnections | backend/security/ports.py:118-126 | Exactly the ESTABLISHED entries of the scanned list |
| Ports.EstablishedConnectionsInOrder | backend/security/ports.py:126 | The listing keeps scan order, as for listening ports |
| Ports.IsPortOpen | backend/security/ports.py:129-146 | True iff some entry has that local port, that protocol and status LISTEN |
| Ports.IsPortOpenViaListening | backend/security/ports.py:141-146 | A port is open iff some listening entry has that port and protocol |
| Startup.AnalyzeStartupRisk | backend/security/startup.py:258-293 | High iff a high keyword is in the lower-cased name or path; safe on Windows only with a recognised publisher |
| Startup.ExtractPublisher | backend/security/startup.py:296-320 | No publisher iff no table keyword is in the lower-cased path; otherwise one of the five table vendors |
| Startup.FirstPublisher | backend/security/startup.py:315-320 | No publisher iff no table keyword occurs in the text; a publisher found is that of an entry whose keyword occurs |
| Startup.FirstPublisherIsFirstMatch | backend/security/startup.py:307-320 | The publisher returned belongs to the first keyword, in table order, that occurs in the lower-cased path |
| Startup.EarlierPublisherWins | backend/security/startup.py:307-318 | A path containing "microsoft" is attributed to Microsoft, whatever other vendors it names |
| Startup.NeverMedium | backend/security/startup.py:273-287 | The rule never answers medium: "temp" and "tmp" are already high keywords, so the temporary-directory branch cannot fire |
| Startup.HighKeywordGivesHigh | backend/security/startup.py:269-283 | A high keyword in the lower-cased name or path gives high |
| Startup.LowOnlyOnWindows | backend/security/startup.py:279-293 | Low iff on Windows with no high keyword and no publisher; off Windows the answer is high or safe |
| Startup.AfterFirst | backend/security/startup.py:232 | `split(c, 1)[1]` is the text after the first occurrence of `c` |
| Startup.AfterFirstOfExec | backend/security/startup.py:231-232 | The first '=' of an `Exec=` line is the one after "Exec" |
| Startup.ExecValue | backend/security/startup.py:232 | The value of an `Exec=` line is the trimmed text after "Exec=" |
| Startup.ParseDesktopFile | backend/security/startup.py:218-235 | The result is "" or the trimmed value of one of the `Exec=` lines |
| Startup.ParseDesktopFileFirstExec | backend/security/startup.py:228-232 | The first `Exec=` line decides the result; later ones are ignored |
| Startup.ParseDesktopFileNoExec | backend/security/startup.py:233-235 | Without an `Exec=` line the result is "" |
| Startup.IsDesktopFileEnabled | backend/security/startup.py:238-255 | Disabled iff some line, trimmed and lower-cased, is `hidden=true` |
| Startup.NotHiddenByFirstChar | backend/security/startup.py:251 | The whole trimmed line is compared: a line whose first character is not blank and does not lower-case to `h` (such as `NoHidden=true`) never hides the entry |
| Integrity.HashOf | backend/security/integrity.py:93 | A hash string is the 7 characters "sha256:" followed by the digest |
| Integrity.HashOfInjective | backend/security/integrity.py:93 | Different digests give different hash strings |
| Integrity.Expected | backend/security/integrity.py:32 | The expected hash is present iff the baseline has the path |
| Integrity.CheckFile | backend/security/integrity.py:25-69 | Missing iff absent; error iff unreadable; modified iff the baseline has a non-empty hash different from the current one; risk high, high, medium or safe per status; which hashes are reported; the modification time is kept for an intact or modified file and absent for a missing or unreadable one |
| Integrity.ScanFileIntegrity | backend/security/integrity.py:11-71 | One result per path, in order, each the check of that path |
| Integrity.CreateBaseline | backend/security/integrity.py:121-140 | The map holds, for exactly the listed paths that exist and can be hashed, their current hash |
| Integrity.SnapshotReportsNoChange | backend/security/integrity.py:32-38 | Against a baseline of the same file system, no file is modified and every hashable file is intact |
| Integrity.ChangedFileIsModified | backend/security/integrity.py:36-47 | A file whose contents changed since the baseline is modified and high risk, reporting both hashes |
| Integrity.DeletedFileIsMissing | backend/security/integrity.py:48-57 | A file deleted since the baseline is missing and high risk, keeping its recorded hash |
| Integrity.NoBaselineNoModification | backend/security/integrity.py:32-36 | Without a baseline nothing is modified and no hash is expected |
| Integrity.EmptyExpectedHashNeverFlags | backend/security/integrity.py:36 | An empty expected hash never marks a file modified |
| Analyzer.GenerateMetrics | backend/security/analyzer.py:11-67 | Each count is the length of its comprehension; the four alert buckets are the tallies of each tier over all entries and sum to the number of entries |
| Analyzer.TallyTotal | backend/security/analyzer.py:50-55 | Every entry falls in exactly one bucket |
| Analyzer.CountIsTally | backend/security/analyzer.py:30-37 | A comprehension over one or two tiers counts the same entries as those tiers' tallies |
| Analyzer.SuspiciousWithinTallies | backend/security/analyzer.py:29-55 | The suspicious counts are within the medium and high buckets, and high-risk ports within the high bucket |
| Analyzer.FileChangesAreHighRisk | backend/security/analyzer.py:40 | Modified and missing files produced by the integrity scan are within the high bucket |
| Analyzer.ProcessDraft | backend/security/analyzer.py:92-114 | One alert for a high or medium process, of the process's severity |
| Analyzer.PortDraft | backend/security/analyzer.py:117-139 | One alert for a high or medium port, of the port's severity |
| Analyzer.StartupDraft | backend/security/analyzer.py:142-153 | One high alert for a high startup item, none otherwise |
| Analyzer.FileDraft | backend/security/analyzer.py:156-177 | One high alert for a modified or missing file, none otherwise |
| Analyzer.IssueAll | backend/security/analyzer.py:94-102 | The k-th raised alert gets identifier number k, the scan's time and is unresolved |
| Analyzer.RaiseAlerts | backend/security/analyzer.py:92-177 | Each of the four loops appends the alerts of its list, in order, numbered after those before |
| Analyzer.GenerateAlerts | backend/security/analyzer.py:70-183 | The alerts are the raised ones sorted stably worst first: a permutation, ordered by severity, each tier in raising order; their number is the count of alerting entries; all are medium or high, unresolved, of the scan's time, and file alerts are high |
| Analyzer.SortedAlertFacts | backend/security/analyzer.py:179-181 | What the stable severity sort keeps and establishes about the raised alerts |
| Analyzer.Drafts | backend/security/analyzer.py:92-177 | One alert per suspicious process, alerting port, high-risk startup item and changed file; each is medium or high, and high for a file |
| Analyzer.RawAlerts | backend/security/analyzer.py:86-177 | One alert per draft; the k-th is numbered k, stamped with the scan time, unresolved, and medium or high |
| Analyzer.RawAlertFacts | backend/security/analyzer.py:88-177 | Number and shape of the alerts before sorting |
| Analyzer.Deduction | backend/security/analyzer.py:199-208 | The deduction is `count * per` while that is within the cap and the cap beyond it (`min(count * per, cap)`); it is zero iff nothing is counted |
| Analyzer.SecurityScore | backend/security/analyzer.py:196-210 | The score is in [0, 100] and is 100 iff all four counts are zero |
| Analyzer.CalculateSecurityScore | backend/security/analyzer.py:186-210 | The step-by-step deduction equals the score and stays in [0, 100] |
| Analyzer.SecurityScoreAntitone | backend/security/analyzer.py:196-210 | More findings never raise the score |
| Analyzer.SecurityScoreCaps | backend/security/analyzer.py:199-210 | With every deduction at its cap the score is 0; below the caps each finding costs its full weight |
| Baseline.KeysOf | backend/security/baseline.py:258-259 | The key set holds exactly the keys of the items |
| Baseline.CompareLists | backend/security/baseline.py:256-268 | An item is added iff it is current and its key is not in the baseline; removed iff it is in the baseline and its key is not current |
| Baseline.CompareListsKeepsOrder | backend/security/baseline.py:265-266 | `added` keeps current-list order and `removed` keeps baseline order |
| Baseline.CompareListsKeys | backend/security/baseline.py:261-266 | The keys of `added` are the new keys and those of `removed` the vanished ones; the two are disjoint |
| Baseline.CompareListsCounts | backend/security/baseline.py:258-267 | `unchanged` is the number of keys on both sides, so new plus unchanged keys are all current keys and vanished plus unchanged keys are all baseline keys |
| Baseline.SameKeysNoChange | backend/security/baseline.py:258-267 | With the same key sets nothing is added or removed, whatever else differs |
| Baseline.CompareWithItself | backend/security/baseline.py:256-268 | Comparing a list with itself reports no change |
| Baseline.CompareWithEmptyBaseline | backend/security/baseline.py:256-268 | Against an empty baseline every current item is added |
| Baseline.ProcessIdentityIsName | backend/security/baseline.py:184-188 | Two processes with one name but different pids are the same process |
| Baseline.Points | backend/security/baseline.py:275-288 | A single item is worth the weight of its tier, and a safe item nothing |
| Baseline.PointsZero | backend/security/baseline.py:275-288 | A list scores zero iff each of its items sits in a tier of weight zero |
| Baseline.PointsAtLeast | backend/security/baseline.py:275-288 | The points of a list are at least the weight of any one of its items |
| Baseline.PointsAppend | backend/security/baseline.py:275-288 | The per-tier points of a list add up over its parts |
| Baseline.RiskScore | backend/security/baseline.py:270-290 | The score is the weighted sum capped at 100: the sum itself when it is at most 100, and exactly 100 when it is 100 or more |
| Baseline.RawScore | backend/security/baseline.py:270-290 | The weighted sum is zero iff every added process is safe and every added port and startup item is low or safe: low ports and startup items carry no weight |
| Baseline.RiskScoreMonotone | backend/security/baseline.py:276-290 | Adding items to any of the three `added` lists never lowers the score |
| Baseline.RiskScoreOfOneProcess | backend/security/baseline.py:275-278 | One added process is worth 20, 10, 3 or 0 by its tier |
| Baseline.RiskScoreOfOnePort | backend/security/baseline.py:280-283 | One added port is worth 15 if high, 8 if medium, and nothing if low or safe |
| Baseline.RiskScoreOfOneStartupItem | backend/security/baseline.py:285-288 | One added startup item is worth 25 if high, 12 if medium, and nothing if low or safe |
| Baseline.RiskLevelFor | backend/security/baseline.py:292-300 | High iff the score is at least 70, medium iff in [40, 70), low iff in [10, 40), safe below 10 |
| Baseline.RiskLevelForMonotone | backend/security/baseline.py:292-300 | A higher score never gives a lower tier |
| Baseline.Differ | backend/security/baseline.py:183-215 | Processes and startup items are compared by name and ports by local port; the summary counts are the list lengths; the score is `RiskScore` of the three `added` lists and the tier is the score's |
| Baseline.DifferFromOwnScan | backend/security/baseline.py:183-215 | A baseline compared with its own scan reports all-zero counts, score 0 and tier safe |
| Baseline.MetricsOf | backend/security/baseline.py:69-76 | The stored metrics are the list lengths and the numbers of safe processes and ports |
| Baseline.ActiveBaseline | backend/security/baseline.py:116-128 | There is an active baseline iff some row is active, and it is such a row |
| Baseline.Target | backend/security/baseline.py:169-175 | A non-zero id selects that row, present iff the id is; no id or 0 selects an active row, present iff one is active |
| Baseline.BaselineStore.constructor | backend/security/baseline.py:18-53 | An empty database satisfies the table invariant |
| Baseline.BaselineStore.Create | backend/security/baseline.py:55-114 | The new row gets the next id and is the only active baseline; every other row is kept, deactivated; the invariant is kept |
| Baseline.BaselineStore.GetActive | backend/security/baseline.py:116-128 | Returns the one active row, if any |
| Baseline.BaselineStore.Get | backend/security/baseline.py:130-140 | Returns the row with that id iff there is one |
| Baseline.BaselineStore.SetActive | backend/security/baseline.py:151-157 | Afterwards exactly `id` is active if it exists and nothing is active otherwise; rows are otherwise unchanged; reports success |
| Baseline.BaselineStore.Delete | backend/security/baseline.py:159-165 | Removes the row and exactly the comparisons made against it, in order; the active set loses only `id`; reports success |
| Baseline.BaselineStore.FindTarget | backend/security/baseline.py:169-172 | A missing or zero id looks up the active baseline, any other id that row |
| Baseline.BaselineStore.Record | backend/security/baseline.py:218-223 | A comparison row is appended and the baselines are untouched |
| Baseline.BaselineStore.CompareWith | backend/security/baseline.py:167-233 | Fails with "No baseline found", recording nothing, iff there is no target; otherwise records and reports the differences against the target |
| SecurityUtils.RiskColor | src/utils/securityUtils.ts:3-11 | Safe is success, low and medium warning, high destructive; the fallback is never used |
| SecurityUtils.RiskBadgeVariant | src/utils/securityUtils.ts:13-21 | safe secondary, low outline, medium default, high destructive, each iff |
| SecurityUtils.RiskBadgeVariantInjective | src/utils/securityUtils.ts:14-19 | Distinct tiers get distinct badges |
| SecurityUtils.RankTablesAgree | src/utils/securityUtils.ts:70-87 | The filter table is the severity, the sort table is 3 minus it, and both order the tiers the same way |
| SecurityUtils.FilterByRiskLevel | src/utils/securityUtils.ts:66-79 | An item is kept iff it is at least as severe as the minimum |
| SecurityUtils.FilterByDefaultRiskLevel | src/utils/securityUtils.ts:68 | The default minimum 'low' drops exactly the safe items |
| SecurityUtils.FilterByRiskLevelKeepsOrder | src/utils/securityUtils.ts:78 | The filter distributes over concatenation, so the input order is kept |
| SecurityUtils.FilterBySafeKeepsAll | src/utils/securityUtils.ts:77-78 | A minimum of 'safe' keeps every item |
| SecurityUtils.FilterByHighIsHighTier | src/utils/securityUtils.ts:77-78 | A minimum of 'high' keeps exactly the high tier, in order |
| SecurityUtils.FilterByRiskLevelNested | src/utils/securityUtils.ts:66-79 | Filtering with a minimum and then a higher one equals filtering with the higher one |
| SecurityUtils.SortByRisk | src/utils/securityUtils.ts:81-90 | A permutation of the input, ascending in the sort table, keeping input order within each tier |
| SecurityUtils.SortByRiskUnique | src/utils/securityUtils.ts:89 | Any stable ascending arrangement by the sort table is the sort's result |
| SecurityUtils.SortByRiskIdempotent | src/utils/securityUtils.ts:81-90 | Sorting a sorted list changes nothing |
| SecurityUtils.GetSystemStatus | src/utils/securityUtils.ts:35-64 | Critical iff there is a high alert, warning iff none and more than 3 medium, secure otherwise |
| SecurityUtils.StatusColorIsRiskColor | src/utils/securityUtils.ts:46-61 | The status colour is the colour of high, medium or safe respectively |
| SecurityUtils.CriticalMessageCounts | src/utils/securityUtils.ts:47 | The critical message starts with the number of high alerts and says "issue" in the singular iff there is one |
| SecurityUtils.StatusMonotoneInHigh | src/utils/securityUtils.ts:40-64 | More high alerts never improve the status |
| SecurityUtils.Issues | src/utils/securityUtils.ts:94-104 | One entry per non-zero count, processes first, ports next, startup items last |
| SecurityUtils.GenerateSummary | src/utils/securityUtils.ts:92-111 | "No security issues detected" iff all three counts are zero; otherwise "Found: " followed by the issues joined with ", " |
| SecurityUtils.SummaryMentionsEveryIssue | src/utils/securityUtils.ts:96-110 | Every non-zero count appears in the summary with its number and label |
| Risk.WorstFirst | backend/security/analyzer.py:180-181 | The severity sort returns as many alerts as it is given (its order, stability and permutation in the rows below) |
| Risk.WorstFirstSorted | backend/security/analyzer.py:180-181 | The worst-first result is ordered by non-increasing severity |
| Risk.WorstFirstPermutation | backend/security/analyzer.py:181 | The worst-first result is a permutation of its input |
| Risk.WorstFirstStable | backend/security/analyzer.py:181 | Each tier keeps its input order |
| Risk.WorstFirstUnique | backend/security/analyzer.py:181 | Any severity-ordered arrangement keeping each tier's order is the worst-first result, so it is what a stable sort returns |
| Text.JoinContainsPart | backend/security/processes.py:61 | Every part appears in the joined string |
| Text.ContainsLower | backend/security/processes.py:61 | An occurrence survives lower-casing both sides |
| Text.DigitsValueOfNatToString | src/utils/securityUtils.ts:47 | The decimal rendering of a number reads back as that number |

## Left out

- Live scanning is not part of this model: psutil process and connection
  enumeration, winreg and the startup directories, `os.path`, `hashlib` and
  file reading. The records they produce are modelled from what they report
  (`ProcessRecord`, `PortRecord`, `CheckFile`). `get_process_by_pid`,
  `kill_process`, `get_critical_files`, `calculate_md5` and the integrity
  `save_baseline`/`load_baseline` are OS calls and are left out.
- SQLite, JSON encoding and `datetime.now()` are replaced by the fields of
  `BaselineStore` and by time parameters. `list_baselines` and
  `_row_to_baseline` only read rows back and are left out. The
  `ORDER BY created_at DESC LIMIT 1` of `get_active_baseline` has nothing to
  choose between, given the invariant.
- `uuid4()` and `time.time()` in the alert generator are parameters: `idOf`
  names the k-th alert, and one timestamp covers all of them.
- Alert descriptions are not modelled. They format CPU and memory shares as
  floats. Titles are modelled.
- Lower-casing is ASCII only; Python's Unicode case mapping is not modelled.
- Analyzer.GenerateMetrics: an entry without a `risk_level` key, which the
  source counts as safe, cannot occur in the model, because every record
  carries a tier.
- Processes.AnalyzeProcessRisk: a `None` name or `cmdline`, or a `None` CPU
  share, would make the source raise; the model's inputs always have a
  value for them.
- Baseline.RiskScore: the source computes the score as a float. All its
  weights are whole numbers, so the model uses natural numbers.
- Integrity.CheckFile: the modification time is the truncated `int` of
  `getmtime`, given directly. The text of the error message is not modelled.
- The `.desktop` readers work over the lines that could be read. A read
  error ends the search like the end of the file does.
- Where the project's documentation describes other behaviour, the model
  follows the code. Ports are matched by local port alone, and processes
  and startup items by name. A file's status is never "new", and alerts are
  never of type "network".
- Port 49152 is classified safe: only ports strictly above it are low.
- `backend/security/baseline.py:13` imports `scan_ports`, but `ports.py`
  defines only `scan_open_ports`, so the baseline module cannot be imported
  as written, and `backend/main.py` registers no baseline route.
  `BaselineStore` models the evident intent. The scans are given to it as
  parameters.
- Baseline.BaselineStore.Create: the source returns a dict whose
  `created_at` is `datetime.now()`, while the stored row gets the
  database's `CURRENT_TIMESTAMP`. The returned dict also has no
  `is_active`. The model returns the stored row, with one `createdAt` value
  given as a parameter.
- Ports.IsPortOpen: the default `protocol='tcp'` is not modelled. The
  protocol is always passed.
- Baseline.BaselineStore.Record: the autoincrement `id` and the
  `compared_at` time of a comparison row are not kept. A comparison is its
  baseline id, differences and score, in insertion order.
- `formatBytes`, `formatTimestamp` and the other clock and float
  formatting helpers are left out. So are the React UI, the hooks,
  `mockData.ts` and `exportUtils.ts`, and the FastAPI routes in
  `backend/main.py`.
