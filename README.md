# SentraLog core in Dafny

SentraLog reads NGINX "combined" access-log lines and normalises each into a
record (`build_schema`, `process_logs`). Three rules then walk the records,
which are grouped by client address:

- brute force: failed POST logins;
- SQL injection: SQL keywords in the request line;
- scan pattern: `Nmap` or `dirb` in the user agent.

Each rule reports one detection (`name`, `freq`, `matches`, `severity`). A
classifier then labels each detection LOW, MEDIUM or HIGH from its frequency.
A `ThreatDetector` runs the three rules in a fixed order and gathers their
reports.

The project has one module per source file, plus two helper modules and one
module of worked cases:

| file | module | models |
|---|---|---|
| `wrappers.dfy` | `Wrappers` | `Option` and `Result`; Python's exceptions become `Err` values |
| `text.dfy` | `Text` | the string built-ins the pipeline relies on: `k in s`, `any(...)`, `not s.strip()`, `int()` |
| `schema.dfy` | `Schema` | util/schema.py: `Severity`, the record type and the detection type |
| `preprocessing.dfy` | `Preprocessing` | src/preprocessing.py: `LOG_PATTERN`, `build_schema`, `process_logs` |
| `detectors.dfy` | `Detectors` | src/detectors.py: the three rules and their constants |
| `classification.dfy` | `Classification` | src/classification.py: the threshold table and `Classifier` |
| `orchestrator.dfy` | `Orchestrator` | src/orchestrator.py: `ThreatDetector` |
| `scenarios.dfy` | `Scenarios` | concrete inputs: a SQL injection request, two user agents, a malformed line, repeated brute-force evidence, one address's failed logins |

Main points of the model:

- **Parsing.** The regular expression is modelled by `Match`, a left-to-right
  parser. Each group of the pattern is either a greedy run of one character
  class, closed by a delimiter outside that class, or exactly three digits (the
  status), so the match is unique. `Match` is
  proved to be the exact inverse of `Render`, the line the pattern describes
  (`MatchSound`, `MatchRender`).
- **Normalising.** `build_schema` maps each field, with `-` read as absent,
  and it is proved to round-trip with `Serialize`. `process_logs` is an
  imperative loop. It is proved to stop at the first failing line and
  otherwise to return one record per non-blank line.
- **Detectors.** Each detector is a nested loop proved equal to a function of
  the grouped logs. Properties are then proved about that function: which
  records match, what the frequency is, and when the scan rule fails.
- **Brute force.** This rule is modelled as written. It keeps a running tally
  of distinct failing addresses and one shared list of failed attempts. It is
  proved equal to a reference description of that state (`TalliedReference`).
- **Classifier and orchestrator.** `Classifier` and `ThreatDetector` are
  classes. Where Python mutates in place (`classify` assigns into the detection
  dicts of `self.detections`, `run` appends to `self.results`), the Dafny
  methods reassign the field with the updated sequence; the aliasing this
  leaves out is listed under "Left out".

Points where the code does something other than what its own comments or
types suggest, and which the model follows as written:

- **Scan rule on a missing user agent.** A `-` user agent is stored as `None`
  (src/preprocessing.py:75, typed `str | None` at util/schema.py:38). The scan
  rule then evaluates `KEYWORD in None` (src/detectors.py:146), which raises
  TypeError. The model returns `Err(NoneUserAgent)`. A run then stops after the
  brute-force and SQL injection reports have been appended.
- **The shape of the orchestrator's output.** The class comment promises output
  "in a dict keyed by detector name" (src/orchestrator.py:12-13). `run` returns
  the list `results`, one report per detector in order
  (src/orchestrator.py:33-37), and the model returns that list. `run` neither
  groups nor classifies: it takes logs that are already grouped.
- **Repeated runs.** `results` is never cleared, so a second `run()` returns
  every report twice (`RunTwice`).
- **What the brute-force rule counts.** Its comments promise a detection when
  the failed logins "per user" exceed the threshold (src/detectors.py:52-55,
  61-64). The code compares `len(tracker)`, the number of distinct addresses
  with a failed attempt, with the threshold (src/detectors.py:78-80). One
  address alone is therefore never detected at a positive threshold, however
  many of its logins fail (`BruteForceOneAddress`), and the frequency is the
  number of failing addresses (`BruteForceFacts`).
- **Brute-force evidence.** The rule's order-dependent, repeating evidence is
  kept as written. `BruteForceRepeatsEvidence` exhibits a duplicate.
- **Size field.** A size token that is not an integer is its own error,
  `InvalidInteger`. It is not reported as a malformed line. A non-numeric
  status cannot occur, because the pattern only admits three digits.
- **Classification can lower a label.** Classification overwrites the label
  rather than raising it. A HIGH detection whose frequency is between 7 and 9
  becomes MEDIUM (`ClassifiedOverwrites`).

## Model

| member | source | states |
|---|---|---|
| `Text.ContainsIff` | src/detectors.py:112 | Python's `k in s` holds exactly when `k` occurs at some position of `s` |
| `Text.Contains` | src/detectors.py:112 | models Python's substring test `k in s` as a search from the left; `ContainsIff` characterises it as occurrence at some position |
| `Text.ContainsAny` | src/detectors.py:112 | `any(k in s for k in keys)` holds exactly when some keyword of the tuple occurs in `s` |
| `Text.IntTextRoundTrip` | src/preprocessing.py:73 | `int()` reads back the decimal text of every integer, with its sign |
| `Text.ParseInt` | src/preprocessing.py:73 | models `int()` on a size token: an optional sign and ASCII digits, anything else an error; `IntTextRoundTrip` characterises it as the inverse of decimal text |
| `Text.IsBlank` | src/preprocessing.py:54 | models `not log.strip()`: every character is Python whitespace; `BuildSchema` states that exactly these lines give no record |
| `Text.StatusTextRoundTrip` | src/preprocessing.py:72 | three digits and the status value they denote determine each other, and the value is at most 999 |
| `Schema.Severity.Value` | util/schema.py:5-14 | labels are the integers -1, 0, 1 |
| `Schema.SeverityValues` | util/schema.py:12-14 | LOW, MEDIUM, HIGH are -1, 0, 1; distinct labels have distinct values; LOW < MEDIUM < HIGH |
| `Schema.SeverityTotalOrder` | util/schema.py:5-14 | ordering labels by value is a total order |
| `Preprocessing.RunLength` | src/preprocessing.py:6-8 | a greedy run of a character class stays inside the class and stops at the first character outside it |
| `Preprocessing.Field` | src/preprocessing.py:6-8 | one group of the pattern splits the text into the captured field, the literal delimiter and the rest |
| `Preprocessing.MatchTail` | src/preprocessing.py:7-8 | the groups from the status to the user agent split the text into three digits, a non-empty size token, a referer and a user agent without quotes, with their literal separators, and the rest |
| `Preprocessing.Match` | src/preprocessing.py:5-9 | models `LOG_PATTERN.match(line)`; `MatchSound` and `MatchRender` characterise it as the exact inverse of `Render` |
| `Preprocessing.MatchSound` | src/preprocessing.py:5-9 | every match holds well-formed captures, and rendering them with the unread rest gives back the line |
| `Preprocessing.MatchRender` | src/preprocessing.py:5-9 | every line the pattern describes is matched, with exactly the captures it was rendered from |
| `Preprocessing.MatchTailRender` | src/preprocessing.py:7-8 | the groups from the status on read back exactly the fields they were rendered from |
| `Preprocessing.MatchIgnoresSuffix` | src/preprocessing.py:58 | `re.match` is anchored only at the start: text appended after a matching line does not change the captures |
| `Preprocessing.NoMatchMeansNoRendering` | src/preprocessing.py:58-60 | a line that does not match is not the rendering of any well-formed captures |
| `Preprocessing.RecordOf` | src/preprocessing.py:63-76 | building a record fails exactly when the timestamp does not convert, or the size is neither `-` nor an integer; a built record is valid |
| `Preprocessing.BuildSchema` | src/preprocessing.py:54-76 | a blank line gives no record; a non-blank line that does not match is the malformed-line error; every record returned is valid |
| `Preprocessing.RecordOfKeepsFields` | src/preprocessing.py:66-76 | the record keeps every captured field: address, time and request verbatim; `-` read as absent; status and size as the integers their text denotes |
| `Preprocessing.BuildSchemaFromMatch` | src/preprocessing.py:58-66 | a record returned for a line is the record of that line's captures |
| `Preprocessing.BuildSchemaMatched` | src/preprocessing.py:58-76 | conversely, a non-blank matching line has well-formed captures and returns exactly the outcome of building a record from them: that record, or that error |
| `Preprocessing.RecordOfSerialize` | src/preprocessing.py:66-76 | the captures of a serialised valid record are well-formed and build that record again |
| `Preprocessing.SerializeRoundTrip` | src/preprocessing.py:54-76 | writing a valid record as a combined-format line and normalising the line gives the record back |
| `Preprocessing.ProcessLogs` | src/preprocessing.py:78-91 | the loop returns the records of its lines' outcomes in order, skipping blanks, or the first error |
| `Preprocessing.CollectPrefixFailure` | src/preprocessing.py:87-90 | once a line raises, later lines do not change the outcome |
| `Preprocessing.CollectOkIff` | src/preprocessing.py:87-90 | collecting succeeds exactly when no outcome is an error |
| `Preprocessing.CollectFirstError` | src/preprocessing.py:87-90 | a failed collection carries the error of the first failing outcome, and all earlier outcomes succeeded |
| `Preprocessing.ProcessedOkIff` | src/preprocessing.py:78-91 | `process_logs` succeeds exactly when `build_schema` succeeds on every line |
| `Preprocessing.ProcessedFirstError` | src/preprocessing.py:78-91 | a failed `process_logs` reports the error of its first failing line |
| `Preprocessing.ProcessedRecords` | src/preprocessing.py:78-91 | on success there is one record per non-blank line, in order, each the record `build_schema` makes of that line |
| `Detectors.FlattenMembers` | src/detectors.py:110-111 | the nested loops visit exactly the records of all groups |
| `Detectors.KeepMembers` | src/detectors.py:112-114 | the selected records are exactly the visited records that satisfy the test |
| `Detectors.SqliDetect` | src/detectors.py:108-120 | the report is named `sql_injection`, is LOW, and has frequency equal to its number of matches; a record is a match exactly when it is in some group and its request contains a SQL keyword |
| `Detectors.SqliFacts` | src/detectors.py:108-120 | the SQL injection report as a function of the logs: its name, label, frequency and exactly which records it matches |
| `Detectors.ScanDetect` | src/detectors.py:142-154 | the loop fails exactly when some record has no user agent; otherwise the report is named `scan_pattern`, is LOW, has frequency equal to its number of matches, and matches exactly the records whose user agent contains `Nmap` or `dirb` |
| `Detectors.ScanFacts` | src/detectors.py:142-154 | the scan rule's outcome as a function of the logs: the same failure condition, name, label, frequency and membership |
| `Detectors.AgentMissing` | src/detectors.py:144-146 | a single record without a user agent anywhere in the logs makes the scan rule raise |
| `Detectors.BruteForceDetect` | src/detectors.py:69-88 | the loop's report is named `brute_force` and is LOW; its frequency is the number of distinct addresses with a failed POST when that number exceeds the threshold, and 0 otherwise; every match is a failed attempt of some group; there are matches exactly when the frequency is not 0 |
| `Detectors.StepReference` | src/detectors.py:76-82 | one visit of the inner loop moves the detector's state to the reference state of the attempts seen so far |
| `Detectors.Step` | src/detectors.py:76-82 | models one visit of the brute-force inner loop; `StepReference` characterises it by the reference state of the attempts seen so far |
| `Detectors.StepAllReference` | src/detectors.py:75-82 | the inner loop over one address moves the reference state along by that address's failed attempts |
| `Detectors.TalliedReference` | src/detectors.py:74-82 | after the loops, `tracker` holds the addresses with a failed attempt, `entries` every failed attempt in order, `freq` the number of such addresses if it exceeds the threshold, and `matches` the evidence appended along the way |
| `Detectors.EvidenceRecords` | src/detectors.py:79-82 | the evidence holds only failed attempts |
| `Detectors.EvidenceEmpty` | src/detectors.py:79-82 | the evidence is empty exactly when there are no failed attempts, or at most `threshold` failing addresses |
| `Detectors.FailuresInMembers` | src/detectors.py:75-77 | one address's failed attempts are exactly its records that are failed POST logins |
| `Detectors.FailuresMembers` | src/detectors.py:74-77 | the tagged failed attempts are exactly the failing records of each group, with their address |
| `Detectors.FailureAddrs` | src/detectors.py:78-80 | the tracker's keys are the addresses with at least one failed attempt |
| `Detectors.BruteForceFacts` | src/detectors.py:69-88 | the brute-force outcome as a function of the logs: frequency, failed-attempt evidence, and no matches exactly when the frequency is 0 |
| `Detectors.Detector.Detect` | src/detectors.py:40-46 | each detector's `detect` returns its rule's report, named after the detector and labelled LOW, or the scan rule's error |
| `Detectors.EmptyLogs` | src/detectors.py:69-154 | on an empty mapping each detector reports frequency 0 and no matches |
| `Classification.Classified` | src/classification.py:50-64 | classifying keeps a detection's name, frequency and matches, and leaves it unchanged when its frequency is not positive or its rule is unknown |
| `Classification.ShippedBands` | src/classification.py:5-9 | with the shipped thresholds a LOW detection of a known rule becomes HIGH exactly from 10 on, MEDIUM exactly from 7 to 9, and stays LOW below 7 |
| `Classification.UnknownRuleUntouched` | src/classification.py:54-57 | a detection whose rule has no thresholds is left as it is |
| `Classification.ClassifiedIdempotent` | src/classification.py:59-64 | classifying twice gives the same labels as classifying once |
| `Classification.ClassifiedMonotone` | src/classification.py:59-64 | among LOW detections of one rule, a higher frequency never gets a lower label |
| `Classification.LowThresholdUnused` | src/classification.py:59 | the low threshold does not affect the result |
| `Classification.ClassifiedKeepsRaised` | src/classification.py:59-64 | a detection that is not LOW is never relabelled LOW: the loop assigns only HIGH or MEDIUM |
| `Classification.ClassifiedOverwrites` | src/classification.py:61-64 | a HIGH detection with a frequency from 7 to 9 is relabelled MEDIUM |
| `Classification.Classifier.constructor` | src/classification.py:21-28 | the classifier holds the given detections and an empty `results` |
| `Classification.Classifier.Classify` | src/classification.py:49-66 | every held detection is replaced by its classification; `results` is untouched; the method returns the held list |
| `Orchestrator.FailureSticks` | src/orchestrator.py:33-35 | once a detector has raised, the later detectors change nothing |
| `Orchestrator.RunAllRunning` | src/orchestrator.py:33-37 | the run completes exactly when every detector succeeds, and then there is one report per detector, in order |
| `Orchestrator.RunAllFailed` | src/orchestrator.py:33-35 | a failed run carries the error of the first detector that raised, and the reports of the detectors before it |
| `Orchestrator.StandardRun` | src/orchestrator.py:17-21 | with the three standard detectors the reports are brute force, SQL injection, then scan, and a run fails only in the scan rule, after the first two reports |
| `Orchestrator.ThreatDetector.constructor` | src/orchestrator.py:15-22 | a new detector holds the logs, the three standard detectors in order, and no results |
| `Orchestrator.ThreatDetector.Run` | src/orchestrator.py:24-37 | `run` appends each detector's report to `results` until one raises, leaves the logs and detectors as they were, and returns `results` or the error |
| `Orchestrator.Orchestrate` | src/orchestrator.py:39-42 | a fresh run returns the three reports in order, or the scan rule's error |
| `Orchestrator.RunTwice` | src/orchestrator.py:22-37 | `results` is not cleared between runs: a second run returns the three reports twice |
| `Scenarios.SqliScenario` | src/detectors.py:108-120 | one request with `UNION SELECT ... FROM` is one SQL injection match, and it stays LOW after classification |
| `Scenarios.SqliOneRecord` | src/detectors.py:110-120 | on one address with one record, the SQL injection report has that record and frequency 1 when its request holds a keyword, and nothing otherwise |
| `Scenarios.ScanScenario` | src/detectors.py:146 | a user agent containing `dirb` is flagged; `Mozilla/5.0` is not |
| `Scenarios.MalformedScenario` | src/preprocessing.py:58-60 | one instance of `BuildSchema`'s contract: the line `not a valid log line` is not blank, stops matching after its third field, and is a malformed-line error |
| `Scenarios.BruteForceRepeatsEvidence` | src/detectors.py:76-82 | with threshold 0 and one address with two failed attempts, the first attempt appears twice in the evidence |
| `Scenarios.BruteForceOneAddress` | src/detectors.py:74-80 | with a positive threshold, one address's failed logins, however many, give frequency 0 and no matches, because the rule counts distinct failing addresses |

## Left out

- File reading (`load_data`), the printing helpers, and the script lines at the end of src/preprocessing.py are I/O. They are not modelled.
- The diagnostic prints in `build_schema` and `classify`, and the module entry point's `print`, are output only. They are not modelled.
- `datetime.strptime(..., "%d/%b/%Y:%H:%M:%S %z").isoformat()` is a call into the standard library. It is the parameter `toIso` (`None` stands for its ValueError), so the ISO text and offset handling are not modelled.
- The regex classes are modelled as follows. `\S` excludes exactly Python's whitespace characters. `\d` is modelled as the ASCII digits only, so Unicode decimal digits are left out.
- `int()` is modelled as an optional sign followed by ASCII digits. Underscores and Unicode digits are left out.
- Grouping records by address is done by no function of the source. `Orchestrator` imports a `preprocess` that src/preprocessing.py does not define. The detectors take the grouped mapping as a sequence of (address, records) pairs in the dict's insertion order. That a dict holds each address once is not assumed: every result about the detectors holds for any sequence of groups.
- The `Detector` Protocol is a closed datatype of the three detectors. Other implementations of the protocol are not modelled.
- Aliasing of Python objects is not modelled. Every `tracker` value is the same `entries` list, which is kept as one sequence plus the set of keys. Detection dicts are values: the classifier's in-place update is seen through its own field, not through the caller's list. `run()` returns a copy of `results`, not the same list.
- The detectors build their dicts without a `severity` key. The model gives every detection `Low`, the documented default. A detection that the classifier leaves alone therefore has `Low` rather than no key.
- The `results` field of `Classifier` is kept but nothing uses it, as in the source.
