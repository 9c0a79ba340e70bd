/** The three rule evaluators (src/detectors.py). Each walks the grouped logs,
    address by address in the mapping's insertion order and, within an address,
    record by record, and reports one `Detection` with severity `Low`. */
module Detectors {
  import opened Wrappers
  import opened Text
  import opened Schema

  /** SQL keywords looked for in the request line (case-sensitive substrings). */
  const Keywords: seq<string> :=
    ["SELECT", "FROM", "WHERE", "GROUP BY", "HAVING", "ORDER BY", "UPDATE", "TABLE", "JOIN", "UNION"]

  /** Scanner signatures looked for in the user agent. */
  const ScanPatterns: seq<string> := ["Nmap", "dirb"]

  /** Login-style methods looked for in the request line. */
  const LoginRequests: seq<string> := ["POST"]

  const BruteForceName: string := "brute_force"
  const SqliName: string := "sql_injection"
  const ScanName: string := "scan_pattern"

  /** The brute-force threshold `detect` uses when none is given. */
  const DefaultThreshold: int := 5

  /** Grouped logs: each address with its records, in the insertion order of the
      Python dict the detectors iterate. */
  type Groups = seq<(string, seq<Record>)>

  /** The detectors' error: `KEYWORD in None` raises TypeError. */
  datatype DetectError = NoneUserAgent

  // ---------------------------------------------------------------------------
  // Iteration order
  // ---------------------------------------------------------------------------

  /** All records in the order the nested loops visit them. */
  function Flatten(g: Groups): seq<Record>
  {
    if g == [] then [] else Flatten(g[..|g| - 1]) + g[|g| - 1].1
  }

  /** The records satisfying `p`, in their original order. */
  function Keep(xs: seq<Record>, p: Record -> bool): seq<Record>
  {
    if xs == [] then []
    else Keep(xs[..|xs| - 1], p) + (if p(xs[|xs| - 1]) then [xs[|xs| - 1]] else [])
  }

  /** A record is visited exactly when it belongs to some group. */
  lemma {:induction false} FlattenMembers(g: Groups)
    ensures forall x :: x in Flatten(g) <==> exists i :: 0 <= i < |g| && x in g[i].1
  {
    if g != [] {
      var init := g[..|g| - 1];
      FlattenMembers(init);
      assert forall i :: 0 <= i < |init| ==> init[i] == g[i];
    }
  }

  /** `Keep` selects exactly the members satisfying `p`. */
  lemma {:induction false} KeepMembers(xs: seq<Record>, p: Record -> bool)
    ensures forall x :: x in Keep(xs, p) <==> x in xs && p(x)
  {
    if xs != [] {
      var init := xs[..|xs| - 1];
      KeepMembers(init, p);
      assert xs == init + [xs[|xs| - 1]];
    }
  }

  /** The visited records after one more group. */
  lemma FlattenNext(g: Groups, i: int)
    requires 0 <= i < |g|
    ensures Flatten(g[..i + 1]) == Flatten(g[..i]) + g[i].1
  {
    assert g[..i + 1][..i] == g[..i];
  }

  /** Selecting after one more record. */
  lemma KeepNext(xs: seq<Record>, x: Record, p: Record -> bool)
    ensures Keep(xs + [x], p) == Keep(xs, p) + (if p(x) then [x] else [])
  {
    assert (xs + [x])[..|xs|] == xs;
  }

  // ---------------------------------------------------------------------------
  // SQL injection
  // ---------------------------------------------------------------------------

  /** The request line contains one of the SQL keywords. */
  predicate IsSqli(r: Record)
  {
    ContainsAny(r.request, Keywords)
  }

  /** What `SQLiDetector.detect` reports. */
  function SqliResult(logs: Groups): Detection
  {
    var m := Keep(Flatten(logs), IsSqli);
    Detection(SqliName, |m|, m, Low)
  }

  /** `SQLiDetector.detect(logs)`. */
  method SqliDetect(logs: Groups) returns (r: Detection)
    ensures r == SqliResult(logs)
    ensures r.name == SqliName && r.severity == Low && r.freq == |r.matches|
    ensures forall x :: x in r.matches <==>
      (exists i :: 0 <= i < |logs| && x in logs[i].1) && exists k :: 0 <= k < |Keywords| && Contains(x.request, Keywords[k])
  {
    var matches: seq<Record> := [];
    var freq := 0;
    for i := 0 to |logs|
      invariant matches == Keep(Flatten(logs[..i]), IsSqli) && freq == |matches|
    {
      var data := logs[i].1;
      FlattenNext(logs, i);
      assert Flatten(logs[..i]) + data[..0] == Flatten(logs[..i]);
      for j := 0 to |data|
        invariant matches == Keep(Flatten(logs[..i]) + data[..j], IsSqli) && freq == |matches|
      {
        var entry := data[j];
        assert Flatten(logs[..i]) + data[..j + 1] == (Flatten(logs[..i]) + data[..j]) + [entry];
        KeepNext(Flatten(logs[..i]) + data[..j], entry, IsSqli);
        if ContainsAny(entry.request, Keywords) {
          freq := freq + 1;
          matches := matches + [entry];
        }
      }
      assert data[..|data|] == data;
    }
    assert logs[..|logs|] == logs;
    r := Detection(SqliName, freq, matches, Low);
    SqliFacts(logs);
  }

  /** The SQL injection report matches exactly the records, in any group, whose
      request contains a keyword, and its frequency is the number of matches. */
  lemma SqliFacts(logs: Groups)
    ensures var r := SqliResult(logs);
      && r.name == SqliName && r.severity == Low && r.freq == |r.matches|
      && forall x :: x in r.matches <==>
        (exists i :: 0 <= i < |logs| && x in logs[i].1) && exists k :: 0 <= k < |Keywords| && Contains(x.request, Keywords[k])
  {
    FlattenMembers(logs);
    KeepMembers(Flatten(logs), IsSqli);
  }

  // ---------------------------------------------------------------------------
  // Scan pattern
  // ---------------------------------------------------------------------------

  /** The user agent is present and contains one of the scanner signatures. */
  predicate IsScan(r: Record)
  {
    r.httpUserAgent.Some? && ContainsAny(r.httpUserAgent.value, ScanPatterns)
  }

  /** Every record has a user agent. */
  predicate AllHaveAgent(xs: seq<Record>)
  {
    forall k :: 0 <= k < |xs| ==> xs[k].httpUserAgent.Some?
  }

  /** Every record of a sequence extended by one has a user agent exactly when the
      old ones and the new one do. */
  lemma AllHaveAgentNext(xs: seq<Record>, x: Record)
    ensures AllHaveAgent(xs + [x]) <==> AllHaveAgent(xs) && x.httpUserAgent.Some?
  {
    if AllHaveAgent(xs + [x]) {
      forall k | 0 <= k < |xs| ensures xs[k].httpUserAgent.Some? {
        assert (xs + [x])[k] == xs[k];
      }
      assert (xs + [x])[|xs|] == x;
    }
  }

  /** What `ScanDetector.detect` reports: a TypeError as soon as a visited record
      has no user agent, otherwise the records whose user agent holds a signature. */
  function ScanResult(logs: Groups): Result<Detection, DetectError>
  {
    if !AllHaveAgent(Flatten(logs)) then Err(NoneUserAgent)
    else
      var m := Keep(Flatten(logs), IsScan);
      Ok(Detection(ScanName, |m|, m, Low))
  }

  /** `ScanDetector.detect(logs)`. */
  method ScanDetect(logs: Groups) returns (r: Result<Detection, DetectError>)
    ensures r == ScanResult(logs)
    ensures r.Err? <==> exists i, x :: 0 <= i < |logs| && x in logs[i].1 && x.httpUserAgent.None?
    ensures r.Ok? ==> r.value.name == ScanName && r.value.severity == Low && r.value.freq == |r.value.matches|
    ensures r.Ok? ==> forall x :: x in r.value.matches <==>
      (exists i :: 0 <= i < |logs| && x in logs[i].1) && exists k :: 0 <= k < |ScanPatterns| && Contains(x.httpUserAgent.value, ScanPatterns[k])
  {
    var detected: seq<Record> := [];
    var freq := 0;
    for i := 0 to |logs|
      invariant AllHaveAgent(Flatten(logs[..i]))
      invariant detected == Keep(Flatten(logs[..i]), IsScan) && freq == |detected|
    {
      var data := logs[i].1;
      FlattenNext(logs, i);
      assert Flatten(logs[..i]) + data[..0] == Flatten(logs[..i]);
      for j := 0 to |data|
        invariant AllHaveAgent(Flatten(logs[..i]) + data[..j])
        invariant detected == Keep(Flatten(logs[..i]) + data[..j], IsScan) && freq == |detected|
      {
        var entry := data[j];
        if entry.httpUserAgent.None? {
          AgentMissing(logs, i, j);
          r := Err(NoneUserAgent);
          ScanFacts(logs);
          return;
        }
        assert Flatten(logs[..i]) + data[..j + 1] == (Flatten(logs[..i]) + data[..j]) + [entry];
        KeepNext(Flatten(logs[..i]) + data[..j], entry, IsScan);
        AllHaveAgentNext(Flatten(logs[..i]) + data[..j], entry);
        if ContainsAny(entry.httpUserAgent.value, ScanPatterns) {
          freq := freq + 1;
          detected := detected + [entry];
        }
      }
      assert data[..|data|] == data;
    }
    assert logs[..|logs|] == logs;
    r := Ok(Detection(ScanName, freq, detected, Low));
    ScanFacts(logs);
  }

  /** One record without a user agent makes the scan detector fail. */
  lemma AgentMissing(logs: Groups, i: int, j: int)
    requires 0 <= i < |logs| && 0 <= j < |logs[i].1| && logs[i].1[j].httpUserAgent.None?
    ensures ScanResult(logs) == Err(NoneUserAgent)
  {
    FlattenMembers(logs);
    assert logs[i].1[j] in Flatten(logs);
  }

  /** The scan detector fails exactly when some record has no user agent; otherwise
      it matches exactly the records whose user agent contains a signature, and its
      frequency is the number of matches. */
  lemma ScanFacts(logs: Groups)
    ensures ScanResult(logs).Err? <==> exists i, x :: 0 <= i < |logs| && x in logs[i].1 && x.httpUserAgent.None?
    ensures ScanResult(logs).Ok? ==>
      var r := ScanResult(logs).value;
      && r.name == ScanName && r.severity == Low && r.freq == |r.matches|
      && forall x :: x in r.matches <==>
        (exists i :: 0 <= i < |logs| && x in logs[i].1) && exists k :: 0 <= k < |ScanPatterns| && Contains(x.httpUserAgent.value, ScanPatterns[k])
  {
    FlattenMembers(logs);
    KeepMembers(Flatten(logs), IsScan);
    if !AllHaveAgent(Flatten(logs)) {
      var k :| 0 <= k < |Flatten(logs)| && Flatten(logs)[k].httpUserAgent.None?;
      var x := Flatten(logs)[k];
      assert x in Flatten(logs);
    } else {
      forall i, x | 0 <= i < |logs| && x in logs[i].1 ensures x.httpUserAgent.Some? {
        assert x in Flatten(logs);
      }
    }
  }

  // ---------------------------------------------------------------------------
  // Brute force
  // ---------------------------------------------------------------------------

  /** A failed login attempt: status other than 200 and "POST" in the request line. */
  predicate IsLoginFailure(r: Record)
  {
    r.status != 200 && ContainsAny(r.request, LoginRequests)
  }

  /** The local state of `BruteForceDetector.detect`: `matches`, the keys of
      `tracker`, `freq`, and the single `entries` list every tracker value refers to. */
  datatype Tally = Tally(matches: seq<Record>, tracker: set<string>, freq: int, entries: seq<Record>)

  /** One visit of the inner loop. */
  function Step(t: Tally, addr: string, log: Record, threshold: int): Tally
  {
    if IsLoginFailure(log) then
      var entries := t.entries + [log];
      var tracker := t.tracker + {addr};
      if |tracker| > threshold then Tally(t.matches + entries, tracker, |tracker|, entries)
      else Tally(t.matches, tracker, t.freq, entries)
    else t
  }

  /** The inner loop over one address's records. */
  function StepAll(t: Tally, addr: string, logs: seq<Record>, threshold: int): Tally
  {
    if logs == [] then t
    else Step(StepAll(t, addr, logs[..|logs| - 1], threshold), addr, logs[|logs| - 1], threshold)
  }

  /** The outer loop over the grouped logs. */
  function Tallied(g: Groups, threshold: int): Tally
  {
    if g == [] then Tally([], {}, 0, [])
    else StepAll(Tallied(g[..|g| - 1], threshold), g[|g| - 1].0, g[|g| - 1].1, threshold)
  }

  /** What `BruteForceDetector.detect(logs, threshold=threshold)` reports. */
  function BruteForceResult(logs: Groups, threshold: int): Detection
  {
    var t := Tallied(logs, threshold);
    Detection(BruteForceName, t.freq, t.matches, Low)
  }

  /** The addresses with at least one failed login attempt. */
  function FailingAddrs(g: Groups): set<string>
  {
    set i, x | 0 <= i < |g| && x in g[i].1 && IsLoginFailure(x) :: g[i].0
  }

  /** `BruteForceDetector.detect(logs, threshold=threshold)`, as written: every
      failed attempt is appended to one shared `entries` list, `tracker` counts the
      distinct addresses seen so far, and each failed attempt seen while that count
      exceeds the threshold appends the whole of `entries` to `matches` again. */
  method BruteForceDetect(logs: Groups, threshold: int) returns (r: Detection)
    ensures r == BruteForceResult(logs, threshold)
    ensures r.name == BruteForceName && r.severity == Low
    ensures r.freq == if |FailingAddrs(logs)| > threshold then |FailingAddrs(logs)| else 0
    ensures forall x :: x in r.matches ==> (exists i :: 0 <= i < |logs| && x in logs[i].1) && IsLoginFailure(x)
    ensures r.matches == [] <==> r.freq == 0
  {
    var matches: seq<Record> := [];
    var tracker: set<string> := {};
    var freq := 0;
    var entries: seq<Record> := [];
    for i := 0 to |logs|
      invariant Tally(matches, tracker, freq, entries) == Tallied(logs[..i], threshold)
    {
      var addr := logs[i].0;
      var data := logs[i].1;
      ghost var before := Tallied(logs[..i], threshold);
      assert Tallied(logs[..i + 1], threshold) == StepAll(before, addr, data, threshold) by {
        assert logs[..i + 1][..i] == logs[..i];
      }
      for j := 0 to |data|
        invariant Tally(matches, tracker, freq, entries) == StepAll(before, addr, data[..j], threshold)
      {
        var log := data[j];
        assert data[..j + 1][..j] == data[..j];
        if log.status != 200 && ContainsAny(log.request, LoginRequests) {
          entries := entries + [log];
          tracker := tracker + {addr};
          if |tracker| > threshold {
            freq := |tracker|;
            ghost var old_matches := matches;
            for k := 0 to |entries|
              invariant matches == old_matches + entries[..k]
            {
              matches := matches + [entries[k]];
            }
            assert entries[..|entries|] == entries;
          }
        }
      }
      assert data[..|data|] == data;
    }
    assert logs[..|logs|] == logs;
    r := Detection(BruteForceName, freq, matches, Low);
    BruteForceFacts(logs, threshold);
  }

  // The brute-force state, read off the sequence of failed attempts.

  /** The failed attempts of one address, tagged with the address. */
  function FailuresIn(addr: string, logs: seq<Record>): seq<(string, Record)>
  {
    if logs == [] then []
    else
      var last := logs[|logs| - 1];
      FailuresIn(addr, logs[..|logs| - 1]) + (if IsLoginFailure(last) then [(addr, last)] else [])
  }

  /** All failed attempts, in visiting order, tagged with their address. */
  function Failures(g: Groups): seq<(string, Record)>
  {
    if g == [] then [] else Failures(g[..|g| - 1]) + FailuresIn(g[|g| - 1].0, g[|g| - 1].1)
  }

  function AddrsOf(q: seq<(string, Record)>): set<string>
  {
    set p | p in q :: p.0
  }

  function RecordsOf(q: seq<(string, Record)>): (rs: seq<Record>)
    ensures |rs| == |q| && forall k :: 0 <= k < |q| ==> rs[k] == q[k].1
  {
    seq(|q|, k requires 0 <= k < |q| => q[k].1)
  }

  /** The evidence after the failed attempts `q`: each attempt that arrives while
      the number of distinct addresses so far exceeds the threshold appends every
      attempt so far. */
  function Evidence(q: seq<(string, Record)>, threshold: int): seq<Record>
  {
    if q == [] then []
    else Evidence(q[..|q| - 1], threshold) + (if |AddrsOf(q)| > threshold then RecordsOf(q) else [])
  }

  /** The state the detector is in after the failed attempts `q`. */
  function Reference(q: seq<(string, Record)>, threshold: int): Tally
  {
    var n := |AddrsOf(q)|;
    Tally(Evidence(q, threshold), AddrsOf(q), if n > threshold then n else 0, RecordsOf(q))
  }

  /** One visit moves the reference state along by the attempt, if it is one. */
  lemma StepReference(q: seq<(string, Record)>, addr: string, log: Record, threshold: int)
    ensures Step(Reference(q, threshold), addr, log, threshold)
         == Reference(q + (if IsLoginFailure(log) then [(addr, log)] else []), threshold)
  {
    if IsLoginFailure(log) {
      var q' := q + [(addr, log)];
      assert AddrsOf(q') == AddrsOf(q) + {addr};
      assert RecordsOf(q') == RecordsOf(q) + [log];
      assert q'[..|q'| - 1] == q;
      if addr in AddrsOf(q) {
        assert AddrsOf(q') == AddrsOf(q);
      }
    } else {
      assert q + [] == q;
    }
  }

  /** The inner loop moves the reference state along by the address's attempts. */
  lemma {:induction false} StepAllReference(q: seq<(string, Record)>, addr: string, logs: seq<Record>, threshold: int)
    ensures StepAll(Reference(q, threshold), addr, logs, threshold) == Reference(q + FailuresIn(addr, logs), threshold)
  {
    if logs == [] {
      assert q + [] == q;
    } else {
      var init := logs[..|logs| - 1];
      var last := logs[|logs| - 1];
      StepAllReference(q, addr, init, threshold);
      StepReference(q + FailuresIn(addr, init), addr, last, threshold);
      var extra := if IsLoginFailure(last) then [(addr, last)] else [];
      assert FailuresIn(addr, logs) == FailuresIn(addr, init) + extra;
      assert q + FailuresIn(addr, init) + extra == q + FailuresIn(addr, logs);
      assert StepAll(Reference(q, threshold), addr, logs, threshold)
          == Step(StepAll(Reference(q, threshold), addr, init, threshold), addr, last, threshold);
    }
  }

  /** The detector's state after the outer loop is the reference state of all attempts. */
  lemma {:induction false} TalliedReference(g: Groups, threshold: int)
    ensures Tallied(g, threshold) == Reference(Failures(g), threshold)
  {
    if g == [] {
      assert AddrsOf([]) == {};
    } else {
      var init := g[..|g| - 1];
      TalliedReference(init, threshold);
      StepAllReference(Failures(init), g[|g| - 1].0, g[|g| - 1].1, threshold);
    }
  }

  /** The distinct addresses of some attempts and one more. */
  lemma AddrsOfSnoc(q: seq<(string, Record)>)
    requires q != []
    ensures AddrsOf(q) == AddrsOf(q[..|q| - 1]) + {q[|q| - 1].0}
  {
    assert q == q[..|q| - 1] + [q[|q| - 1]];
  }

  /** The evidence holds only failed attempts. */
  lemma {:induction false} EvidenceRecords(q: seq<(string, Record)>, threshold: int)
    ensures forall x :: x in Evidence(q, threshold) ==> x in RecordsOf(q)
  {
    if q != [] {
      var init := q[..|q| - 1];
      EvidenceRecords(init, threshold);
      forall x | x in Evidence(q, threshold) ensures x in RecordsOf(q) {
        if x in Evidence(init, threshold) {
          var k :| 0 <= k < |init| && RecordsOf(init)[k] == x;
          assert RecordsOf(q)[k] == x;
        }
      }
    }
  }

  /** The evidence is empty exactly when there are no failed attempts, or at most
      `threshold` distinct failing addresses. */
  lemma {:induction false} EvidenceEmpty(q: seq<(string, Record)>, threshold: int)
    ensures Evidence(q, threshold) == [] <==> q == [] || |AddrsOf(q)| <= threshold
  {
    if q != [] {
      var init := q[..|q| - 1];
      EvidenceEmpty(init, threshold);
      AddrsOfSnoc(q);
      if q[|q| - 1].0 in AddrsOf(init) {
        assert AddrsOf(q) == AddrsOf(init);
      }
      assert |AddrsOf(init)| <= |AddrsOf(q)|;
      assert |RecordsOf(q)| > 0;
    }
  }

  /** The failed attempts of one address are its records that fail, tagged with it. */
  lemma {:induction false} FailuresInMembers(addr: string, logs: seq<Record>)
    ensures forall p :: p in FailuresIn(addr, logs) <==> p.0 == addr && p.1 in logs && IsLoginFailure(p.1)
  {
    if logs != [] {
      var init := logs[..|logs| - 1];
      FailuresInMembers(addr, init);
      assert logs == init + [logs[|logs| - 1]];
    }
  }

  /** The tagged attempts are exactly the failing records of each group. */
  lemma {:induction false} FailuresMembers(g: Groups)
    ensures forall p :: p in Failures(g) <==> exists i :: 0 <= i < |g| && p.0 == g[i].0 && p.1 in g[i].1 && IsLoginFailure(p.1)
  {
    if g != [] {
      var init := g[..|g| - 1];
      var last := g[|g| - 1];
      FailuresMembers(init);
      FailuresInMembers(last.0, last.1);
      assert forall i :: 0 <= i < |init| ==> init[i] == g[i];
    }
  }

  /** The tracker's keys are the failing addresses. */
  lemma FailureAddrs(g: Groups)
    ensures AddrsOf(Failures(g)) == FailingAddrs(g)
  {
    FailuresMembers(g);
    forall a | a in FailingAddrs(g) ensures a in AddrsOf(Failures(g)) {
      var i, x :| 0 <= i < |g| && x in g[i].1 && IsLoginFailure(x) && g[i].0 == a;
      assert (a, x) in Failures(g);
    }
  }

  /** What the brute-force detector promises. `freq` is the number of distinct
      addresses with a failed attempt when that number exceeds the threshold, and
      0 otherwise; every match is a failed attempt of some group; there are matches
      exactly when `freq` is not 0. */
  lemma BruteForceFacts(logs: Groups, threshold: int)
    ensures var r := BruteForceResult(logs, threshold);
      && r.freq == (if |FailingAddrs(logs)| > threshold then |FailingAddrs(logs)| else 0)
      && (forall x :: x in r.matches ==> (exists i :: 0 <= i < |logs| && x in logs[i].1) && IsLoginFailure(x))
      && (r.matches == [] <==> r.freq == 0)
  {
    var q := Failures(logs);
    TalliedReference(logs, threshold);
    FailureAddrs(logs);
    EvidenceRecords(q, threshold);
    EvidenceEmpty(q, threshold);
    FailuresMembers(logs);
    forall x | x in Evidence(q, threshold)
      ensures (exists i :: 0 <= i < |logs| && x in logs[i].1) && IsLoginFailure(x)
    {
      var k :| 0 <= k < |q| && RecordsOf(q)[k] == x;
      assert q[k] in q;
    }
    if q != [] {
      assert q[0].0 in AddrsOf(q);
    }
  }

  // ---------------------------------------------------------------------------
  // The detector set
  // ---------------------------------------------------------------------------

  /** The three detector kinds; each has its fixed rule name. */
  datatype Detector = BruteForceDetector | SqliDetector | ScanDetector {
    function Name(): string
    {
      match this
      case BruteForceDetector => BruteForceName
      case SqliDetector => SqliName
      case ScanDetector => ScanName
    }

    /** What `detect(logs)` reports (brute force with its default threshold). */
    function Expected(logs: Groups): Result<Detection, DetectError>
    {
      match this
      case BruteForceDetector => Ok(BruteForceResult(logs, DefaultThreshold))
      case SqliDetector => Ok(SqliResult(logs))
      case ScanDetector => ScanResult(logs)
    }

    /** `detect(logs)`. */
    method Detect(logs: Groups) returns (r: Result<Detection, DetectError>)
      ensures r == Expected(logs)
      ensures r.Ok? ==> r.value.name == Name() && r.value.severity == Low
    {
      match this
      case BruteForceDetector =>
        var d := BruteForceDetect(logs, DefaultThreshold);
        r := Ok(d);
      case SqliDetector =>
        var d := SqliDetect(logs);
        r := Ok(d);
      case ScanDetector =>
        r := ScanDetect(logs);
    }
  }

  /** On an empty mapping every detector reports its own name, frequency 0 and no matches. */
  lemma EmptyLogs(d: Detector)
    ensures d.Expected([]) == Ok(Detection(d.Name(), 0, [], Low))
  {
  }
}
