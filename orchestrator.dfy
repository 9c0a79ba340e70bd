/** Running every detector over the grouped logs (src/orchestrator.py). */
module Orchestrator {
  import opened Wrappers
  import opened Schema
  import opened Detectors

  /** The detectors a `ThreatDetector` is built with, in order. */
  const Standard: seq<Detector> := [BruteForceDetector, SqliDetector, ScanDetector]

  /** Where the loop of `run` stands after some detectors: still running with the
      reports so far, or stopped by a detector's error with the reports appended
      before it. */
  datatype RunState = Running(reports: seq<Detection>) | Failed(reports: seq<Detection>, error: DetectError)

  /** The state after running the detectors `ds` in order over `logs`. */
  function RunAll(ds: seq<Detector>, logs: Groups): RunState
  {
    if ds == [] then Running([])
    else
      match RunAll(ds[..|ds| - 1], logs)
      case Failed(rs, e) => Failed(rs, e)
      case Running(rs) =>
        match ds[|ds| - 1].Expected(logs)
        case Ok(d) => Running(rs + [d])
        case Err(e) => Failed(rs, e)
  }

  /** Once a detector has failed, the later ones change nothing. */
  lemma {:induction false} FailureSticks(ds: seq<Detector>, i: nat, logs: Groups)
    requires i <= |ds| && RunAll(ds[..i], logs).Failed?
    ensures RunAll(ds, logs) == RunAll(ds[..i], logs)
    decreases |ds| - i
  {
    if i < |ds| {
      var init := ds[..|ds| - 1];
      assert init[..i] == ds[..i];
      FailureSticks(init, i, logs);
      assert RunAll(ds, logs) == RunAll(init, logs);
    } else {
      assert ds[..i] == ds;
    }
  }

  /** The run completes exactly when every detector succeeds, and then it holds
      one report per detector, in the detectors' order. */
  lemma {:induction false} RunAllRunning(ds: seq<Detector>, logs: Groups)
    ensures RunAll(ds, logs).Running? <==> forall k :: 0 <= k < |ds| ==> ds[k].Expected(logs).Ok?
    ensures RunAll(ds, logs).Running? ==>
      && |RunAll(ds, logs).reports| == |ds|
      && forall k :: 0 <= k < |ds| ==> RunAll(ds, logs).reports[k] == ds[k].Expected(logs).value
  {
    if ds != [] {
      var init := ds[..|ds| - 1];
      RunAllRunning(init, logs);
      assert forall k :: 0 <= k < |init| ==> init[k] == ds[k];
    }
  }

  /** A failed run stopped at the first detector that failed: its error is that
      detector's error, and the reports are those of the detectors before it. */
  lemma {:induction false} RunAllFailed(ds: seq<Detector>, logs: Groups)
    requires RunAll(ds, logs).Failed?
    ensures exists j ::
      && 0 <= j < |ds|
      && (forall k :: 0 <= k < j ==> ds[k].Expected(logs).Ok?)
      && ds[j].Expected(logs) == Err(RunAll(ds, logs).error)
      && RunAll(ds, logs).reports == RunAll(ds[..j], logs).reports
  {
    var init := ds[..|ds| - 1];
    if RunAll(init, logs).Failed? {
      assert RunAll(ds, logs) == RunAll(init, logs);
      RunAllFailed(init, logs);
      var j :| 0 <= j < |init|
        && (forall k :: 0 <= k < j ==> init[k].Expected(logs).Ok?)
        && init[j].Expected(logs) == Err(RunAll(init, logs).error)
        && RunAll(init, logs).reports == RunAll(init[..j], logs).reports;
      assert init[..j] == ds[..j];
      assert forall k :: 0 <= k < j ==> ds[k].Expected(logs).Ok? by {
        forall k | 0 <= k < j ensures ds[k].Expected(logs).Ok? {
          assert init[k] == ds[k];
        }
      }
      assert ds[j] == init[j];
    } else {
      var j := |ds| - 1;
      RunAllRunning(init, logs);
      assert ds[..j] == init;
      assert forall k :: 0 <= k < j ==> ds[k].Expected(logs).Ok? by {
        forall k | 0 <= k < j ensures ds[k].Expected(logs).Ok? {
          assert init[k] == ds[k];
        }
      }
      assert ds[j].Expected(logs) == Err(RunAll(ds, logs).error);
    }
  }

  /** With the three standard detectors the run fails only through the scan
      detector, after the brute-force and SQL injection reports are in. */
  lemma StandardRun(logs: Groups)
    ensures var s := RunAll(Standard, logs);
      match ScanResult(logs)
      case Ok(scan) => s == Running([BruteForceResult(logs, DefaultThreshold), SqliResult(logs), scan])
      case Err(e) => s == Failed([BruteForceResult(logs, DefaultThreshold), SqliResult(logs)], e)
  {
    var bf := BruteForceResult(logs, DefaultThreshold);
    assert Standard[..1][..0] == [];
    assert RunAll(Standard[..1], logs) == Running([bf]);
    assert Standard[..2][..1] == Standard[..1];
    assert RunAll(Standard[..2], logs) == Running([bf, SqliResult(logs)]);
    assert Standard[..|Standard| - 1] == Standard[..2];
  }

  /** `ThreatDetector`: the grouped logs, the detectors and the reports gathered
      so far, all updated in place. */
  class ThreatDetector {
    var logs: Groups
    var detectors: seq<Detector>
    var results: seq<Detection>

    constructor (logs: Groups)
      ensures this.logs == logs && detectors == Standard && results == []
    {
      this.logs := logs;
      detectors := Standard;
      results := [];
    }

    /** `run()`: appends each detector's report to `results` in order and
        returns `results`. A detector that raises stops the run with the reports
        before it already appended. */
    method Run() returns (r: Result<seq<Detection>, DetectError>)
      modifies this
      ensures logs == old(logs) && detectors == old(detectors)
      ensures results == old(results) + RunAll(detectors, logs).reports
      ensures r == match RunAll(detectors, logs)
        case Running(_) => Ok(results)
        case Failed(_, e) => Err(e)
    {
      for i := 0 to |detectors|
        invariant logs == old(logs) && detectors == old(detectors)
        invariant RunAll(detectors[..i], logs).Running?
        invariant results == old(results) + RunAll(detectors[..i], logs).reports
      {
        var matches := detectors[i].Detect(logs);
        assert detectors[..i + 1][..i] == detectors[..i];
        if matches.Err? {
          r := Err(matches.error);
          FailureSticks(detectors, i + 1, logs);
          return;
        }
        results := results + [matches.value];
      }
      assert detectors[..|detectors|] == detectors;
      r := Ok(results);
    }
  }

  /** What the module's entry point does with preprocessed logs: build a
      `ThreatDetector` and run it once. */
  method Orchestrate(logs: Groups) returns (r: Result<seq<Detection>, DetectError>)
    ensures r.Ok? <==> ScanResult(logs).Ok?
    ensures r.Ok? ==> r.value == [BruteForceResult(logs, DefaultThreshold), SqliResult(logs), ScanResult(logs).value]
    ensures r.Err? ==> r.error == NoneUserAgent
  {
    var detector := new ThreatDetector(logs);
    r := detector.Run();
    StandardRun(logs);
  }

  /** `run()` called twice on one `ThreatDetector`: `results` is never cleared,
      so the second call returns every report twice. */
  method RunTwice(logs: Groups) returns (first: Result<seq<Detection>, DetectError>, second: Result<seq<Detection>, DetectError>)
    ensures ScanResult(logs).Ok? ==> first.Ok? && second.Ok? && |first.value| == 3 && second.value == first.value + first.value
    ensures ScanResult(logs).Err? ==> first.Err? && second.Err?
  {
    var detector := new ThreatDetector(logs);
    first := detector.Run();
    second := detector.Run();
    StandardRun(logs);
  }
}
