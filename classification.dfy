/** Severity labelling of detections by frequency (src/classification.py). */
module Classification {
  import opened Schema
  import Detectors

  /** Per-rule thresholds (low, medium, high). The low threshold is never consulted. */
  const Thresholds: map<string, (int, int, int)> := map[
    Detectors.BruteForceName := (5, 7, 10),
    Detectors.SqliName := (5, 7, 10),
    Detectors.ScanName := (5, 7, 10)
  ]

  /** One iteration of `Classifier.classify`: a detection with a positive frequency
      and a known rule name is raised to HIGH at the high threshold, to MEDIUM at
      the medium threshold, and otherwise keeps whatever severity it had. */
  function Classified(d: Detection, table: map<string, (int, int, int)>): (r: Detection)
    ensures r.name == d.name && r.freq == d.freq && r.matches == d.matches
    ensures d.freq <= 0 || d.name !in table ==> r == d
  {
    if d.freq <= 0 || d.name !in table then d
    else
      var (_, med, high) := table[d.name];
      if d.freq >= high then d.(severity := High)
      else if d.freq >= med then d.(severity := Medium)
      else d
  }

  /** Every detection of the sequence classified, in place and in order. */
  function ClassifiedAll(ds: seq<Detection>, table: map<string, (int, int, int)>): (r: seq<Detection>)
    ensures |r| == |ds| && forall i :: 0 <= i < |ds| ==> r[i] == Classified(ds[i], table)
  {
    seq(|ds|, i requires 0 <= i < |ds| => Classified(ds[i], table))
  }

  /** With the shipped thresholds, a detection of one of the three rules that
      still has the detectors' LOW label ends up HIGH from 10 occurrences on,
      MEDIUM from 7 to 9, and LOW below 7. */
  lemma ShippedBands(d: Detection)
    requires d.name in {Detectors.BruteForceName, Detectors.SqliName, Detectors.ScanName}
    requires d.severity == Low
    ensures Classified(d, Thresholds).severity == High <==> d.freq >= 10
    ensures Classified(d, Thresholds).severity == Medium <==> 7 <= d.freq < 10
    ensures Classified(d, Thresholds).severity == Low <==> d.freq < 7
  {
    assert Thresholds[d.name] == (5, 7, 10);
  }

  /** Any other rule name is left untouched, whatever its frequency. */
  lemma UnknownRuleUntouched(d: Detection)
    requires d.name !in {Detectors.BruteForceName, Detectors.SqliName, Detectors.ScanName}
    ensures Classified(d, Thresholds) == d
  {
  }

  /** Classifying twice is classifying once. */
  lemma ClassifiedIdempotent(d: Detection, table: map<string, (int, int, int)>)
    ensures Classified(Classified(d, table), table) == Classified(d, table)
  {
  }

  /** On LOW inputs of the same rule, a larger frequency never gets a lower label. */
  lemma ClassifiedMonotone(d: Detection, e: Detection, table: map<string, (int, int, int)>)
    requires d.name == e.name && d.severity == Low && e.severity == Low
    requires d.freq <= e.freq
    ensures Classified(d, table).severity.AtMost(Classified(e, table).severity)
  {
  }

  /** Changing a rule's low threshold changes nothing. */
  lemma LowThresholdUnused(d: Detection, table: map<string, (int, int, int)>, low: int)
    requires d.name in table
    ensures Classified(d, table[d.name := (low, table[d.name].1, table[d.name].2)]) == Classified(d, table)
  {
  }

  /** A label other than LOW is never taken back to LOW: classification only
      ever assigns HIGH or MEDIUM. */
  lemma ClassifiedKeepsRaised(d: Detection, table: map<string, (int, int, int)>)
    requires d.severity != Low
    ensures Classified(d, table).severity != Low
  {
  }

  /** A HIGH label on a detection whose frequency lies between the medium and
      high thresholds is lowered to MEDIUM: classification overwrites rather than
      raises. */
  lemma ClassifiedOverwrites(d: Detection)
    requires d.name in Thresholds && d.severity == High && 7 <= d.freq < 10
    ensures Classified(d, Thresholds).severity == Medium
  {
    assert Thresholds[d.name] == (5, 7, 10);
  }

  /** The classifier over a list of detections. Python mutates the detection
      dicts in place and hands back the same list; here the detections are values
      held in a field that `Classify` reassigns. */
  class Classifier {
    var detections: seq<Detection>
    var results: seq<Detection>

    constructor (detections: seq<Detection>)
      ensures this.detections == detections && results == []
    {
      this.detections := detections;
      results := [];
    }

    /** `classify()`: labels every detection and returns the list. */
    method Classify() returns (r: seq<Detection>)
      modifies this
      ensures detections == ClassifiedAll(old(detections), Thresholds)
      ensures results == old(results)
      ensures r == detections
    {
      ghost var original := detections;
      for i := 0 to |detections|
        invariant |detections| == |original|
        invariant forall k :: 0 <= k < i ==> detections[k] == Classified(original[k], Thresholds)
        invariant forall k :: i <= k < |detections| ==> detections[k] == original[k]
        invariant results == old(results)
      {
        var detection := detections[i];
        var freq := detection.freq;
        if freq <= 0 {
          continue;
        }
        if detection.name !in Thresholds {
          continue;
        }
        var (_, medT, highT) := Thresholds[detection.name];
        if freq >= highT {
          detections := detections[i := detection.(severity := High)];
        } else if freq >= medT {
          detections := detections[i := detection.(severity := Medium)];
        }
      }
      r := detections;
    }
  }
}
