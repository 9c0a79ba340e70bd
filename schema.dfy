/** The shared data model (util/schema.py): the severity scale, the normalised
    access-log record and the result a detector reports. */
module Schema {
  import opened Wrappers

  /** Severity labels, ordinal through their integer values -1, 0 and 1. */
  datatype Severity = Low | Medium | High {
    function Value(): (v: int)
      ensures -1 <= v <= 1
    {
      match this
      case Low => -1
      case Medium => 0
      case High => 1
    }

    /** The ordering of labels is the ordering of their values. */
    predicate AtMost(other: Severity)
    {
      Value() <= other.Value()
    }
  }

  /** The three labels have the values -1, 0, 1, no two share a value, and their
      values order them as a chain LOW < MEDIUM < HIGH. */
  lemma SeverityValues(a: Severity, b: Severity)
    ensures Low.Value() == -1 && Medium.Value() == 0 && High.Value() == 1
    ensures a.Value() == b.Value() <==> a == b
    ensures a.AtMost(b) <==> (a == Low || b == High || a == b)
  {
  }

  /** `AtMost` is a total order on labels. */
  lemma SeverityTotalOrder(a: Severity, b: Severity, c: Severity)
    ensures a.AtMost(a)
    ensures a.AtMost(b) && b.AtMost(a) ==> a == b
    ensures a.AtMost(b) && b.AtMost(c) ==> a.AtMost(c)
    ensures a.AtMost(b) || b.AtMost(a)
  {
  }

  /** One normalised access-log entry. The address, both timestamps, the request
      line and the status are always present; the other four fields may be absent. */
  datatype Record = Record(
    remoteAddr: string,
    remoteUser: Option<string>,
    timeLocal: string,
    timestamp: string,
    request: string,
    status: int,
    bodyBytesSent: Option<int>,
    httpReferer: Option<string>,
    httpUserAgent: Option<string>
  )

  /** The aggregate finding of one rule. A detector creates it with severity `Low`,
      the documented default; only the classifier writes `severity` afterwards. */
  datatype Detection = Detection(
    name: string,
    freq: int,
    matches: seq<Record>,
    severity: Severity
  )
}
