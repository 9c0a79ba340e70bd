/** The record normaliser (src/preprocessing.py): the NGINX "combined" line
    grammar, `build_schema` and `process_logs`.

    The regular expression LOG_PATTERN is modelled by `Match`, a deterministic
    left-to-right parser. Every field of the pattern is a run of one character
    class that stops at a delimiter outside the class (a space, `]`, `"`), or
    exactly three digits, so the match, when there is one, is unique; `Match`
    is proved to be the exact inverse of `Render`, the concatenation the
    pattern describes. Like `re.match`, it is anchored at the start of the line
    only. */
module Preprocessing {
  import opened Wrappers
  import opened Text
  import opened Schema

  // ---------------------------------------------------------------------------
  // The pattern
  // ---------------------------------------------------------------------------

  /** The two character classes of the pattern: `\S` and `[^x]`. */
  datatype CharClass = NonSpace | Except(excluded: char)

  predicate InClass(c: char, k: CharClass)
  {
    match k
    case NonSpace => !IsSpace(c)
    case Except(x) => c != x
  }

  predicate AllIn(s: string, k: CharClass)
  {
    forall i :: 0 <= i < |s| ==> InClass(s[i], k)
  }

  /** The text the pattern's groups capture, plus the ignored ident field. */
  datatype Captures = Captures(
    remoteAddr: string,
    ident: string,
    remoteUser: string,
    timeLocal: string,
    request: string,
    status: string,
    bodyBytesSent: string,
    httpReferer: string,
    httpUserAgent: string
  )

  /** A successful match: the captures and the unread text after the closing quote. */
  datatype Matched = Matched(caps: Captures, rest: string)

  /** Each group holds what its class in the pattern admits:
      `\S+` for the address, ident, user and size, `[^\]]+` for the timestamp,
      `[^"]*` for the request, referer and user agent, `\d{3}` for the status. */
  predicate WellFormed(c: Captures)
  {
    && c.remoteAddr != [] && AllIn(c.remoteAddr, NonSpace)
    && c.ident != [] && AllIn(c.ident, NonSpace)
    && c.remoteUser != [] && AllIn(c.remoteUser, NonSpace)
    && c.timeLocal != [] && AllIn(c.timeLocal, Except(']'))
    && AllIn(c.request, Except('"'))
    && |c.status| == 3 && AllDigits(c.status)
    && c.bodyBytesSent != [] && AllIn(c.bodyBytesSent, NonSpace)
    && AllIn(c.httpReferer, Except('"'))
    && AllIn(c.httpUserAgent, Except('"'))
  }

  /** The line the pattern describes for the given captures, followed by `rest`. */
  function Render(c: Captures, rest: string): string
  {
    c.remoteAddr + " " + (c.ident + " " + (c.remoteUser + " [" + (c.timeLocal + "] \"" +
    (c.request + "\" " + (c.status + " " + (c.bodyBytesSent + " \"" +
    (c.httpReferer + "\" \"" + (c.httpUserAgent + "\"" + rest))))))))
  }

  /** Length of the longest prefix of `s` inside class `k` (a greedy run). */
  function RunLength(s: string, k: CharClass): (n: nat)
    ensures n <= |s| && AllIn(s[..n], k)
    ensures n < |s| ==> !InClass(s[n], k)
  {
    if s == [] || !InClass(s[0], k) then 0
    else
      var m := RunLength(s[1..], k);
      assert s[..m + 1] == [s[0]] + s[1..][..m];
      1 + m
  }

  /** A field and the text after the delimiter that closes it. */
  datatype Cut = Cut(field: string, rest: string)

  /** One field of the pattern: a greedy run of class `k` (non-empty when
      `nonEmpty`) followed by the literal `delim`. */
  function Field(s: string, k: CharClass, nonEmpty: bool, delim: string): (r: Option<Cut>)
    ensures r.Some? ==> s == r.value.field + delim + r.value.rest
    ensures r.Some? ==> AllIn(r.value.field, k) && (nonEmpty ==> r.value.field != [])
  {
    var n := RunLength(s, k);
    if nonEmpty && n == 0 then None
    else if |s| - n < |delim| || s[n..n + |delim|] != delim then None
    else
      assert s == s[..n] + delim + s[n + |delim|..];
      Some(Cut(s[..n], s[n + |delim|..]))
  }

  /** The status group `\d{3}` followed by a space. */
  function StatusField(s: string): (r: Option<Cut>)
    ensures r.Some? ==> s == r.value.field + " " + r.value.rest
    ensures r.Some? ==> |r.value.field| == 3 && AllDigits(r.value.field)
  {
    if |s| >= 4 && AllDigits(s[..3]) && s[3] == ' ' then
      assert s == s[..3] + " " + s[4..];
      Some(Cut(s[..3], s[4..]))
    else None
  }

  /** The groups after the request: status, size, referer and user agent, and the
      unread text after the closing quote. */
  datatype Tail = Tail(status: string, bodyBytesSent: string, httpReferer: string, httpUserAgent: string, rest: string)

  /** The part of the pattern from the status group to the final quote. */
  function MatchTail(s: string): (r: Option<Tail>)
    ensures r.Some? ==>
      var t := r.value;
      && s == t.status + " " + (t.bodyBytesSent + " \"" + (t.httpReferer + "\" \"" + (t.httpUserAgent + "\"" + t.rest)))
      && |t.status| == 3 && AllDigits(t.status)
      && t.bodyBytesSent != [] && AllIn(t.bodyBytesSent, NonSpace)
      && AllIn(t.httpReferer, Except('"'))
      && AllIn(t.httpUserAgent, Except('"'))
  {
    var st :- StatusField(s);
    var b :- Field(st.rest, NonSpace, true, " \"");
    var f :- Field(b.rest, Except('"'), false, "\" \"");
    var g :- Field(f.rest, Except('"'), false, "\"");
    Some(Tail(st.field, b.field, f.field, g.field, g.rest))
  }

  /** `LOG_PATTERN.match(line)`: the pattern matched at the start of the line. */
  function Match(line: string): (r: Option<Matched>)
  {
    var a :- Field(line, NonSpace, true, " ");
    var i :- Field(a.rest, NonSpace, true, " ");
    var u :- Field(i.rest, NonSpace, true, " [");
    var t :- Field(u.rest, Except(']'), true, "] \"");
    var q :- Field(t.rest, Except('"'), false, "\" ");
    var z :- MatchTail(q.rest);
    Some(Matched(Captures(a.field, i.field, u.field, t.field, q.field, z.status, z.bodyBytesSent, z.httpReferer, z.httpUserAgent), z.rest))
  }

  /** A run of class `k` that is followed by a character outside it is read whole. */
  lemma {:induction false} RunLengthOf(f: string, t: string, k: CharClass)
    requires AllIn(f, k)
    requires t != [] && !InClass(t[0], k)
    ensures RunLength(f + t, k) == |f|
  {
    if f != [] {
      assert (f + t)[1..] == f[1..] + t;
      RunLengthOf(f[1..], t, k);
    } else {
      assert f + t == t;
    }
  }

  /** A field followed by its delimiter is cut exactly there. */
  lemma FieldOf(f: string, delim: string, rest: string, k: CharClass, nonEmpty: bool)
    requires AllIn(f, k) && (nonEmpty ==> f != [])
    requires delim != [] && !InClass(delim[0], k)
    ensures Field(f + delim + rest, k, nonEmpty, delim) == Some(Cut(f, rest))
  {
    var s := f + delim + rest;
    assert s == f + (delim + rest);
    RunLengthOf(f, delim + rest, k);
    assert s[..|f|] == f;
    assert s[|f|..|f| + |delim|] == delim;
    assert s[|f| + |delim|..] == rest;
  }

  /** Soundness of the parser: a match is a well-formed rendering that is a prefix of the line. */
  lemma MatchSound(line: string)
    requires Match(line).Some?
    ensures WellFormed(Match(line).value.caps)
    ensures line == Render(Match(line).value.caps, Match(line).value.rest)
  {
    var a := Field(line, NonSpace, true, " ").value;
    var i := Field(a.rest, NonSpace, true, " ").value;
    var u := Field(i.rest, NonSpace, true, " [").value;
    var t := Field(u.rest, Except(']'), true, "] \"").value;
    var q := Field(t.rest, Except('"'), false, "\" ").value;
    var z := MatchTail(q.rest).value;
    var c := Captures(a.field, i.field, u.field, t.field, q.field, z.status, z.bodyBytesSent, z.httpReferer, z.httpUserAgent);
    assert Match(line) == Some(Matched(c, z.rest));
  }

  /** The tail of every well-formed rendering is read back exactly. */
  lemma MatchTailRender(c: Captures, rest: string)
    requires WellFormed(c)
    ensures MatchTail(c.status + " " + (c.bodyBytesSent + " \"" + (c.httpReferer + "\" \"" + (c.httpUserAgent + "\"" + rest))))
         == Some(Tail(c.status, c.bodyBytesSent, c.httpReferer, c.httpUserAgent, rest))
  {
    var r9 := c.httpUserAgent + "\"" + rest;
    var r8 := c.httpReferer + "\" \"" + r9;
    var r7 := c.bodyBytesSent + " \"" + r8;
    var r6 := c.status + " " + r7;
    assert r6[..3] == c.status && r6[3] == ' ' && r6[4..] == r7;
    assert StatusField(r6) == Some(Cut(c.status, r7));
    FieldOf(c.bodyBytesSent, " \"", r8, NonSpace, true);
    FieldOf(c.httpReferer, "\" \"", r9, Except('"'), false);
    FieldOf(c.httpUserAgent, "\"", rest, Except('"'), false);
  }

  /** Completeness of the parser: every well-formed rendering is matched, with
      exactly its captures, whatever text follows it. */
  lemma MatchRender(c: Captures, rest: string)
    requires WellFormed(c)
    ensures Match(Render(c, rest)) == Some(Matched(c, rest))
  {
    var r6 := c.status + " " + (c.bodyBytesSent + " \"" + (c.httpReferer + "\" \"" + (c.httpUserAgent + "\"" + rest)));
    var r5 := c.request + "\" " + r6;
    var r4 := c.timeLocal + "] \"" + r5;
    var r3 := c.remoteUser + " [" + r4;
    var r2 := c.ident + " " + r3;
    assert Render(c, rest) == c.remoteAddr + " " + r2;
    FieldOf(c.remoteAddr, " ", r2, NonSpace, true);
    FieldOf(c.ident, " ", r3, NonSpace, true);
    FieldOf(c.remoteUser, " [", r4, NonSpace, true);
    FieldOf(c.timeLocal, "] \"", r5, Except(']'), true);
    FieldOf(c.request, "\" ", r6, Except('"'), false);
    MatchTailRender(c, rest);
  }

  /** The match is anchored at the start only: text appended after the line is
      ignored and the captures stay the same. */
  lemma MatchIgnoresSuffix(line: string, extra: string)
    requires Match(line).Some?
    ensures Match(line + extra) == Some(Match(line).value.(rest := Match(line).value.rest + extra))
  {
    var m := Match(line).value;
    MatchSound(line);
    RenderAppend(m.caps, m.rest, extra);
    MatchRender(m.caps, m.rest + extra);
  }

  /** Text appended to a rendering lands in its unread rest. */
  lemma RenderAppend(c: Captures, rest: string, extra: string)
    ensures Render(c, rest) + extra == Render(c, rest + extra)
  {
    var r9 := c.httpUserAgent + "\"" + rest;
    var r8 := c.httpReferer + "\" \"" + r9;
    var r7 := c.bodyBytesSent + " \"" + r8;
    var r6 := c.status + " " + r7;
    var r5 := c.request + "\" " + r6;
    var r4 := c.timeLocal + "] \"" + r5;
    var r3 := c.remoteUser + " [" + r4;
    var r2 := c.ident + " " + r3;
    assert r9 + extra == c.httpUserAgent + "\"" + (rest + extra);
    assert r8 + extra == c.httpReferer + "\" \"" + (r9 + extra);
    assert r7 + extra == c.bodyBytesSent + " \"" + (r8 + extra);
    assert r6 + extra == c.status + " " + (r7 + extra);
    assert r5 + extra == c.request + "\" " + (r6 + extra);
    assert r4 + extra == c.timeLocal + "] \"" + (r5 + extra);
    assert r3 + extra == c.remoteUser + " [" + (r4 + extra);
    assert r2 + extra == c.ident + " " + (r3 + extra);
    assert Render(c, rest) + extra == c.remoteAddr + " " + (r2 + extra);
  }

  /** A line that does not render well-formed captures does not match. */
  lemma NoMatchMeansNoRendering(line: string, c: Captures, rest: string)
    requires Match(line).None?
    requires WellFormed(c)
    ensures line != Render(c, rest)
  {
    if line == Render(c, rest) {
      MatchRender(c, rest);
    }
  }

  // ---------------------------------------------------------------------------
  // build_schema
  // ---------------------------------------------------------------------------

  /** The errors `build_schema` raises (all ValueError in the source): the line
      does not match the pattern, the size token is not an integer, or the
      timestamp is not of the form day/Mon/Year:H:M:S zone. */
  datatype ParseError =
    | MalformedLine(line: string)
    | InvalidInteger(token: string)
    | InvalidTimestamp(timeLocal: string)

  /** `None if s == "-" else s`. */
  function Present(s: string): Option<string>
  {
    if s == "-" then None else Some(s)
  }

  /** The captured text an optional field came from: absent stands for "-". */
  function OrDash(o: Option<string>): string
  {
    if o.None? then "-" else o.value
  }

  /** What every record that `BuildSchema` produces satisfies: each field respects
      the delimiters of the pattern, the status has three digits, and an optional
      text field is never the placeholder "-" itself. */
  predicate ValidRecord(r: Record)
  {
    && r.remoteAddr != [] && AllIn(r.remoteAddr, NonSpace)
    && (r.remoteUser.Some? ==> r.remoteUser.value != "-" && r.remoteUser.value != [] && AllIn(r.remoteUser.value, NonSpace))
    && r.timeLocal != [] && AllIn(r.timeLocal, Except(']'))
    && AllIn(r.request, Except('"'))
    && 0 <= r.status <= 999
    && (r.httpReferer.Some? ==> r.httpReferer.value != "-" && AllIn(r.httpReferer.value, Except('"')))
    && (r.httpUserAgent.Some? ==> r.httpUserAgent.value != "-" && AllIn(r.httpUserAgent.value, Except('"')))
  }

  /** The record `build_schema` builds from the captures of a matching line.
      `toIso` stands for `datetime.strptime(..., "%d/%b/%Y:%H:%M:%S %z").isoformat()`
      (None when strptime raises). Evaluation follows the source: the timestamp
      is converted before the size token is read. */
  function RecordOf(c: Captures, toIso: string -> Option<string>): (r: Result<Record, ParseError>)
    requires WellFormed(c)
    ensures r.Ok? ==> ValidRecord(r.value)
    ensures r.Err? <==> toIso(c.timeLocal).None? || (c.bodyBytesSent != "-" && ParseInt(c.bodyBytesSent).None?)
  {
    match toIso(c.timeLocal)
    case None => Err(InvalidTimestamp(c.timeLocal))
    case Some(iso) =>
      var body :=
        if c.bodyBytesSent == "-" then Some(None)
        else match ParseInt(c.bodyBytesSent)
          case None => None
          case Some(n) => Some(Some(n));
      if body.None? then Err(InvalidInteger(c.bodyBytesSent))
      else
        StatusTextRoundTrip(c.status, 0);
        Ok(Record(
          c.remoteAddr, Present(c.remoteUser), c.timeLocal, iso, c.request,
          DigitsValue(c.status), body.value,
          Present(c.httpReferer), Present(c.httpUserAgent)))
  }

  /** `build_schema(log)`. A blank line gives no record; a non-blank line that
      the pattern does not match is an error carrying the line. */
  function BuildSchema(line: string, toIso: string -> Option<string>): (r: Result<Option<Record>, ParseError>)
    ensures r == Ok(None) <==> IsBlank(line)
    ensures r == Err(MalformedLine(line)) <==> !IsBlank(line) && Match(line).None?
    ensures r.Ok? && r.value.Some? ==> ValidRecord(r.value.value)
  {
    if IsBlank(line) then Ok(None)
    else match Match(line)
      case None => Err(MalformedLine(line))
      case Some(m) =>
        MatchSound(line);
        var rec :- RecordOf(m.caps, toIso);
        Ok(Some(rec))
  }

  /** What a record keeps of the captures it was built from: every captured field
      except the ident can be read back from the record. Text fields are kept
      verbatim, an absent optional field came from "-", the status is the value
      of its three digits, the timestamp is the conversion of the captured one,
      and the size is the integer value of its token. */
  lemma RecordOfKeepsFields(c: Captures, toIso: string -> Option<string>)
    requires WellFormed(c) && RecordOf(c, toIso).Ok?
    ensures var r := RecordOf(c, toIso).value;
      && r.remoteAddr == c.remoteAddr
      && OrDash(r.remoteUser) == c.remoteUser
      && r.timeLocal == c.timeLocal
      && toIso(c.timeLocal) == Some(r.timestamp)
      && r.request == c.request
      && StatusText(r.status) == c.status
      && (r.bodyBytesSent.None? <==> c.bodyBytesSent == "-")
      && (r.bodyBytesSent.Some? ==> ParseInt(c.bodyBytesSent) == r.bodyBytesSent)
      && OrDash(r.httpReferer) == c.httpReferer
      && OrDash(r.httpUserAgent) == c.httpUserAgent
  {
    StatusTextRoundTrip(c.status, DigitsValue(c.status));
  }

  /** A record that `build_schema` returns is the record of its line's captures. */
  lemma BuildSchemaFromMatch(line: string, toIso: string -> Option<string>)
    requires BuildSchema(line, toIso).Ok? && BuildSchema(line, toIso).value.Some?
    ensures Match(line).Some? && WellFormed(Match(line).value.caps)
    ensures RecordOf(Match(line).value.caps, toIso) == Ok(BuildSchema(line, toIso).value.value)
  {
    MatchSound(line);
  }

  /** Conversely, a non-blank line the pattern matches has the outcome of building
      a record from its captures: that record, or that error. */
  lemma BuildSchemaMatched(line: string, toIso: string -> Option<string>)
    requires !IsBlank(line) && Match(line).Some?
    ensures WellFormed(Match(line).value.caps)
    ensures match RecordOf(Match(line).value.caps, toIso)
      case Ok(rec) => BuildSchema(line, toIso) == Ok(Some(rec))
      case Err(e) => BuildSchema(line, toIso) == Err(e)
  {
    MatchSound(line);
  }

  /** The ident field a serialised record carries (the pattern ignores it). */
  predicate ValidIdent(ident: string)
  {
    ident != [] && AllIn(ident, NonSpace)
  }

  /** A record written back as a combined-format line, absent fields as "-". */
  function Serialize(r: Record, ident: string): Captures
    requires 0 <= r.status <= 999
  {
    Captures(
      r.remoteAddr, ident, OrDash(r.remoteUser), r.timeLocal, r.request,
      StatusText(r.status),
      if r.bodyBytesSent.None? then "-" else IntText(r.bodyBytesSent.value),
      OrDash(r.httpReferer), OrDash(r.httpUserAgent))
  }

  lemma IntTextIsToken(n: int)
    ensures IntText(n) != [] && AllIn(IntText(n), NonSpace) && IntText(n) != "-"
  {
    var s := IntText(n);
    if n < 0 {
      assert s[1..] == NatText(-n);
      assert |s| >= 2;
    }
    forall i | 0 <= i < |s| ensures InClass(s[i], NonSpace) {
      if n < 0 && i > 0 {
        assert s[i] == NatText(-n)[i - 1];
      }
    }
  }

  /** Building a record from the captures of a serialised valid record gives it back. */
  lemma RecordOfSerialize(r: Record, ident: string, toIso: string -> Option<string>)
    requires ValidRecord(r) && ValidIdent(ident)
    requires toIso(r.timeLocal) == Some(r.timestamp)
    ensures WellFormed(Serialize(r, ident))
    ensures RecordOf(Serialize(r, ident), toIso) == Ok(r)
  {
    var c := Serialize(r, ident);
    if r.bodyBytesSent.Some? {
      IntTextIsToken(r.bodyBytesSent.value);
      IntTextRoundTrip(r.bodyBytesSent.value);
    }
    StatusTextRoundTrip(c.status, r.status);
    assert Present(c.remoteUser) == r.remoteUser;
    assert Present(c.httpReferer) == r.httpReferer;
    assert Present(c.httpUserAgent) == r.httpUserAgent;
  }

  /** Round trip: writing a valid record back as a line and normalising that line
      (with anything appended) gives the record again, provided the timestamp
      conversion agrees with the record. */
  lemma SerializeRoundTrip(r: Record, ident: string, rest: string, toIso: string -> Option<string>)
    requires ValidRecord(r) && ValidIdent(ident)
    requires toIso(r.timeLocal) == Some(r.timestamp)
    ensures BuildSchema(Render(Serialize(r, ident), rest), toIso) == Ok(Some(r))
  {
    var c := Serialize(r, ident);
    RecordOfSerialize(r, ident, toIso);
    var line := Render(c, rest);
    MatchRender(c, rest);
    assert line[0] == r.remoteAddr[0];
    assert !IsBlank(line);
  }

  // ---------------------------------------------------------------------------
  // process_logs
  // ---------------------------------------------------------------------------

  /** The outcome of `build_schema` on one line: no record, a record, or an error. */
  type Outcome = Result<Option<Record>, ParseError>

  /** `build_schema` applied to every line, in order. */
  function Outcomes(lines: seq<string>, toIso: string -> Option<string>): (outs: seq<Outcome>)
    ensures |outs| == |lines|
  {
    seq(|lines|, k requires 0 <= k < |lines| => BuildSchema(lines[k], toIso))
  }

  /** What the loop of `process_logs` makes of the outcomes of its lines: the
      records in order, skipping the lines without one, or the first error. */
  function Collect(outs: seq<Outcome>): Result<seq<Record>, ParseError>
  {
    if outs == [] then Ok([])
    else
      match Collect(outs[..|outs| - 1])
      case Err(e) => Err(e)
      case Ok(rs) =>
        match outs[|outs| - 1]
        case Err(e) => Err(e)
        case Ok(None) => Ok(rs)
        case Ok(Some(rec)) => Ok(rs + [rec])
  }

  /** `process_logs(logs)`: normalise each line in turn, skipping blank lines and
      stopping at the first line that raises. */
  method ProcessLogs(logs: seq<string>, toIso: string -> Option<string>) returns (r: Result<seq<Record>, ParseError>)
    ensures r == Collect(Outcomes(logs, toIso))
  {
    ghost var outs := Outcomes(logs, toIso);
    var processed: seq<Record> := [];
    for i := 0 to |logs|
      invariant Collect(outs[..i]) == Ok(processed)
    {
      var built := BuildSchema(logs[i], toIso);
      CollectNext(outs, i);
      assert outs[i] == built;
      if built.Err? {
        r := Err(built.error);
        CollectPrefixFailure(outs, i + 1);
        return;
      }
      if built.value.Some? {
        processed := processed + [built.value.value];
      }
    }
    assert outs[..|logs|] == outs;
    r := Ok(processed);
  }

  /** Collecting one more outcome. */
  lemma CollectNext(outs: seq<Outcome>, i: nat)
    requires i < |outs|
    ensures Collect(outs[..i + 1]) == match Collect(outs[..i])
      case Err(e) => Err(e)
      case Ok(rs) => (match outs[i]
        case Err(e) => Err(e)
        case Ok(None) => Ok(rs)
        case Ok(Some(rec)) => Ok(rs + [rec]))
  {
    assert outs[..i + 1][..i] == outs[..i];
  }

  /** Once a prefix of the outcomes fails, the whole collection fails with the same error. */
  lemma {:induction false} CollectPrefixFailure(outs: seq<Outcome>, k: nat)
    requires k <= |outs| && Collect(outs[..k]).Err?
    ensures Collect(outs) == Collect(outs[..k])
    decreases |outs| - k
  {
    if k < |outs| {
      assert outs[..k + 1][..k] == outs[..k];
      CollectPrefixFailure(outs, k + 1);
    } else {
      assert outs[..k] == outs;
    }
  }

  /** The collection succeeds exactly when no outcome is an error. */
  lemma {:induction false} CollectOkIff(outs: seq<Outcome>)
    ensures Collect(outs).Ok? <==> forall k :: 0 <= k < |outs| ==> outs[k].Ok?
  {
    if outs != [] {
      var init := outs[..|outs| - 1];
      CollectOkIff(init);
      assert forall k :: 0 <= k < |init| ==> init[k] == outs[k];
    }
  }

  /** A failed collection reports the error of the first failing outcome. */
  lemma {:induction false} CollectFirstError(outs: seq<Outcome>)
    requires Collect(outs).Err?
    ensures exists k :: && 0 <= k < |outs|
                        && outs[k] == Err(Collect(outs).error)
                        && forall j :: 0 <= j < k ==> outs[j].Ok?
  {
    var init := outs[..|outs| - 1];
    assert forall k :: 0 <= k < |init| ==> init[k] == outs[k];
    if Collect(init).Err? {
      CollectFirstError(init);
    } else {
      CollectOkIff(init);
      assert outs[|outs| - 1] == Err(Collect(outs).error);
    }
  }

  /** The non-blank lines, in input order. */
  function NonBlank(lines: seq<string>): seq<string>
  {
    if lines == [] then []
    else NonBlank(lines[..|lines| - 1]) + (if IsBlank(lines[|lines| - 1]) then [] else [lines[|lines| - 1]])
  }

  /** `process_logs` succeeds exactly when `build_schema` raises on no line. */
  lemma ProcessedOkIff(lines: seq<string>, toIso: string -> Option<string>)
    ensures Collect(Outcomes(lines, toIso)).Ok? <==> forall k :: 0 <= k < |lines| ==> BuildSchema(lines[k], toIso).Ok?
  {
    var outs := Outcomes(lines, toIso);
    CollectOkIff(outs);
    if Collect(outs).Ok? {
      forall k | 0 <= k < |lines| ensures BuildSchema(lines[k], toIso).Ok? {
        assert outs[k].Ok?;
      }
    } else {
      var k :| 0 <= k < |outs| && !outs[k].Ok?;
      assert !BuildSchema(lines[k], toIso).Ok?;
    }
  }

  /** When `process_logs` fails, the error is that of the first line that fails:
      every line before it normalised without error. */
  lemma ProcessedFirstError(lines: seq<string>, toIso: string -> Option<string>)
    requires Collect(Outcomes(lines, toIso)).Err?
    ensures exists k :: && 0 <= k < |lines|
                        && BuildSchema(lines[k], toIso) == Err(Collect(Outcomes(lines, toIso)).error)
                        && forall j :: 0 <= j < k ==> BuildSchema(lines[j], toIso).Ok?
  {
    var outs := Outcomes(lines, toIso);
    CollectFirstError(outs);
    var k :| 0 <= k < |outs| && outs[k] == Err(Collect(outs).error) && forall j :: 0 <= j < k ==> outs[j].Ok?;
    forall j | 0 <= j < k ensures BuildSchema(lines[j], toIso).Ok? {
      assert outs[j].Ok?;
    }
    assert BuildSchema(lines[k], toIso) == Err(Collect(outs).error);
  }

  /** On success `process_logs` emits exactly one record per non-blank line, in
      input order: the k-th record is what the k-th non-blank line normalises to. */
  lemma {:induction false} ProcessedRecords(lines: seq<string>, toIso: string -> Option<string>)
    requires Collect(Outcomes(lines, toIso)).Ok?
    ensures var rs := Collect(Outcomes(lines, toIso)).value;
      && |rs| == |NonBlank(lines)|
      && forall k :: 0 <= k < |rs| ==> BuildSchema(NonBlank(lines)[k], toIso) == Ok(Some(rs[k]))
  {
    if lines != [] {
      var init := lines[..|lines| - 1];
      var last := lines[|lines| - 1];
      var outs := Outcomes(lines, toIso);
      assert outs[..|lines| - 1] == Outcomes(init, toIso);
      assert outs[|lines| - 1] == BuildSchema(last, toIso);
      ProcessedRecords(init, toIso);
      var rs := Collect(Outcomes(init, toIso)).value;
      var nb := NonBlank(init);
      if IsBlank(last) {
        assert Collect(outs).value == rs;
        assert NonBlank(lines) == nb;
      } else {
        var rec := BuildSchema(last, toIso).value.value;
        assert Collect(outs).value == rs + [rec];
        assert NonBlank(lines) == nb + [last];
      }
    }
  }
}
