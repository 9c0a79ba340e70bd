/** Worked cases of the pipeline on small concrete inputs. */
module Scenarios {
  import opened Wrappers
  import opened Text
  import opened Schema
  import opened Preprocessing
  import opened Detectors
  import opened Classification

  /** The SQL injection report on one address with one record. */
  lemma SqliOneRecord(addr: string, r: Record)
    ensures SqliResult([(addr, [r])]) == Detection(SqliName, if IsSqli(r) then 1 else 0, if IsSqli(r) then [r] else [], Low)
  {
    var g := [(addr, [r])];
    assert g[..0] == [];
    assert Flatten(g) == [r];
    KeepNext([], r, IsSqli);
    assert [] + [r] == [r];
  }

  /** The request of the SQL injection example contains `SELECT`. */
  lemma SelectInRequest(req: string)
    requires req == "GET /?id=1 UNION SELECT password FROM users"
    ensures ContainsAny(req, Keywords)
  {
    assert req[17..23] == "SELECT" by {
      assert req[17] == 'S' && req[18] == 'E' && req[19] == 'L' && req[20] == 'E' && req[21] == 'C' && req[22] == 'T';
    }
    assert OccursAt(req, "SELECT", 17);
    ContainsIff(req, "SELECT");
    assert Keywords[0] == "SELECT";
  }

  /** A single request carrying `UNION SELECT ... FROM` is reported once by the SQL
      injection detector, and one occurrence stays LOW after classification. */
  lemma SqliScenario(r: Record)
    requires r.request == "GET /?id=1 UNION SELECT password FROM users"
    ensures SqliResult([("10.0.0.1", [r])]) == Detection(SqliName, 1, [r], Low)
    ensures Classified(SqliResult([("10.0.0.1", [r])]), Thresholds).severity == Low
  {
    SelectInRequest(r.request);
    SqliOneRecord("10.0.0.1", r);
  }

  /** The scanner's user agent of the example contains `dirb`. */
  lemma DirbInAgent(agent: string)
    requires agent == "Mozilla/5.0 dirb/2.22"
    ensures ContainsAny(agent, ScanPatterns)
  {
    assert agent[12..16] == "dirb" by {
      assert agent[12] == 'd' && agent[13] == 'i' && agent[14] == 'r' && agent[15] == 'b';
    }
    assert OccursAt(agent, "dirb", 12);
    ContainsIff(agent, "dirb");
    assert ScanPatterns[1] == "dirb";
  }

  /** A plain browser user agent contains neither signature. */
  lemma PlainAgent(agent: string)
    requires agent == "Mozilla/5.0"
    ensures !ContainsAny(agent, ScanPatterns)
  {
    assert forall i :: 0 <= i < |agent| ==> agent[i] != 'N' && agent[i] != 'd';
    NotContainsFirst(agent, "Nmap");
    NotContainsFirst(agent, "dirb");
  }

  /** A user agent naming `dirb` is a scanner's; a plain browser string is not. */
  lemma ScanScenario(r: Record, s: Record)
    requires r.httpUserAgent == Some("Mozilla/5.0 dirb/2.22")
    requires s.httpUserAgent == Some("Mozilla/5.0")
    ensures IsScan(r) && !IsScan(s)
  {
    DirbInAgent(r.httpUserAgent.value);
    PlainAgent(s.httpUserAgent.value);
  }

  /** The user field `valid` is followed by ` l` where `" ["` should be. */
  lemma UserFieldUnterminated()
    ensures Field("valid log line", NonSpace, true, " [").None?
  {
    var s := "valid log line";
    assert s == "valid" + " log line";
    assert AllIn("valid", NonSpace);
    RunLengthOf("valid", " log line", NonSpace);
    assert s[6] == 'l';
  }

  /** The address field of `not a valid log line` is `not`. */
  lemma AddressFieldOfNot()
    ensures Field("not a valid log line", NonSpace, true, " ") == Some(Cut("not", "a valid log line"))
  {
    assert "not a valid log line" == "not" + " " + "a valid log line";
    assert AllIn("not", NonSpace);
    FieldOf("not", " ", "a valid log line", NonSpace, true);
  }

  /** The identity field that follows is `a`. */
  lemma IdentFieldOfNot()
    ensures Field("a valid log line", NonSpace, true, " ") == Some(Cut("a", "valid log line"))
  {
    assert "a valid log line" == "a" + " " + "valid log line";
    assert AllIn("a", NonSpace);
    FieldOf("a", " ", "valid log line", NonSpace, true);
  }

  /** The pattern reads `not` as the address and `a` as the identity, then fails. */
  lemma NotALogLine()
    ensures Match("not a valid log line").None?
  {
    AddressFieldOfNot();
    IdentFieldOfNot();
    UserFieldUnterminated();
  }

  /** The line `not a valid log line` is not blank and does not follow the
      combined format, so `build_schema` rejects it as malformed. */
  lemma MalformedScenario(toIso: string -> Option<string>)
    ensures BuildSchema("not a valid log line", toIso) == Err(MalformedLine("not a valid log line"))
  {
    var line := "not a valid log line";
    assert !IsSpace(line[0]);
    assert !IsBlank(line);
    NotALogLine();
  }

  /** As written, the brute-force detector repeats evidence: with threshold 0 and
      one address with two failed attempts, the first attempt is reported twice. */
  lemma BruteForceRepeatsEvidence(addr: string, a: Record, b: Record)
    requires IsLoginFailure(a) && IsLoginFailure(b)
    ensures BruteForceResult([(addr, [a, b])], 0) == Detection(BruteForceName, 1, [a, a, b], Low)
  {
    var g := [(addr, [a, b])];
    assert g[..0] == [];
    var t0 := Tally([], {}, 0, []);
    assert [a, b][..1] == [a] && [a][..0] == [];
    var t1 := Step(t0, addr, a, 0);
    assert t1 == Tally([a], {addr}, 1, [a]);
    assert StepAll(t0, addr, [a], 0) == t1;
    assert StepAll(t0, addr, [a, b], 0) == Step(t1, addr, b, 0);
    assert {addr} + {addr} == {addr};
    assert Step(t1, addr, b, 0) == Tally([a, a, b], {addr}, 1, [a, b]);
    assert Tallied(g, 0) == StepAll(t0, addr, [a, b], 0);
  }

  /** The rule counts distinct failing addresses, not failed attempts per user:
      one address alone never exceeds a positive threshold, however many of its
      logins fail (six failed POSTs at the default threshold 5 give nothing). */
  lemma BruteForceOneAddress(addr: string, rs: seq<Record>, threshold: int)
    requires threshold >= 1
    ensures BruteForceResult([(addr, rs)], threshold) == Detection(BruteForceName, 0, [], Low)
  {
    var g := [(addr, rs)];
    BruteForceFacts(g, threshold);
    var s := FailingAddrs(g);
    assert s <= {addr};
    if s != {} {
      var x :| x in s;
      assert s == {addr};
    }
  }
}
