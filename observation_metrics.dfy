/** The whole-file ledger check and the observation tally of
    test_observation_metrics.py. Unlike the window validator, the whole-file
    check starts from genesis, keeps going after an error and reports every one. */
module ObservationMetrics {
  import opened Common
  import opened Audit

  // ---------------------------------------------------------------------------
  // verify_audit_hash_chain

  /** "File not found", "Line i: Hash chain break. Expected e, got g",
      "Line i: Data tamper detected. Hash mismatch." and "Line i: JSON Error: ...". */
  datatype ChainError =
    | FileNotFound
    | ChainBreakAt(line: nat, expected: string, got: Option<string>)
    | HashMismatchAt(line: nat)
    | JsonError(line: nat)

  /** The errors one line adds when its expected prev_hash is `expected`: the link
      is checked first; a record without `hash` then fails with a JSON error. */
  function LineErrors(c: Crypto, line: Line, expected: string, i: nat): seq<ChainError> {
    match line
    case Unparsable => [JsonError(i)]
    case Parsed(r) =>
      (if r.body.prevHash != Some(expected) then [ChainBreakAt(i, expected, r.body.prevHash)] else []) +
      (if r.hash.None? then [JsonError(i)]
       else if Digest(c, r.body) != r.hash.value then [HashMismatchAt(i)]
       else [])
  }

  /** The next expected prev_hash: the line's stored hash (whether or not it
      matched its digest); a line without one leaves it unchanged. */
  function Advance(line: Line, expected: string): string {
    if line.Parsed? && line.rec.hash.Some? then line.rec.hash.value else expected
  }

  /** The prev_hash expected of line i. */
  function ExpectedAt(lines: seq<Line>, i: nat): string
    requires i <= |lines|
  {
    if i == 0 then Genesis else Advance(lines[i - 1], ExpectedAt(lines, i - 1))
  }

  /** The errors of the first n lines, in order. */
  function ErrorsUpTo(c: Crypto, lines: seq<Line>, n: nat): seq<ChainError>
    requires n <= |lines|
  {
    if n == 0 then [] else ErrorsUpTo(c, lines, n - 1) + LineErrors(c, lines[n - 1], ExpectedAt(lines, n - 1), n - 1)
  }

  /** `verify_audit_hash_chain` on the file's lines (None when it does not exist). */
  method VerifyAuditHashChain(c: Crypto, content: Option<seq<Line>>) returns (valid: bool, errors: seq<ChainError>)
    ensures content.None? ==> !valid && errors == [FileNotFound]
    ensures content.Some? ==> errors == ErrorsUpTo(c, content.value, |content.value|)
    ensures content.Some? ==> (valid <==> errors == [])
  {
    if content.None? {
      return false, [FileNotFound];
    }
    valid, errors := ScanLines(c, content.value);
  }

  /** The loop of `verify_audit_hash_chain` over the lines of an existing file. */
  method ScanLines(c: Crypto, lines: seq<Line>) returns (valid: bool, errors: seq<ChainError>)
    ensures errors == ErrorsUpTo(c, lines, |lines|)
    ensures valid <==> errors == []
  {
    valid := true;
    errors := [];
    var prevHash := Genesis;
    var i := 0;
    while i < |lines|
      invariant 0 <= i <= |lines|
      invariant prevHash == ExpectedAt(lines, i)
      invariant errors == ErrorsUpTo(c, lines, i)
      invariant valid <==> |errors| == 0
    {
      var lineErrors, next := CheckLine(c, lines[i], prevHash, i);
      if |lineErrors| != 0 {
        valid := false;
      }
      errors := errors + lineErrors;
      prevHash := next;
      i := i + 1;
    }
  }

  /** The body of the loop for one line: its errors and the prev_hash the
      next line is expected to carry. */
  method CheckLine(c: Crypto, line: Line, prevHash: string, i: nat) returns (errors: seq<ChainError>, next: string)
    ensures errors == LineErrors(c, line, prevHash, i) && next == Advance(line, prevHash)
  {
    errors := [];
    next := prevHash;
    match line {
      case Unparsable =>
        errors := [JsonError(i)];
      case Parsed(r) =>
        if r.body.prevHash != Some(prevHash) {
          errors := errors + [ChainBreakAt(i, prevHash, r.body.prevHash)];
        }
        if r.hash.None? {
          errors := errors + [JsonError(i)];
        } else {
          if Digest(c, r.body) != r.hash.value {
            errors := errors + [HashMismatchAt(i)];
          }
          next := r.hash.value;
        }
    }
  }

  /** Line i is a sealed record pointing at the hash expected of it. */
  predicate LineOk(c: Crypto, lines: seq<Line>, i: nat)
    requires i < |lines|
  {
    lines[i].Parsed? && Sealed(c, lines[i].rec) && lines[i].rec.body.prevHash == Some(ExpectedAt(lines, i))
  }

  lemma {:induction false} NoErrorsIffLinesOk(c: Crypto, lines: seq<Line>, n: nat)
    requires n <= |lines|
    ensures ErrorsUpTo(c, lines, n) == [] <==> forall i :: 0 <= i < n ==> LineOk(c, lines, i)
  {
    if n > 0 {
      NoErrorsIffLinesOk(c, lines, n - 1);
      var prev := ErrorsUpTo(c, lines, n - 1);
      var last := LineErrors(c, lines[n - 1], ExpectedAt(lines, n - 1), n - 1);
      assert ErrorsUpTo(c, lines, n) == prev + last;
      assert |prev + last| == |prev| + |last|;
      LineErrorsIffNotOk(c, lines, n - 1);
      assert (forall i :: 0 <= i < n ==> LineOk(c, lines, i))
        <==> (forall i :: 0 <= i < n - 1 ==> LineOk(c, lines, i)) && LineOk(c, lines, n - 1);
    }
  }

  /** A line adds no error exactly when it is a sealed record pointing at the
      hash expected of it. */
  lemma LineErrorsIffNotOk(c: Crypto, lines: seq<Line>, i: nat)
    requires i < |lines|
    ensures LineErrors(c, lines[i], ExpectedAt(lines, i), i) == [] <==> LineOk(c, lines, i)
  {
  }

  /** The whole-file check reports no error exactly when the file is a chain from genesis. */
  lemma VerifiedIffChained(c: Crypto, lines: seq<Line>)
    ensures ErrorsUpTo(c, lines, |lines|) == [] <==> Chained(c, Genesis, lines)
  {
    NoErrorsIffLinesOk(c, lines, |lines|);
    if ErrorsUpTo(c, lines, |lines|) == [] {
      forall i | 0 <= i < |lines|
        ensures lines[i].Parsed? && Sealed(c, lines[i].rec)
        ensures i > 0 ==> lines[i - 1].Parsed? && lines[i].rec.body.prevHash == lines[i - 1].rec.hash
      {
        assert LineOk(c, lines, i);
        if i > 0 {
          assert LineOk(c, lines, i - 1);
        }
      }
      if lines != [] {
        assert LineOk(c, lines, 0);
      }
      LinksChained(c, Genesis, lines);
    }
    if Chained(c, Genesis, lines) {
      forall i | 0 <= i < |lines|
        ensures LineOk(c, lines, i)
      {
        ChainedLinks(c, Genesis, lines, i);
        if i > 0 {
          ChainedLinks(c, Genesis, lines, i - 1);
        }
      }
    }
  }

  /** Tampering with one record's fields after the fact, keeping its stored hash
      and prev_hash, is reported as exactly one hash mismatch at that line: the
      expected prev_hash follows the stored hashes, so nothing else is flagged. */
  lemma TamperReportsOneMismatch(c: Crypto, lines: seq<Line>, k: nat, orig: Stored, body: Unsigned)
    requires CollisionFree(c)
    requires Chained(c, Genesis, lines)
    requires k < |lines| && lines[k] == Parsed(orig)
    requires body != orig.body && body.prevHash == orig.body.prevHash
    ensures ErrorsUpTo(c, lines[k := Parsed(Stored(body, orig.hash))], |lines|) == [HashMismatchAt(k)]
  {
    ChainedLinks(c, Genesis, lines, k);
    var t := lines[k := Parsed(Stored(body, orig.hash))];
    VerifiedIffChained(c, lines);
    NoErrorsIffLinesOk(c, lines, |lines|);
    forall i | 0 <= i < |lines|
      ensures SameHashAt(lines, t, i)
    {
    }
    DigestDistinguishes(c, body, lines[k].rec.body);
    TamperedErrors(c, lines, t, k, |lines|);
  }

  /** Two files whose lines carry the same stored hashes expect the same
      prev_hash of every line. */
  lemma {:induction false} SameHashesSameExpected(a: seq<Line>, b: seq<Line>, n: nat)
    requires n <= |a| == |b|
    requires forall i :: 0 <= i < |a| ==> SameHashAt(a, b, i)
    ensures ExpectedAt(a, n) == ExpectedAt(b, n)
  {
    if n > 0 {
      SameHashesSameExpected(a, b, n - 1);
      assert SameHashAt(a, b, n - 1);
    }
  }

  /** Line i of both files advances the expected prev_hash alike. */
  predicate SameHashAt(a: seq<Line>, b: seq<Line>, i: nat)
    requires i < |a| && i < |b|
  {
    (a[i].Parsed? && a[i].rec.hash.Some? <==> b[i].Parsed? && b[i].rec.hash.Some?)
    && Advance(a[i], "") == Advance(b[i], "")
  }

  lemma {:induction false} TamperedErrors(c: Crypto, lines: seq<Line>, t: seq<Line>, k: nat, n: nat)
    requires n <= |lines| == |t| && k < |lines|
    requires forall i :: 0 <= i < |lines| ==> LineOk(c, lines, i)
    requires forall i :: 0 <= i < |lines| ==> SameHashAt(lines, t, i)
    requires forall i :: 0 <= i < |lines| && i != k ==> t[i] == lines[i]
    requires lines[k].Parsed? && t[k].Parsed? && t[k].rec.hash == lines[k].rec.hash && t[k].rec.body.prevHash == lines[k].rec.body.prevHash
    requires !Sealed(c, t[k].rec)
    ensures ErrorsUpTo(c, t, n) == if k < n then [HashMismatchAt(k)] else []
  {
    if n > 0 {
      TamperedErrors(c, lines, t, k, n - 1);
      SameHashesSameExpected(lines, t, n - 1);
      TamperedLineErrors(c, lines, t, k, n - 1);
    }
  }

  /** The tampered line reports one hash mismatch, every other line nothing. */
  lemma TamperedLineErrors(c: Crypto, lines: seq<Line>, t: seq<Line>, k: nat, i: nat)
    requires i < |lines| == |t| && k < |lines|
    requires LineOk(c, lines, i)
    requires ExpectedAt(lines, i) == ExpectedAt(t, i)
    requires i != k ==> t[i] == lines[i]
    requires lines[k].Parsed? && t[k].Parsed? && t[k].rec.hash == lines[k].rec.hash && t[k].rec.body.prevHash == lines[k].rec.body.prevHash
    requires !Sealed(c, t[k].rec)
    ensures LineErrors(c, t[i], ExpectedAt(t, i), i) == if i == k then [HashMismatchAt(k)] else []
  {
  }

  // ---------------------------------------------------------------------------
  // get_observation_metrics

  /** A record's `timestamp` as `pd.to_datetime` reads it: the instant in
      seconds, and whether the text carries a UTC offset, as every timestamp
      the ledger writer produces does. */
  datatype Stamp = Stamp(seconds: int, hasOffset: bool)

  /** One parsed ledger record as a row: its type, payload, time in seconds and
      whether that time carried an offset. */
  datatype Row = Row(eventType: string, payload: Payload, ts: int, hasOffset: bool)

  /** The candle a SIGNALS_GENERATED row refers to: the payload's "timestamp"
      when truthy, else the row's own time. */
  datatype CandleKey = FromPayload(v: Value) | FromRow(t: int)

  function KeyOf(r: Row): CandleKey {
    if Truthy(Get(r.payload, "timestamp")) then FromPayload(Get(r.payload, "timestamp")) else FromRow(r.ts)
  }

  predicate IsSignalRow(r: Row) { r.eventType == "SIGNALS_GENERATED" }
  predicate IsTradeRow(r: Row) { r.eventType == "TRADE_EXECUTED" }

  const StandDown: Value := VStr("STAND_DOWN")

  /** The tracked risk status after the first n rows. */
  function StatusAfter(rows: seq<Row>, n: nat): Value
    requires n <= |rows|
  {
    if n == 0 then VStr("ALLOW_TRADING")
    else if rows[n - 1].eventType == "EVENT_RISK" then Get(rows[n - 1].payload, "status")
    else StatusAfter(rows, n - 1)
  }

  /** Row i is a signal row whose candle an earlier signal row already had. */
  predicate IsRepeat(rows: seq<Row>, i: nat)
    requires i < |rows|
  {
    IsSignalRow(rows[i]) && exists j :: 0 <= j < i && IsSignalRow(rows[j]) && KeyOf(rows[j]) == KeyOf(rows[i])
  }

  /** How many of the first n rows satisfy each rule. */
  datatype Counts = Counts(blocked: nat, sdEntries: nat, missingStop: nat, overRisk: nat)

  function CountsUpTo(rows: seq<Row>, n: nat): Counts
    requires n <= |rows|
  {
    if n == 0 then Counts(0, 0, 0, 0)
    else
      var k := CountsUpTo(rows, n - 1);
      var r := rows[n - 1];
      var status := StatusAfter(rows, n);
      Counts(
        k.blocked + (if r.eventType == "EVENT_RISK" && status == StandDown then 1 else 0),
        k.sdEntries + (if IsTradeRow(r) && status == StandDown then 1 else 0),
        k.missingStop + (if IsTradeRow(r) && !Truthy(Get(r.payload, "stop_loss")) then 1 else 0),
        k.overRisk + (if IsTradeRow(r) && NumOr(r.payload, "risk_pct", 0.0) > 0.05 then 1 else 0))
  }

  /** How many of the first n rows are repeated candles. */
  function Repeats(rows: seq<Row>, n: nat): nat
    requires n <= |rows|
  {
    if n == 0 then 0 else Repeats(rows, n - 1) + (if IsRepeat(rows, n - 1) then 1 else 0)
  }

  datatype ObservationMetrics = ObservationMetrics(
    ruleViolations: nat,
    standDownEntries: nat,
    blockedTradeAttempts: nat,
    duplicates: nat,
    hashChainValid: bool,
    lastTick: Option<int>)

  function MaxTs(rows: seq<Row>): (m: int)
    requires rows != []
    ensures forall r :: r in rows ==> r.ts <= m
    ensures exists r :: r in rows && r.ts == m
  {
    if |rows| == 1 then rows[0].ts
    else if rows[0].ts >= MaxTs(rows[1..]) then rows[0].ts
    else MaxTs(rows[1..])
  }

  /** The rows at or after `cutoff`, in order. */
  function Since(rows: seq<Row>, cutoff: int): (w: seq<Row>)
    ensures forall r :: r in w <==> r in rows && r.ts >= cutoff
  {
    if rows == [] then []
    else (if rows[0].ts >= cutoff then [rows[0]] else []) + Since(rows[1..], cutoff)
  }

  /** The parsed records of the file, as rows. */
  function RowsOf(lines: seq<Line>, timeOf: Stored -> Stamp): seq<Row> {
    if lines == [] then []
    else
      (match lines[0]
       case Parsed(r) => [Row(r.body.eventType, r.body.payload, timeOf(r).seconds, timeOf(r).hasOffset)]
       case Unparsable => []) + RowsOf(lines[1..], timeOf)
  }

  /** The tally loop of `get_observation_metrics`. */
  method TallyRows(rows: seq<Row>) returns (violations: nat, k: Counts, duplicates: nat)
    ensures k == CountsUpTo(rows, |rows|)
    ensures duplicates == Repeats(rows, |rows|)
    ensures violations == k.sdEntries + k.missingStop + k.overRisk + duplicates
  {
    violations := 0;
    duplicates := 0;
    k := Counts(0, 0, 0, 0);
    var status := VStr("ALLOW_TRADING");
    var processed: set<CandleKey> := {};
    var i := 0;
    while i < |rows|
      invariant 0 <= i <= |rows|
      invariant status == StatusAfter(rows, i)
      invariant k == CountsUpTo(rows, i)
      invariant duplicates == Repeats(rows, i)
      invariant violations == k.sdEntries + k.missingStop + k.overRisk + duplicates
      invariant forall key :: key in processed <==> exists j :: 0 <= j < i && IsSignalRow(rows[j]) && KeyOf(rows[j]) == key
    {
      var r := rows[i];
      if r.eventType == "EVENT_RISK" {
        status := Get(r.payload, "status");
        if status == StandDown {
          k := k.(blocked := k.blocked + 1);
        }
      }
      if r.eventType == "TRADE_EXECUTED" {
        if status == StandDown {
          violations := violations + 1;
          k := k.(sdEntries := k.sdEntries + 1);
        }
        if !Truthy(Get(r.payload, "stop_loss")) {
          violations := violations + 1;
          k := k.(missingStop := k.missingStop + 1);
        }
        if NumOr(r.payload, "risk_pct", 0.0) > 0.05 {
          violations := violations + 1;
          k := k.(overRisk := k.overRisk + 1);
        }
      }
      if r.eventType == "SIGNALS_GENERATED" {
        var candle := KeyOf(r);
        if candle in processed {
          duplicates := duplicates + 1;
          violations := violations + 1;
        }
        processed := processed + {candle};
      }
      i := i + 1;
    }
  }

  function CountSignals(rows: seq<Row>, n: nat): nat
    requires n <= |rows|
  {
    if n == 0 then 0 else CountSignals(rows, n - 1) + (if IsSignalRow(rows[n - 1]) then 1 else 0)
  }

  /** The candles the first n signal rows refer to. */
  function SeenKeys(rows: seq<Row>, n: nat): set<CandleKey>
    requires n <= |rows|
  {
    if n == 0 then {}
    else SeenKeys(rows, n - 1) + (if IsSignalRow(rows[n - 1]) then {KeyOf(rows[n - 1])} else {})
  }

  lemma {:induction false} SeenKeysExact(rows: seq<Row>, n: nat)
    requires n <= |rows|
    ensures forall key :: key in SeenKeys(rows, n) <==> exists j :: 0 <= j < n && IsSignalRow(rows[j]) && KeyOf(rows[j]) == key
  {
    if n > 0 {
      SeenKeysExact(rows, n - 1);
    }
  }

  lemma AddFreshKey(s: set<CandleKey>, k: CandleKey)
    requires k !in s
    ensures |s + {k}| == |s| + 1
  {
  }

  /** Every signal row is either the first for its candle or a duplicate. */
  lemma {:induction false} DuplicatesAreRepeatedCandles(rows: seq<Row>, n: nat)
    requires n <= |rows|
    ensures Repeats(rows, n) + |SeenKeys(rows, n)| == CountSignals(rows, n)
  {
    if n > 0 {
      DuplicatesAreRepeatedCandles(rows, n - 1);
      if IsSignalRow(rows[n - 1]) {
        SignalRowStep(rows, n);
      } else {
        assert SeenKeys(rows, n) == SeenKeys(rows, n - 1);
      }
    }
  }

  /** A signal row either repeats a seen candle or adds a new one. */
  lemma SignalRowStep(rows: seq<Row>, n: nat)
    requires 0 < n <= |rows| && IsSignalRow(rows[n - 1])
    ensures Repeats(rows, n) + |SeenKeys(rows, n)| == Repeats(rows, n - 1) + |SeenKeys(rows, n - 1)| + 1
  {
    SeenKeysExact(rows, n - 1);
    var r := rows[n - 1];
    var before := SeenKeys(rows, n - 1);
    assert SeenKeys(rows, n) == before + {KeyOf(r)};
    if IsRepeat(rows, n - 1) {
      var j :| 0 <= j < n - 1 && IsSignalRow(rows[j]) && KeyOf(rows[j]) == KeyOf(r);
      assert KeyOf(r) in before;
      assert SeenKeys(rows, n) == before;
    } else {
      assert KeyOf(r) !in before;
      AddFreshKey(before, KeyOf(r));
    }
  }

  /** The outcome of `get_observation_metrics`: the metrics, or the TypeError
      pandas raises when offset-carrying timestamps meet the naive cutoff. */
  datatype MetricsOutcome = Computed(m: ObservationMetrics) | CutoffComparisonRaised

  /** Some row's time carried an offset; `pd.to_datetime` then gives an
      offset-aware column (or refuses a mix), and comparing it with the naive
      `utcnow()` cutoff raises. */
  predicate AnyOffset(rows: seq<Row>) {
    exists r :: r in rows && r.hasOffset
  }

  /** `get_observation_metrics` on the ledger (None when it does not exist), with
      `now` and a timestamp parser as inputs and without the drawdown. */
  method GetObservationMetrics(c: Crypto, content: Option<seq<Line>>, timeOf: Stored -> Stamp, now: int, days: int)
    returns (out: MetricsOutcome)
    ensures content.None? ==> out == Computed(ObservationMetrics(0, 0, 0, 0, true, None))
    ensures out.CutoffComparisonRaised? <==>
      content.Some? && RowsOf(content.value, timeOf) != [] && AnyOffset(RowsOf(content.value, timeOf))
    ensures content.Some? && out.Computed? ==>
      var m := out.m;
      && (m.hashChainValid <==> Chained(c, Genesis, content.value))
      && var obs := Since(RowsOf(content.value, timeOf), now - days * 86400);
         && (obs == [] ==> m == ObservationMetrics(0, 0, 0, 0, m.hashChainValid, None))
         && (obs != [] ==>
              var k := CountsUpTo(obs, |obs|);
              && m.lastTick == Some(MaxTs(obs))
              && m.standDownEntries == k.sdEntries
              && m.blockedTradeAttempts == k.blocked
              && m.duplicates == Repeats(obs, |obs|)
              && m.ruleViolations == k.sdEntries + k.missingStop + k.overRisk + m.duplicates)
  {
    var m := ObservationMetrics(0, 0, 0, 0, true, None);
    if content.None? {
      return Computed(m);
    }
    var events := RowsOf(content.value, timeOf);
    var valid, _ := VerifyAuditHashChain(c, content);
    VerifiedIffChained(c, content.value);
    m := m.(hashChainValid := valid);
    if events == [] {
      return Computed(m);
    }
    if exists r :: r in events && r.hasOffset {
      return CutoffComparisonRaised;
    }
    var obs := Since(events, now - days * 86400);
    if obs == [] {
      return Computed(m);
    }
    var violations, k, duplicates := TallyRows(obs);
    m := ObservationMetrics(violations, k.sdEntries, k.blocked, duplicates, valid, Some(MaxTs(obs)));
    return Computed(m);
  }

  /** Every parsed record of a ledger carries an offset, as the ledger writer's
      do, and one was parsed: then the rows are non-empty and offset-carrying,
      so `get_observation_metrics` raises on that ledger. */
  lemma {:induction false} WrittenLedgerRaises(lines: seq<Line>, timeOf: Stored -> Stamp)
    requires forall i :: 0 <= i < |lines| && lines[i].Parsed? ==> timeOf(lines[i].rec).hasOffset
    requires exists i :: 0 <= i < |lines| && lines[i].Parsed?
    ensures RowsOf(lines, timeOf) != [] && AnyOffset(RowsOf(lines, timeOf))
  {
    if lines[0].Parsed? {
      var r := RowsOf(lines, timeOf)[0];
      assert r in RowsOf(lines, timeOf);
    } else {
      var i :| 0 <= i < |lines| && lines[i].Parsed?;
      assert lines[1..][i - 1] == lines[i];
      WrittenLedgerRaises(lines[1..], timeOf);
      assert RowsOf(lines, timeOf) == RowsOf(lines[1..], timeOf);
    }
  }
}
