/** The shadow-observation analytics of src/ui/analytics/shadow_observation.py:
    integrity of a window of ledger records, classification of rule violations,
    stand-down leak detection, grace-period counting and the metrics tally.

    A window entry is a ledger record together with its parsed timestamp `dt`
    in seconds; reading and parsing the ledger file is not modelled. */
module ShadowObservation {
  import opened Common
  import opened Audit

  datatype Entry = Entry(rec: Stored, dt: int)

  function TypeOf(e: Entry): string { e.rec.body.eventType }
  function PayloadOf(e: Entry): Payload { e.rec.body.payload }

  const StandDown: Value := VStr("STAND_DOWN")
  const AllowTrading: Value := VStr("ALLOW_TRADING")

  // ---------------------------------------------------------------------------
  // validate_audit_window

  datatype Integrity = Pass | Partial | Fail

  /** "Line 0: Data tamper detected.", "Event i: Data tamper detected." and
      "Event i: Chain break. Expected <expected>, got <got>". */
  datatype WindowError =
    | DataTamper(index: nat)
    | ChainBreak(index: nat, expected: Option<string>, got: Option<string>)

  /** Record i of the window fails validation: its recomputed digest differs from
      its stored hash, or (after the first) its prev_hash is not the hash before it. */
  predicate Fault(c: Crypto, es: seq<Entry>, i: nat)
    requires i < |es|
  {
    (i > 0 && es[i].rec.body.prevHash != es[i - 1].rec.hash) || !Sealed(c, es[i].rec)
  }

  /** No record of the window is faulty. */
  predicate Intact(c: Crypto, es: seq<Entry>) {
    forall i :: 0 <= i < |es| ==> !Fault(c, es, i)
  }

  /** The window starts at the genesis link: its first record's prev_hash is
      the all-zero hash. */
  predicate Rooted(es: seq<Entry>)
    requires es != []
  {
    es[0].rec.body.prevHash == Some(Genesis)
  }

  predicate FirstFault(c: Crypto, es: seq<Entry>, i: nat)
    requires i < |es|
  {
    Fault(c, es, i) && forall j :: 0 <= j < i ==> !Fault(c, es, j)
  }

  /** The one error reported for the first faulty record: the link is checked before the digest. */
  function FaultError(c: Crypto, es: seq<Entry>, i: nat): WindowError
    requires i < |es|
  {
    if i > 0 && es[i].rec.body.prevHash != es[i - 1].rec.hash
    then ChainBreak(i, es[i - 1].rec.hash, es[i].rec.body.prevHash)
    else DataTamper(i)
  }

  /** The answer `validate_audit_window` gives on a window: FAIL with the
      first faulty record's error exactly when some record is faulty; else no
      errors, and PARTIAL exactly when the window is non-empty and does not
      start at the genesis link, PASS otherwise. */
  ghost predicate ValidatedAs(c: Crypto, es: seq<Entry>, status: Integrity, errors: seq<WindowError>) {
    && (status == Fail <==> !Intact(c, es))
    && (status == Fail ==> exists i :: 0 <= i < |es| && FirstFault(c, es, i) && errors == [FaultError(c, es, i)])
    && (status != Fail ==> errors == [])
    && (status == Partial <==> es != [] && !Rooted(es) && Intact(c, es))
  }

  /** `validate_audit_window`: stops at the first faulty record. */
  method ValidateAuditWindow(c: Crypto, es: seq<Entry>) returns (status: Integrity, errors: seq<WindowError>)
    ensures es == [] ==> status == Pass && errors == []
    ensures ValidatedAs(c, es, status, errors)
  {
    if es == [] {
      return Pass, [];
    }
    var partial := es[0].rec.body.prevHash != Some(Genesis);
    var prev := es[0].rec.hash;
    if Some(Digest(c, es[0].rec.body)) != es[0].rec.hash {
      assert FirstFault(c, es, 0);
      return Fail, [DataTamper(0)];
    }
    var i := 1;
    while i < |es|
      invariant 1 <= i <= |es|
      invariant prev == es[i - 1].rec.hash
      invariant forall j :: 0 <= j < i ==> !Fault(c, es, j)
    {
      var curr := es[i];
      if curr.rec.body.prevHash != prev {
        assert FirstFault(c, es, i);
        return Fail, [ChainBreak(i, prev, curr.rec.body.prevHash)];
      }
      if Some(Digest(c, curr.rec.body)) != curr.rec.hash {
        assert FirstFault(c, es, i);
        return Fail, [DataTamper(i)];
      }
      prev := curr.rec.hash;
      i := i + 1;
    }
    status := if partial then Partial else Pass;
    errors := [];
  }

  /** A window holding a contiguous run of records of a chained ledger has no
      faulty record; it is PASS when the run starts at a genesis-rooted beginning. */
  lemma WindowOfChainValidates(c: Crypto, start: string, lines: seq<Line>, a: nat, es: seq<Entry>)
    requires Chained(c, start, lines)
    requires a + |es| <= |lines|
    requires forall k :: 0 <= k < |es| ==> lines[a + k] == Parsed(es[k].rec)
    ensures Intact(c, es)
    ensures es != [] && a == 0 && start == Genesis ==> es[0].rec.body.prevHash == Some(Genesis)
  {
    forall i | 0 <= i < |es|
      ensures !Fault(c, es, i)
    {
      ChainedLinks(c, start, lines, a + i);
    }
    if es != [] && a == 0 {
      ChainedLinks(c, start, lines, 0);
    }
  }

  /** The tamper case: a record whose fields were edited after sealing, keeping
      its stored hash, is a faulty record, so the window is FAIL. */
  lemma TamperedRecordFaults(c: Crypto, es: seq<Entry>, i: nat, original: Unsigned)
    requires CollisionFree(c)
    requires i < |es|
    requires es[i].rec.hash == Some(Digest(c, original))
    requires es[i].rec.body != original
    ensures Fault(c, es, i)
  {
    DigestDistinguishes(c, es[i].rec.body, original);
  }

  // ---------------------------------------------------------------------------
  // is_rule_violation

  datatype Violation =
    | AuditHashMismatch
    | EventGateLeak
    | RiskCapBreach
    | CorrelationCapBreach
    | MissingStopLoss
    | DuplicateCandle

  function ViolationCode(v: Violation): string {
    match v
    case AuditHashMismatch => "AUDIT_HASH_MISMATCH"
    case EventGateLeak => "EVENT_GATE_LEAK"
    case RiskCapBreach => "RISK_CAP_BREACH"
    case CorrelationCapBreach => "CORRELATION_CAP_BREACH"
    case MissingStopLoss => "MISSING_STOP_LOSS"
    case DuplicateCandle => "DUPLICATE_CANDLE"
  }

  /** The upper-cased rejection reason. */
  function Reason(payload: Payload): string {
    Upper(StrOr(payload, "reason", ""))
  }

  predicate RejectedDecision(eventType: string, payload: Payload) {
    eventType == "RISK_MANAGER_DECISION" && Get(payload, "status") == VStr("REJECTED")
  }

  predicate CapReason(reason: string) {
    Contains(reason, "TOTAL RISK") || Contains(reason, "CAP EXCEEDED")
  }

  predicate CorrelationReason(reason: string) {
    Contains(reason, "CORRELATION") || Contains(reason, "GROUP CAP")
  }

  /** `is_rule_violation`, with the tracked risk status as the context. */
  function RuleViolation(eventType: string, payload: Payload, status: Value): (v: Option<Violation>)
    ensures v == Some(EventGateLeak) <==> eventType == "TRADE_EXECUTED" && status == StandDown
    ensures v == Some(RiskCapBreach) <==> RejectedDecision(eventType, payload) && CapReason(Reason(payload))
    ensures v == Some(CorrelationCapBreach) <==>
      RejectedDecision(eventType, payload) && !CapReason(Reason(payload)) && CorrelationReason(Reason(payload))
    ensures v == Some(MissingStopLoss) <==>
      eventType == "TRADE_EXECUTED" && status != StandDown && !Truthy(Get(payload, "stop_loss"))
    ensures v == Some(DuplicateCandle) <==>
      eventType == "DATA_HEALTH" && Get(payload, "message") == VStr("Duplicate Candle")
    ensures v != Some(AuditHashMismatch)
  {
    if eventType == "TRADE_EXECUTED" && status == StandDown then Some(EventGateLeak)
    else if RejectedDecision(eventType, payload) && CapReason(Reason(payload)) then Some(RiskCapBreach)
    else if RejectedDecision(eventType, payload) && CorrelationReason(Reason(payload)) then Some(CorrelationCapBreach)
    else if eventType == "TRADE_EXECUTED" && !Truthy(Get(payload, "stop_loss")) then Some(MissingStopLoss)
    else if eventType == "DATA_HEALTH" && Get(payload, "message") == VStr("Duplicate Candle") then Some(DuplicateCandle)
    else None
  }

  /** The risk manager writes RISK_REJECTED and RISK_APPROVED, and the health
      monitor writes its text under "notes": none of these records is ever a violation. */
  lemma EmittedRecordsNeverFlagged(payload: Payload, status: Value)
    ensures RuleViolation("RISK_REJECTED", payload, status) == None
    ensures RuleViolation("RISK_APPROVED", payload, status) == None
    ensures "message" !in payload ==> RuleViolation("DATA_HEALTH", payload, status) == None
  {
  }

  // ---------------------------------------------------------------------------
  // Status tracking shared by the scanning loops

  /** The status after the first n records: ALLOW_TRADING, replaced by the
      "status" field of each EVENT_RISK record. */
  function StatusThrough(es: seq<Entry>, n: nat): Value
    requires n <= |es|
  {
    if n == 0 then AllowTrading
    else if TypeOf(es[n - 1]) == "EVENT_RISK" then Get(PayloadOf(es[n - 1]), "status")
    else StatusThrough(es, n - 1)
  }

  /** Record i is classified with the status in force once it has been read. */
  function ViolationAt(es: seq<Entry>, i: nat): Option<Violation>
    requires i < |es|
  {
    RuleViolation(TypeOf(es[i]), PayloadOf(es[i]), StatusThrough(es, i + 1))
  }

  // ---------------------------------------------------------------------------
  // detect_event_gate_leaks

  predicate IsLeakAt(es: seq<Entry>, i: nat)
    requires i < |es|
  {
    (TypeOf(es[i]) == "TRADE_EXECUTED" || TypeOf(es[i]) == "EXECUTION_FILL") && StatusThrough(es, i + 1) == StandDown
  }

  /** Indices of the leaking records among the first n, in order. */
  function LeakIndices(es: seq<Entry>, n: nat): (r: seq<nat>)
    requires n <= |es|
    ensures forall k :: 0 <= k < |r| ==> r[k] < n
  {
    if n == 0 then []
    else LeakIndices(es, n - 1) + (if IsLeakAt(es, n - 1) then [n - 1] else [])
  }

  /** The leak indices are exactly the leaking records, strictly increasing. */
  lemma {:induction false} LeakIndicesExact(es: seq<Entry>, n: nat)
    requires n <= |es|
    ensures forall i :: i in LeakIndices(es, n) <==> 0 <= i < n && IsLeakAt(es, i)
    ensures forall j, k :: 0 <= j < k < |LeakIndices(es, n)| ==> LeakIndices(es, n)[j] < LeakIndices(es, n)[k]
  {
    if n > 0 {
      LeakIndicesExact(es, n - 1);
    }
  }

  /** `detect_event_gate_leaks`: the leaking records, in input order. */
  method DetectEventGateLeaks(es: seq<Entry>) returns (leaks: seq<Entry>)
    ensures |leaks| == |LeakIndices(es, |es|)|
    ensures forall j :: 0 <= j < |leaks| ==> leaks[j] == es[LeakIndices(es, |es|)[j]]
  {
    leaks := [];
    var status := AllowTrading;
    var i := 0;
    while i < |es|
      invariant 0 <= i <= |es|
      invariant status == StatusThrough(es, i)
      invariant |leaks| == |LeakIndices(es, i)|
      invariant forall j :: 0 <= j < |leaks| ==> leaks[j] == es[LeakIndices(es, i)[j]]
    {
      var e := es[i];
      if TypeOf(e) == "EVENT_RISK" {
        status := Get(PayloadOf(e), "status");
      }
      if (TypeOf(e) == "TRADE_EXECUTED" || TypeOf(e) == "EXECUTION_FILL") && status == StandDown {
        leaks := leaks + [e];
      }
      i := i + 1;
    }
  }

  // ---------------------------------------------------------------------------
  // count_rule_violations

  /** Violations among the first n records, skipping those before `cutoff`. */
  function Violations(es: seq<Entry>, cutoff: int, n: nat): seq<Violation>
    requires n <= |es|
  {
    if n == 0 then []
    else
      Violations(es, cutoff, n - 1) +
      (if ViolationAt(es, n - 1).Some? && es[n - 1].dt >= cutoff then [ViolationAt(es, n - 1).value] else [])
  }

  /** The end of the grace period: first record's time plus the grace minutes. */
  function GraceCutoff(es: seq<Entry>, graceMins: int): int
    requires es != []
  {
    es[0].dt + graceMins * 60
  }

  /** `count_rule_violations`. */
  method CountRuleViolations(es: seq<Entry>, graceMins: int) returns (count: nat, details: seq<Violation>)
    ensures es == [] ==> count == 0 && details == []
    ensures es != [] ==> details == Violations(es, GraceCutoff(es, graceMins), |es|)
    ensures count == |details|
  {
    if es == [] {
      return 0, [];
    }
    count := 0;
    details := [];
    var status := AllowTrading;
    var cutoff := es[0].dt + graceMins * 60;
    var i := 0;
    while i < |es|
      invariant 0 <= i <= |es|
      invariant status == StatusThrough(es, i)
      invariant details == Violations(es, cutoff, i)
      invariant count == |details|
    {
      var e := es[i];
      var inGrace := e.dt < cutoff;
      if TypeOf(e) == "EVENT_RISK" {
        status := Get(PayloadOf(e), "status");
      }
      var v := RuleViolation(TypeOf(e), PayloadOf(e), status);
      if v.Some? && !inGrace {
        count := count + 1;
        details := details + [v.value];
      }
      i := i + 1;
    }
  }

  /** Every counted violation comes from a record at or after the cutoff: the
      j-th counted violation is that of some record i with `dt >= cutoff`. */
  lemma {:induction false} ViolationsSound(es: seq<Entry>, cutoff: int, n: nat, j: nat) returns (i: nat)
    requires n <= |es|
    requires j < |Violations(es, cutoff, n)|
    ensures i < n && es[i].dt >= cutoff && ViolationAt(es, i) == Some(Violations(es, cutoff, n)[j])
  {
    var prev := Violations(es, cutoff, n - 1);
    if j < |prev| {
      i := ViolationsSound(es, cutoff, n - 1, j);
    } else {
      i := n - 1;
    }
  }

  /** A later cutoff never counts more violations. */
  lemma {:induction false} ViolationsAntitone(es: seq<Entry>, c1: int, c2: int, n: nat)
    requires n <= |es|
    requires c1 <= c2
    ensures |Violations(es, c2, n)| <= |Violations(es, c1, n)|
  {
    if n > 0 {
      ViolationsAntitone(es, c1, c2, n - 1);
    }
  }

  /** A larger grace period never increases the violation count. */
  lemma LongerGraceCountsNoMore(es: seq<Entry>, g1: int, g2: int)
    requires es != []
    requires g1 <= g2
    ensures |Violations(es, GraceCutoff(es, g2), |es|)| <= |Violations(es, GraceCutoff(es, g1), |es|)|
  {
    ViolationsAntitone(es, GraceCutoff(es, g1), GraceCutoff(es, g2), |es|);
  }

  // ---------------------------------------------------------------------------
  // compute_shadow_metrics

  /** Records of the first n satisfying p. */
  function Count(es: seq<Entry>, p: Entry -> bool, n: nat): nat
    requires n <= |es|
  {
    if n == 0 then 0 else Count(es, p, n - 1) + (if p(es[n - 1]) then 1 else 0)
  }

  predicate IsTick(e: Entry) { TypeOf(e) == "EVENT_RISK" }
  predicate IsBlock(e: Entry) { TypeOf(e) == "EVENT_STAND_DOWN_BLOCK" }
  predicate IsTrade(e: Entry) { TypeOf(e) == "TRADE_EXECUTED" }
  predicate IsClose(e: Entry) { TypeOf(e) == "TRADE_CLOSED" }

  predicate BeReason(reason: string) {
    Contains(reason, "BREAK_EVEN") || Contains(reason, "BE")
  }

  predicate IsBeClose(e: Entry) {
    IsClose(e) && BeReason(Reason(PayloadOf(e)))
  }

  predicate IsTrailingClose(e: Entry) {
    IsClose(e) && !BeReason(Reason(PayloadOf(e))) && Contains(Reason(PayloadOf(e)), "TRAILING")
  }

  predicate IsDuplicateNote(e: Entry) {
    TypeOf(e) == "DATA_HEALTH" && Get(PayloadOf(e), "notes") == VStr("Duplicate Candle")
  }

  /** `p.get("risk_pct", 0)` of a trade record. */
  function RiskOf(e: Entry): real {
    NumOr(PayloadOf(e), "risk_pct", 0.0)
  }

  /** Trades among the first n executed while the tracked status was STAND_DOWN. */
  function SdEntries(es: seq<Entry>, n: nat): nat
    requires n <= |es|
  {
    if n == 0 then 0
    else SdEntries(es, n - 1) + (if IsTrade(es[n - 1]) && StatusThrough(es, n) == StandDown then 1 else 0)
  }

  function SumRisk(es: seq<Entry>, n: nat): real
    requires n <= |es|
  {
    if n == 0 then 0.0 else SumRisk(es, n - 1) + (if IsTrade(es[n - 1]) then RiskOf(es[n - 1]) else 0.0)
  }

  function Max(a: real, b: real): real { if a >= b then a else b }

  function MaxRisk(es: seq<Entry>, n: nat): real
    requires n <= |es|
  {
    if n == 0 then 0.0 else if IsTrade(es[n - 1]) then Max(MaxRisk(es, n - 1), RiskOf(es[n - 1])) else MaxRisk(es, n - 1)
  }

  /** The counters of the decision-and-trade loop. */
  datatype Tally = Tally(
    totalTicks: nat,
    blockedAttempts: nat,
    tradeCount: nat,
    sdEntries: nat,
    riskMax: real,
    totalRisk: real,
    beActivations: nat,
    trailingExits: nat,
    duplicates: nat)

  /** The counting loop of `compute_shadow_metrics` over the window. */
  method TallyWindow(w: seq<Entry>) returns (t: Tally)
    ensures t.totalTicks == Count(w, IsTick, |w|)
    ensures t.blockedAttempts == Count(w, IsBlock, |w|)
    ensures t.tradeCount == Count(w, IsTrade, |w|)
    ensures t.sdEntries == SdEntries(w, |w|)
    ensures t.riskMax == MaxRisk(w, |w|) && t.totalRisk == SumRisk(w, |w|)
    ensures t.beActivations == Count(w, IsBeClose, |w|)
    ensures t.trailingExits == Count(w, IsTrailingClose, |w|)
    ensures t.duplicates == Count(w, IsDuplicateNote, |w|)
  {
    t := Tally(0, 0, 0, 0, 0.0, 0.0, 0, 0, 0);
    var status := AllowTrading;
    var i := 0;
    while i < |w|
      invariant 0 <= i <= |w|
      invariant status == StatusThrough(w, i)
      invariant t.totalTicks == Count(w, IsTick, i)
      invariant t.blockedAttempts == Count(w, IsBlock, i)
      invariant t.tradeCount == Count(w, IsTrade, i)
      invariant t.sdEntries == SdEntries(w, i)
      invariant t.riskMax == MaxRisk(w, i) && t.totalRisk == SumRisk(w, i)
      invariant t.beActivations == Count(w, IsBeClose, i)
      invariant t.trailingExits == Count(w, IsTrailingClose, i)
      invariant t.duplicates == Count(w, IsDuplicateNote, i)
    {
      var e := w[i];
      var p := PayloadOf(e);
      if TypeOf(e) == "EVENT_RISK" {
        status := Get(p, "status");
        t := t.(totalTicks := t.totalTicks + 1);
      }
      if TypeOf(e) == "EVENT_STAND_DOWN_BLOCK" {
        t := t.(blockedAttempts := t.blockedAttempts + 1);
      }
      if TypeOf(e) == "TRADE_EXECUTED" {
        var riskVal := NumOr(p, "risk_pct", 0.0);
        t := t.(tradeCount := t.tradeCount + 1, riskMax := Max(t.riskMax, riskVal), totalRisk := t.totalRisk + riskVal);
        if status == StandDown {
          t := t.(sdEntries := t.sdEntries + 1);
        }
      }
      if TypeOf(e) == "TRADE_CLOSED" {
        var reason := Upper(StrOr(p, "reason", ""));
        if Contains(reason, "BREAK_EVEN") || Contains(reason, "BE") {
          t := t.(beActivations := t.beActivations + 1);
        } else if Contains(reason, "TRAILING") {
          t := t.(trailingExits := t.trailingExits + 1);
        }
      }
      if TypeOf(e) == "DATA_HEALTH" && Get(p, "notes") == VStr("Duplicate Candle") {
        t := t.(duplicates := t.duplicates + 1);
      }
      i := i + 1;
    }
  }

  /** Stand-down entries are trades, so there are never more of them than trades. */
  lemma {:induction false} SdEntriesAtMostTrades(w: seq<Entry>, n: nat)
    requires n <= |w|
    ensures SdEntries(w, n) <= Count(w, IsTrade, n)
  {
    if n > 0 {
      SdEntriesAtMostTrades(w, n - 1);
    }
  }

  /** A close is counted as break-even or as trailing, never as both. */
  lemma {:induction false} ExitKindsDisjoint(w: seq<Entry>, n: nat)
    requires n <= |w|
    ensures Count(w, IsBeClose, n) + Count(w, IsTrailingClose, n) <= Count(w, IsClose, n)
  {
    if n > 0 {
      ExitKindsDisjoint(w, n - 1);
    }
  }

  /** risk_max is non-negative and bounds the risk of every trade in the window. */
  lemma {:induction false} MaxRiskBounds(w: seq<Entry>, n: nat)
    requires n <= |w|
    ensures MaxRisk(w, n) >= 0.0
    ensures forall i :: 0 <= i < n && IsTrade(w[i]) ==> RiskOf(w[i]) <= MaxRisk(w, n)
  {
    if n > 0 {
      MaxRiskBounds(w, n - 1);
    }
  }

  /** The window's records, in order, with `lo <= dt <= hi`. */
  function InWindow(es: seq<Entry>, lo: int, hi: int): (w: seq<Entry>)
    ensures forall e :: e in w <==> e in es && lo <= e.dt <= hi
    ensures |w| <= |es|
  {
    if es == [] then []
    else (if lo <= es[0].dt <= hi then [es[0]] else []) + InWindow(es[1..], lo, hi)
  }

  /** The window start: the given start, else `days or 28` days before now. */
  function WindowStart(startTs: Option<int>, now: int, days: Option<int>): (s: int)
    ensures startTs.Some? ==> s == startTs.value
    ensures startTs.None? && days.Some? && days.value != 0 ==> s == now - days.value * 86400
    ensures startTs.None? && (days.None? || days.value == 0) ==> s == now - 28 * 86400
  {
    if startTs.Some? then startTs.value
    else now - (if days.None? || days.value == 0 then 28 else days.value) * 86400
  }

  datatype ShadowMetrics = ShadowMetrics(
    violations: nat,
    violationDetails: seq<Violation>,
    riskAvg: real,
    riskMax: real,
    noTradePct: real,
    sdEntries: nat,
    blockedAttempts: nat,
    beActivations: nat,
    trailingExits: nat,
    integrityStatus: Integrity,
    integrityErrors: seq<WindowError>,
    duplicates: nat,
    lastTick: Option<int>,
    totalTicks: nat,
    tradeCount: nat,
    startTs: int,
    endTs: int)

  function EmptyMetrics(startTs: int, endTs: int): ShadowMetrics {
    ShadowMetrics(0, [], 0.0, 0.0, 0.0, 0, 0, 0, 0, Pass, [], 0, None, 0, 0, startTs, endTs)
  }

  /** What the metrics of a non-empty window are. */
  ghost predicate DescribesWindow(c: Crypto, w: seq<Entry>, graceMins: int, m: ShadowMetrics)
    requires w != []
  {
    DescribesIntegrity(c, w, graceMins, m) && DescribesTally(w, m)
  }

  /** The integrity answer and the violations of a window's metrics: an
      integrity failure is itself the first violation. */
  ghost predicate DescribesIntegrity(c: Crypto, w: seq<Entry>, graceMins: int, m: ShadowMetrics)
    requires w != []
  {
    && m.violations == |m.violationDetails|
    && m.violationDetails ==
         (if m.integrityStatus == Fail then [AuditHashMismatch] else []) + Violations(w, GraceCutoff(w, graceMins), |w|)
    && ValidatedAs(c, w, m.integrityStatus, m.integrityErrors)
  }

  /** The counters, risk figures and last tick of a window's metrics. */
  predicate DescribesTally(w: seq<Entry>, m: ShadowMetrics)
    requires w != []
  {
    && m.totalTicks == Count(w, IsTick, |w|)
    && m.tradeCount == Count(w, IsTrade, |w|)
    && m.sdEntries == SdEntries(w, |w|)
    && m.blockedAttempts == Count(w, IsBlock, |w|)
    && m.beActivations == Count(w, IsBeClose, |w|)
    && m.trailingExits == Count(w, IsTrailingClose, |w|)
    && m.duplicates == Count(w, IsDuplicateNote, |w|)
    && m.riskMax == MaxRisk(w, |w|)
    && m.riskAvg == (if m.tradeCount > 0 then SumRisk(w, |w|) / m.tradeCount as real else 0.0)
    && m.noTradePct == (if m.totalTicks > 0 then (m.totalTicks as real - m.tradeCount as real) / m.totalTicks as real else 0.0)
    && m.lastTick == Some(w[|w| - 1].dt)
  }

  /** Metrics of a window with no faulty record and no rule violation: no
      violation and no integrity error, PARTIAL exactly when the window does
      not start at the genesis link and PASS exactly when it does. */
  lemma CleanWindowIntegrity(c: Crypto, w: seq<Entry>, graceMins: int, m: ShadowMetrics)
    requires w != [] && DescribesIntegrity(c, w, graceMins, m)
    requires Intact(c, w)
    requires Violations(w, GraceCutoff(w, graceMins), |w|) == []
    ensures m.violations == 0 && m.integrityErrors == []
    ensures m.integrityStatus == Partial <==> !Rooted(w)
    ensures m.integrityStatus == Pass <==> Rooted(w)
  {
    CleanValidation(c, w, m.integrityStatus, m.integrityErrors);
  }

  /** On a non-empty window with no faulty record, the answer has no errors
      and is PARTIAL or PASS by the first record's link alone. */
  lemma CleanValidation(c: Crypto, es: seq<Entry>, status: Integrity, errors: seq<WindowError>)
    requires es != [] && Intact(c, es) && ValidatedAs(c, es, status, errors)
    ensures status != Fail && errors == []
    ensures status == Partial <==> !Rooted(es)
    ensures status == Pass <==> Rooted(es)
  {
  }

  /** Steps 1 to 3 of `compute_shadow_metrics` on a non-empty window. */
  method WindowMetrics(c: Crypto, w: seq<Entry>, graceMins: int, cutoff: int, endCutoff: int) returns (m: ShadowMetrics)
    requires w != []
    ensures DescribesWindow(c, w, graceMins, m)
    ensures m.startTs == cutoff && m.endTs == endCutoff
  {
    var status, errors := ValidateAuditWindow(c, w);
    var details: seq<Violation> := [];
    if status == Fail {
      details := [AuditHashMismatch];
    }
    var vCount, vDetails := CountRuleViolations(w, graceMins);
    details := details + vDetails;
    var t := TallyWindow(w);
    var noTrade := if t.totalTicks > 0 then (t.totalTicks as real - t.tradeCount as real) / t.totalTicks as real else 0.0;
    var riskAvg := if t.tradeCount > 0 then t.totalRisk / t.tradeCount as real else 0.0;
    m := ShadowMetrics(|details|, details, riskAvg, t.riskMax, noTrade, t.sdEntries, t.blockedAttempts,
                       t.beActivations, t.trailingExits, status, errors, t.duplicates, Some(w[|w| - 1].dt),
                       t.totalTicks, t.tradeCount, cutoff, endCutoff);
  }

  /** `compute_shadow_metrics` over the parsed ledger (None when the file does not
      exist), without the equity drawdown. */
  method ComputeShadowMetrics(c: Crypto, ledger: Option<seq<Entry>>, now: int, days: Option<int>, graceMins: int,
                              startTs: Option<int>, endTs: Option<int>)
    returns (m: ShadowMetrics)
    ensures m.startTs == WindowStart(startTs, now, days)
    ensures m.endTs == (if endTs.Some? then endTs.value else now)
    ensures var w := if ledger.Some? then InWindow(ledger.value, m.startTs, m.endTs) else [];
      && (w == [] ==> m == EmptyMetrics(m.startTs, m.endTs))
      && (w != [] ==> DescribesWindow(c, w, graceMins, m))
  {
    var cutoff := WindowStart(startTs, now, days);
    var endCutoff := if endTs.Some? then endTs.value else now;
    m := EmptyMetrics(cutoff, endCutoff);
    if ledger.None? || ledger.value == [] {
      return;
    }
    var w := InWindow(ledger.value, cutoff, endCutoff);
    if w == [] {
      return;
    }
    m := WindowMetrics(c, w, graceMins, cutoff, endCutoff);
  }
}
