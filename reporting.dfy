/** The executive decision of `generate_shadow_report` in
    src/ui/analytics/reporting.py: the grace period chosen by strictness, the
    GO / NO-GO / REVIEW / INSUFFICIENT_DATA status, and the window header. */
module Reporting {
  import opened Common
  import opened Audit
  import opened ShadowObservation

  /** A datetime as seconds on its own clock, with its UTC offset in seconds
      when it is timezone-aware. */
  datatype DateTime = DateTime(wall: int, offset: Option<int>)

  /** A naive datetime is taken to be UTC; an aware one is kept. */
  function AsUtc(d: DateTime): (r: DateTime)
    ensures r.offset.Some?
    ensures d.offset.Some? ==> r == d
    ensures d.offset.None? ==> r == DateTime(d.wall, Some(0))
  {
    if d.offset.None? then DateTime(d.wall, Some(0)) else d
  }

  /** The instant an aware datetime denotes, in seconds since the epoch. */
  function Instant(d: DateTime): int
    requires d.offset.Some?
  {
    d.wall - d.offset.value
  }

  /** Grace minutes: none in strict mode, thirty otherwise. */
  function GracePeriod(strict: bool): (g: int)
    ensures strict ==> g == 0
    ensures !strict ==> g == 30
  {
    if strict then 0 else 30
  }

  datatype ReportStatus = Go | NoGo | Review | InsufficientData

  /** The status chain: any violation or a failed integrity check is NO-GO
      whatever the sample size; then PARTIAL integrity asks for review; then
      fewer than ten ticks is not enough data. */
  function Status(violations: nat, integrity: Integrity, ticks: nat): (s: ReportStatus)
    ensures s == NoGo <==> violations > 0 || integrity.Fail?
    ensures s == Review <==> violations == 0 && integrity.Partial?
    ensures s == InsufficientData <==> violations == 0 && integrity.Pass? && ticks < 10
    ensures s == Go <==> violations == 0 && integrity.Pass? && ticks >= 10
  {
    if violations > 0 || integrity.Fail? then NoGo
    else if integrity.Partial? then Review
    else if ticks < 10 then InsufficientData
    else Go
  }

  datatype Header = Header(status: ReportStatus, windowStart: DateTime, windowEnd: DateTime, generatedAt: DateTime)

  datatype Report = Report(header: Header, metrics: ShadowMetrics)

  /** `generate_shadow_report`, with the current time as an input. */
  method GenerateShadowReport(c: Crypto, ledger: Option<seq<Entry>>, start: DateTime, end: DateTime, strict: bool, now: DateTime)
    returns (report: Report)
    requires now.offset.Some?
    ensures report.header.windowStart == AsUtc(start) && report.header.windowEnd == AsUtc(end)
    ensures report.header.generatedAt == now
    ensures var m := report.metrics;
      && report.header.status == Status(m.violations, m.integrityStatus, m.totalTicks)
      && m.startTs == Instant(AsUtc(start)) && m.endTs == Instant(AsUtc(end))
      && var w := if ledger.Some? then InWindow(ledger.value, m.startTs, m.endTs) else [];
         && (w == [] ==> m == EmptyMetrics(m.startTs, m.endTs))
         && (w != [] ==> DescribesWindow(c, w, GracePeriod(strict), m))
  {
    var s := AsUtc(start);
    var e := AsUtc(end);
    var grace := GracePeriod(strict);
    var m := ComputeShadowMetrics(c, ledger, Instant(now), None, grace, Some(Instant(s)), Some(Instant(e)));
    var status := Status(m.violations, m.integrityStatus, m.totalTicks);
    report := Report(Header(status, s, e, now), m);
  }

  /** A window that fails its integrity check is reported NO-GO: the failure
      is itself counted as an AUDIT_HASH_MISMATCH violation. */
  lemma FailedWindowIsNoGo(c: Crypto, w: seq<Entry>, grace: int, m: ShadowMetrics)
    requires w != []
    requires DescribesWindow(c, w, grace, m)
    requires !Intact(c, w)
    ensures m.violations > 0
    ensures Status(m.violations, m.integrityStatus, m.totalTicks) == NoGo
  {
    assert m.violationDetails[0] == AuditHashMismatch;
  }

  /** A window with no faulty record and no rule violation that does not
      start at the genesis link is PARTIAL, so the report asks for review
      whatever the sample size. */
  lemma UnrootedCleanWindowIsReview(c: Crypto, w: seq<Entry>, grace: int, m: ShadowMetrics)
    requires w != []
    requires DescribesIntegrity(c, w, grace, m)
    requires Intact(c, w) && !Rooted(w)
    requires Violations(w, GraceCutoff(w, grace), |w|) == []
    ensures m.integrityStatus == Partial && m.integrityErrors == []
    ensures Status(m.violations, m.integrityStatus, m.totalTicks) == Review
  {
    CleanWindowIntegrity(c, w, grace, m);
  }

  /** A window with no faulty record and no rule violation that starts at the
      genesis link is PASS, and with at least ten ticks it is GO. */
  lemma RootedCleanWindowIsGo(c: Crypto, w: seq<Entry>, grace: int, m: ShadowMetrics)
    requires w != []
    requires DescribesIntegrity(c, w, grace, m)
    requires Intact(c, w) && Rooted(w)
    requires Violations(w, GraceCutoff(w, grace), |w|) == []
    requires m.totalTicks >= 10
    ensures m.integrityStatus == Pass && m.integrityErrors == []
    ensures Status(m.violations, m.integrityStatus, m.totalTicks) == Go
  {
    CleanWindowIntegrity(c, w, grace, m);
  }

  /** The same window with fewer than ten ticks is not enough data. */
  lemma RootedCleanWindowTooShort(c: Crypto, w: seq<Entry>, grace: int, m: ShadowMetrics)
    requires w != []
    requires DescribesIntegrity(c, w, grace, m)
    requires Intact(c, w) && Rooted(w)
    requires Violations(w, GraceCutoff(w, grace), |w|) == []
    requires m.totalTicks < 10
    ensures m.integrityStatus == Pass && m.integrityErrors == []
    ensures Status(m.violations, m.integrityStatus, m.totalTicks) == InsufficientData
  {
    CleanWindowIntegrity(c, w, grace, m);
  }

  /** A strict report counts at least as many rule violations as a lenient one. */
  lemma StrictCountsAtLeastLenient(w: seq<Entry>)
    requires w != []
    ensures |Violations(w, GraceCutoff(w, GracePeriod(true)), |w|)| >= |Violations(w, GraceCutoff(w, GracePeriod(false)), |w|)|
  {
    LongerGraceCountsNoMore(w, GracePeriod(true), GracePeriod(false));
  }
}
