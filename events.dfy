/** The economic-calendar gate of src/modules/events/engine.py and the records of
    src/modules/events/models.py. Times are whole seconds since the epoch; a
    window of m minutes is compared as m * 60 seconds. */
module Events {
  import opened Common

  datatype Impact = Low | Medium | High

  datatype EconomicEvent = EconomicEvent(eventId: string, timeUtc: int, currency: string, title: string, impact: Impact)

  datatype RiskStatus = AllowTrading | Caution | StandDown

  function StatusName(s: RiskStatus): string {
    match s
    case AllowTrading => "ALLOW_TRADING"
    case Caution => "CAUTION"
    case StandDown => "STAND_DOWN"
  }

  function ImpactName(i: Impact): string {
    match i
    case Low => "LOW"
    case Medium => "MEDIUM"
    case High => "HIGH"
  }

  /** "FORCED STATUS (s)", "Events Filter Disabled", "No upcoming high-impact events",
      "Event Stand-Down: title (impact)" and "Event Caution: title (impact)". */
  datatype GateReason =
    | Forced(status: RiskStatus)
    | FilterDisabled
    | NoUpcomingHighImpact
    | EventStandDown(title: string, impact: Impact)
    | EventCaution(title: string, impact: Impact)

  datatype Assessment = Assessment(
    status: RiskStatus,
    reason: GateReason,
    nextHighEventTime: Option<int>,
    minutesToEvent: Option<int>,
    activeEventWindow: bool,
    matchedEvent: Option<EconomicEvent>)

  /** The `events` configuration, each setting already resolved to its value or default. */
  datatype GateConfig = GateConfig(
    enabled: bool,
    currenciesByInstrument: map<string, seq<string>>,
    sdImpacts: seq<Impact>,
    sdPre: int,
    sdPost: int,
    cautionImpacts: seq<Impact>,
    cautionPre: int,
    cautionPost: int)

  /** The defaults the engine falls back to for every unset setting. */
  function DefaultGateConfig(enabled: bool): GateConfig {
    GateConfig(enabled, map[], [High], 60, 30, [Medium], 30, 15)
  }

  /** The currencies an instrument is exposed to: configured, else USD and EUR. */
  function CurrenciesFor(cfg: GateConfig, instrument: string): (cs: seq<string>)
    ensures instrument !in cfg.currenciesByInstrument ==> cs == ["USD", "EUR"]
  {
    if instrument in cfg.currenciesByInstrument then cfg.currenciesByInstrument[instrument] else ["USD", "EUR"]
  }

  /** A stand-down-impact event within [-post, pre] minutes of now, both ends included. */
  predicate SdHit(e: EconomicEvent, now: int, cfg: GateConfig) {
    e.impact in cfg.sdImpacts && -cfg.sdPost * 60 <= e.timeUtc - now <= cfg.sdPre * 60
  }

  /** A caution-impact event within [-post, pre] caution minutes of now. */
  predicate CautionHit(e: EconomicEvent, now: int, cfg: GateConfig) {
    e.impact in cfg.cautionImpacts && -cfg.cautionPost * 60 <= e.timeUtc - now <= cfg.cautionPre * 60
  }

  /** A stand-down-impact event strictly in the future. */
  predicate Upcoming(e: EconomicEvent, now: int, cfg: GateConfig) {
    e.impact in cfg.sdImpacts && e.timeUtc - now > 0
  }

  // ---------------------------------------------------------------------------
  // Selecting and ordering the relevant events

  function Relevant(events: seq<EconomicEvent>, currencies: seq<string>): (r: seq<EconomicEvent>)
    ensures forall e :: e in r <==> e in events && e.currency in currencies
    ensures |r| <= |events|
  {
    if events == [] then []
    else (if events[0].currency in currencies then [events[0]] else []) + Relevant(events[1..], currencies)
  }

  predicate SortedByTime(s: seq<EconomicEvent>) {
    forall i, j :: 0 <= i < j < |s| ==> s[i].timeUtc <= s[j].timeUtc
  }

  /** Places e before the first element that is not earlier than it. */
  function Insert(e: EconomicEvent, s: seq<EconomicEvent>): (r: seq<EconomicEvent>)
    requires SortedByTime(s)
    ensures SortedByTime(r)
    ensures |r| == |s| + 1
    ensures forall j :: 0 <= j < |r| ==> r[j] == e || r[j].timeUtc >= (if s == [] then e.timeUtc else s[0].timeUtc)
  {
    if s == [] || e.timeUtc <= s[0].timeUtc then [e] + s
    else [s[0]] + Insert(e, s[1..])
  }

  /** Insertion adds e and loses nothing. */
  lemma {:induction false} InsertPermutes(e: EconomicEvent, s: seq<EconomicEvent>)
    requires SortedByTime(s)
    ensures multiset(Insert(e, s)) == multiset(s) + multiset{e}
  {
    if s != [] && e.timeUtc > s[0].timeUtc {
      InsertPermutes(e, s[1..]);
      assert s == [s[0]] + s[1..];
    }
  }

  /** `sorted(events, key=timestamp_utc)`: a stable insertion sort. */
  function SortByTime(s: seq<EconomicEvent>): (r: seq<EconomicEvent>)
    ensures SortedByTime(r)
    ensures multiset(r) == multiset(s)
  {
    if s == [] then []
    else
      assert s == [s[0]] + s[1..];
      InsertPermutes(s[0], SortByTime(s[1..]));
      Insert(s[0], SortByTime(s[1..]))
  }

  // ---------------------------------------------------------------------------
  // The classification loop of assess_risk

  /** Index of the first stand-down hit, or |rel| when there is none: the loop
      breaks there. */
  function Horizon(rel: seq<EconomicEvent>, now: int, cfg: GateConfig): (h: nat)
    ensures h <= |rel|
    ensures forall i :: 0 <= i < h ==> !SdHit(rel[i], now, cfg)
    ensures h < |rel| ==> SdHit(rel[h], now, cfg)
  {
    if rel == [] then 0
    else if SdHit(rel[0], now, cfg) then 0
    else 1 + Horizon(rel[1..], now, cfg)
  }

  /** The earliest upcoming stand-down-impact time among the first n events,
      keeping the first of equal times. */
  function MinUpcoming(rel: seq<EconomicEvent>, n: nat, now: int, cfg: GateConfig): Option<int>
    requires n <= |rel|
  {
    if n == 0 then None
    else
      var m := MinUpcoming(rel, n - 1, now, cfg);
      if Upcoming(rel[n - 1], now, cfg) && (m.None? || rel[n - 1].timeUtc < m.value) then Some(rel[n - 1].timeUtc) else m
  }

  lemma {:induction false} MinUpcomingIsMinimum(rel: seq<EconomicEvent>, n: nat, now: int, cfg: GateConfig)
    requires n <= |rel|
    ensures MinUpcoming(rel, n, now, cfg).Some? <==> exists j :: 0 <= j < n && Upcoming(rel[j], now, cfg)
    ensures MinUpcoming(rel, n, now, cfg).Some? ==>
      && (exists j :: 0 <= j < n && Upcoming(rel[j], now, cfg) && rel[j].timeUtc == MinUpcoming(rel, n, now, cfg).value)
      && (forall j :: 0 <= j < n && Upcoming(rel[j], now, cfg) ==> MinUpcoming(rel, n, now, cfg).value <= rel[j].timeUtc)
  {
    if n > 0 {
      MinUpcomingIsMinimum(rel, n - 1, now, cfg);
    }
  }

  /** The index of the last caution hit among the first n events. */
  function LastCaution(rel: seq<EconomicEvent>, n: nat, now: int, cfg: GateConfig): Option<nat>
    requires n <= |rel|
  {
    if n == 0 then None
    else if CautionHit(rel[n - 1], now, cfg) then Some(n - 1)
    else LastCaution(rel, n - 1, now, cfg)
  }

  lemma {:induction false} LastCautionIsLast(rel: seq<EconomicEvent>, n: nat, now: int, cfg: GateConfig)
    requires n <= |rel|
    ensures LastCaution(rel, n, now, cfg).None? <==> forall j :: 0 <= j < n ==> !CautionHit(rel[j], now, cfg)
    ensures LastCaution(rel, n, now, cfg).Some? ==>
      var k := LastCaution(rel, n, now, cfg).value;
      k < n && CautionHit(rel[k], now, cfg) && forall j :: k < j < n ==> !CautionHit(rel[j], now, cfg)
  {
    if n > 0 {
      LastCautionIsLast(rel, n - 1, now, cfg);
    }
  }

  function MinutesTo(t: Option<int>, now: int): Option<int> {
    if t.Some? then Some((t.value - now) / 60) else None
  }

  /** What the scan of `assess_risk` concludes over the sorted relevant events:
      a stand-down at the first stand-down hit, which ends the scan; otherwise
      the last caution hit, or trading allowed; and the earliest upcoming
      stand-down-impact time among the events scanned before the stop. */
  function Scan(rel: seq<EconomicEvent>, now: int, cfg: GateConfig): Assessment
  {
    var h := Horizon(rel, now, cfg);
    var next := MinUpcoming(rel, h, now, cfg);
    if h < |rel| then
      Assessment(StandDown, EventStandDown(rel[h].title, rel[h].impact), next, MinutesTo(next, now), true, Some(rel[h]))
    else
      match LastCaution(rel, |rel|, now, cfg)
      case None => Assessment(AllowTrading, NoUpcomingHighImpact, next, MinutesTo(next, now), false, None)
      case Some(k) =>
        LastCautionIsLast(rel, |rel|, now, cfg);
        Assessment(Caution, EventCaution(rel[k].title, rel[k].impact), next, MinutesTo(next, now), true, Some(rel[k]))
  }

  /** The scan's answer characterised: STAND_DOWN exactly when some event is a
      stand-down hit, naming the first; otherwise CAUTION exactly when some
      event is a caution hit, naming the last; the next high-impact time is the
      earliest upcoming one before the stop. */
  lemma ScanClassifies(rel: seq<EconomicEvent>, now: int, cfg: GateConfig)
    ensures var h, a := Horizon(rel, now, cfg), Scan(rel, now, cfg);
      && (a.status == StandDown <==> h < |rel|)
      && (h < |rel| ==> a.matchedEvent == Some(rel[h]) && a.reason == EventStandDown(rel[h].title, rel[h].impact))
      && (a.status == Caution <==> h == |rel| && exists j :: 0 <= j < |rel| && CautionHit(rel[j], now, cfg))
      && (a.status == Caution ==>
            exists k :: 0 <= k < |rel| && CautionHit(rel[k], now, cfg) && a.matchedEvent == Some(rel[k])
              && a.reason == EventCaution(rel[k].title, rel[k].impact)
              && forall j :: k < j < |rel| ==> !CautionHit(rel[j], now, cfg))
      && (a.status == AllowTrading ==> a.matchedEvent == None && a.reason == NoUpcomingHighImpact)
      && (a.activeEventWindow <==> a.matchedEvent.Some?)
      && (a.nextHighEventTime.Some? <==> exists j :: 0 <= j < h && Upcoming(rel[j], now, cfg))
      && (a.nextHighEventTime.Some? ==>
            && (exists j :: 0 <= j < h && Upcoming(rel[j], now, cfg) && rel[j].timeUtc == a.nextHighEventTime.value)
            && (forall j :: 0 <= j < h && Upcoming(rel[j], now, cfg) ==> a.nextHighEventTime.value <= rel[j].timeUtc))
      && a.minutesToEvent == MinutesTo(a.nextHighEventTime, now)
  {
    MinUpcomingIsMinimum(rel, Horizon(rel, now, cfg), now, cfg);
    LastCautionIsLast(rel, |rel|, now, cfg);
  }

  /** The scan of `assess_risk` over the sorted relevant events. */
  method Classify(rel: seq<EconomicEvent>, now: int, cfg: GateConfig) returns (a: Assessment)
    ensures a == Scan(rel, now, cfg)
  {
    var severity := AllowTrading;
    var reason := NoUpcomingHighImpact;
    var matched: Option<EconomicEvent> := None;
    var nextHigh: Option<int> := None;
    var minutes: Option<int> := None;
    var i := 0;
    while i < |rel|
      invariant 0 <= i <= Horizon(rel, now, cfg)
      invariant nextHigh == MinUpcoming(rel, i, now, cfg) && minutes == MinutesTo(nextHigh, now)
      invariant LastCaution(rel, i, now, cfg).None? ==> severity == AllowTrading && matched == None && reason == NoUpcomingHighImpact
      invariant LastCaution(rel, i, now, cfg).Some? ==>
        var k := LastCaution(rel, i, now, cfg).value;
        k < |rel| && severity == Caution && matched == Some(rel[k]) && reason == EventCaution(rel[k].title, rel[k].impact)
    {
      var e := rel[i];
      var diff := e.timeUtc - now;
      if e.impact in cfg.sdImpacts {
        if -cfg.sdPost * 60 <= diff <= cfg.sdPre * 60 {
          severity := StandDown;
          reason := EventStandDown(e.title, e.impact);
          matched := Some(e);
          break;
        }
        if diff > 0 && (nextHigh.None? || e.timeUtc < nextHigh.value) {
          nextHigh := Some(e.timeUtc);
          minutes := Some(diff / 60);
        }
      }
      if severity != StandDown && e.impact in cfg.cautionImpacts {
        if -cfg.cautionPost * 60 <= diff <= cfg.cautionPre * 60 {
          severity := Caution;
          reason := EventCaution(e.title, e.impact);
          matched := Some(e);
        }
      }
      i := i + 1;
    }
    a := Assessment(severity, reason, nextHigh, minutes, matched.Some?, matched);
    if severity == StandDown {
      assert i == Horizon(rel, now, cfg);
    } else {
      assert i == |rel| == Horizon(rel, now, cfg);
    }
  }

  /** With the default configuration, an instant 30 minutes before a HIGH event
      is inside the stand-down window, so that event or an earlier one stops the scan. */
  lemma ThirtyMinutesBeforeHighStandsDown(rel: seq<EconomicEvent>, now: int, k: nat, enabled: bool)
    requires k < |rel|
    requires rel[k].impact == High && rel[k].timeUtc == now + 30 * 60
    ensures Horizon(rel, now, DefaultGateConfig(enabled)) <= k
  {
    assert SdHit(rel[k], now, DefaultGateConfig(enabled));
  }

  /** Relevance depends only on an event's own currency: events in other
      currencies, wherever they sit in the cache, leave the relevant list unchanged. */
  lemma {:induction false} OtherCurrenciesIgnored(events: seq<EconomicEvent>, others: seq<EconomicEvent>, cs: seq<string>, k: nat)
    requires k <= |events|
    requires forall e :: e in others ==> e.currency !in cs
    ensures Relevant(events[..k] + others + events[k..], cs) == Relevant(events, cs)
  {
    RelevantConcat(events[..k] + others, events[k..], cs);
    RelevantConcat(events[..k], others, cs);
    RelevantNone(others, cs);
    RelevantConcat(events[..k], events[k..], cs);
    assert events[..k] + events[k..] == events;
  }

  lemma {:induction false} RelevantConcat(a: seq<EconomicEvent>, b: seq<EconomicEvent>, cs: seq<string>)
    ensures Relevant(a + b, cs) == Relevant(a, cs) + Relevant(b, cs)
    decreases |a|
  {
    if a != [] {
      RelevantConcat(a[1..], b, cs);
      assert (a + b)[1..] == a[1..] + b;
    } else {
      assert a + b == b;
    }
  }

  lemma RelevantNone(s: seq<EconomicEvent>, cs: seq<string>)
    requires forall e :: e in s ==> e.currency !in cs
    ensures Relevant(s, cs) == []
  {
    if Relevant(s, cs) != [] {
      assert Relevant(s, cs)[0] in Relevant(s, cs);
    }
  }

  // ---------------------------------------------------------------------------
  // Audit payloads

  function EventPayload(e: EconomicEvent): Value {
    VObj(map["event_id" := VStr(e.eventId), "timestamp_utc" := VNum(e.timeUtc as real), "currency" := VStr(e.currency),
             "title" := VStr(e.title), "impact" := VStr(ImpactName(e.impact))])
  }

  function OptNum(o: Option<int>): Value {
    if o.Some? then VNum(o.value as real) else VNull
  }

  function ReasonText(r: GateReason): string {
    match r
    case Forced(s) => "FORCED STATUS (" + StatusName(s) + ")"
    case FilterDisabled => "Events Filter Disabled"
    case NoUpcomingHighImpact => "No upcoming high-impact events"
    case EventStandDown(t, i) => "Event Stand-Down: " + t + " (" + ImpactName(i) + ")"
    case EventCaution(t, i) => "Event Caution: " + t + " (" + ImpactName(i) + ")"
  }

  /** The EVENT_RISK payload: the assessment's fields. */
  function AssessmentPayload(a: Assessment): (p: Payload)
    ensures Get(p, "status") == VStr(StatusName(a.status))
  {
    map["status" := VStr(StatusName(a.status)),
        "reason" := VStr(ReasonText(a.reason)),
        "next_high_event_time" := OptNum(a.nextHighEventTime),
        "minutes_to_event" := OptNum(a.minutesToEvent),
        "active_event_window" := VBool(a.activeEventWindow),
        "matched_event" := if a.matchedEvent.Some? then EventPayload(a.matchedEvent.value) else VNull]
  }

  /** An EVENT_RISK record reads back as STAND_DOWN exactly when the assessment was one. */
  lemma StandDownRecordedAsStandDown(a: Assessment)
    ensures Get(AssessmentPayload(a), "status") == VStr("STAND_DOWN") <==> a.status == StandDown
  {
    if a.status != StandDown {
      assert |StatusName(a.status)| != |"STAND_DOWN"|;
    }
  }

  function FetchPayload(count: nat, start: int, end: int, currencies: seq<string>): Payload {
    map["count" := VNum(count as real), "range_start" := VNum(start as real), "range_end" := VNum(end as real),
        "currencies" := VList(seq(|currencies|, i requires 0 <= i < |currencies| => VStr(currencies[i])))]
  }

  /** What an assessment says about the cached events, through the relevant ones. */
  predicate Describes(a: Assessment, cache: seq<EconomicEvent>, cs: seq<string>, now: int, cfg: GateConfig) {
    && (a.status == StandDown <==> exists e :: e in cache && e.currency in cs && SdHit(e, now, cfg))
    && (a.status == StandDown ==>
          a.matchedEvent.Some? && a.matchedEvent.value in cache && a.matchedEvent.value.currency in cs && SdHit(a.matchedEvent.value, now, cfg))
    && (a.status == Caution <==>
          (forall e :: e in cache && e.currency in cs ==> !SdHit(e, now, cfg)) &&
          exists e :: e in cache && e.currency in cs && CautionHit(e, now, cfg))
    && (a.status == Caution ==>
          a.matchedEvent.Some? && a.matchedEvent.value in cache && a.matchedEvent.value.currency in cs && CautionHit(a.matchedEvent.value, now, cfg))
    && (a.status == AllowTrading ==> a.matchedEvent == None)
    && (a.activeEventWindow <==> a.matchedEvent.Some?)
  }

  /** The calendar source: the events of the given currencies between two instants. */
  type Provider = (int, int, seq<string>) -> seq<EconomicEvent>

  /** The cached events for the currencies, in time order: what the scan reads. */
  function Candidates(cache: seq<EconomicEvent>, cs: seq<string>): seq<EconomicEvent> {
    SortByTime(Relevant(cache, cs))
  }

  /** The range `assess_risk` fetches when it finds the cache empty: from a day
      before now to a week after. */
  function LazyRange(now: int): (int, int) {
    (now - 86400, now + 7 * 86400)
  }

  /** One `assess_risk` call on a cache: its answer, the cache after it, the
      range of the calendar fetch it made, and whether it wrote its EVENT_RISK
      record. */
  datatype GateCall = GateCall(assessment: Assessment, cache: seq<EconomicEvent>, fetched: Option<(int, int)>, logged: bool)

  /** `assess_risk` as a function of the engine's state: a forced status is
      answered as is, a disabled filter allows trading, and otherwise an empty
      cache is filled first and the scan's answer is logged. */
  function Assess(cfg: GateConfig, provider: Provider, forced: Option<RiskStatus>, cache: seq<EconomicEvent>,
                  now: int, instrument: string): (g: GateCall)
    ensures forced.Some? ==>
      g == GateCall(Assessment(forced.value, Forced(forced.value), None, None, true, None), cache, None, false)
    ensures forced.None? && !cfg.enabled ==>
      g == GateCall(Assessment(AllowTrading, FilterDisabled, None, None, false, None), cache, None, false)
    ensures forced.None? && cfg.enabled ==>
      && g.logged
      && (g.fetched.Some? <==> cache == [])
      && (cache == [] ==> g.fetched == Some(LazyRange(now))
                          && g.cache == provider(LazyRange(now).0, LazyRange(now).1, CurrenciesFor(cfg, instrument)))
      && (cache != [] ==> g.cache == cache)
      && g.assessment == Scan(Candidates(g.cache, CurrenciesFor(cfg, instrument)), now, cfg)
  {
    if forced.Some? then GateCall(Assessment(forced.value, Forced(forced.value), None, None, true, None), cache, None, false)
    else if !cfg.enabled then GateCall(Assessment(AllowTrading, FilterDisabled, None, None, false, None), cache, None, false)
    else
      var cs := CurrenciesFor(cfg, instrument);
      var c := if cache == [] then provider(LazyRange(now).0, LazyRange(now).1, cs) else cache;
      GateCall(Scan(Candidates(c, cs), now, cfg), c, if cache == [] then Some(LazyRange(now)) else None, true)
  }

  /** With the filter on and no forced status, the answer describes the cache
      the call leaves behind. */
  lemma AssessDescribes(cfg: GateConfig, provider: Provider, cache: seq<EconomicEvent>, now: int, instrument: string)
    requires cfg.enabled
    ensures var g := Assess(cfg, provider, None, cache, now, instrument);
      Describes(g.assessment, g.cache, CurrenciesFor(cfg, instrument), now, cfg)
  {
    var g := Assess(cfg, provider, None, cache, now, instrument);
    ClassifiedDescribes(g.cache, CurrenciesFor(cfg, instrument), now, cfg);
  }

  /** The ledger calls of one `assess_risk`: the fetch, then the assessment. */
  function GateRecords(g: GateCall, cfg: GateConfig, instrument: string): seq<Emit> {
    FetchRecords(g, cfg, instrument) + (if g.logged then [Emit("EVENT_RISK", AssessmentPayload(g.assessment))] else [])
  }

  function FetchRecords(g: GateCall, cfg: GateConfig, instrument: string): seq<Emit> {
    if g.fetched.Some?
    then [Emit("EVENTS_FETCH", FetchPayload(|g.cache|, g.fetched.value.0, g.fetched.value.1, CurrenciesFor(cfg, instrument)))]
    else []
  }

  /** Asking again at the same instant gives the same answer and leaves the
      cache as the first call left it; only a calendar that came back empty is
      fetched again. */
  lemma ReassessAgrees(cfg: GateConfig, provider: Provider, forced: Option<RiskStatus>, cache: seq<EconomicEvent>,
                       now: int, instrument: string)
    ensures var g := Assess(cfg, provider, forced, cache, now, instrument);
      var g' := Assess(cfg, provider, forced, g.cache, now, instrument);
      && g'.assessment == g.assessment && g'.cache == g.cache && g'.logged == g.logged
      && (g'.fetched.Some? <==> g.logged && g.cache == [])
  {
  }

  /** The engine: configuration, calendar source, cached events and the forced status. */
  class EventRiskEngine {
    const cfg: GateConfig
    const provider: Provider
    const audit: AuditTrail?
    var eventsCache: seq<EconomicEvent>
    var lastFetch: Option<int>
    var forceStatus: Option<RiskStatus>

    constructor (cfg: GateConfig, provider: Provider, audit: AuditTrail?)
      ensures this.cfg == cfg && this.provider == provider && this.audit == audit
      ensures eventsCache == [] && lastFetch == None && forceStatus == None
    {
      this.cfg := cfg;
      this.provider := provider;
      this.audit := audit;
      eventsCache := [];
      lastFetch := None;
      forceStatus := None;
    }

    /** `prefetch`: replaces the cache with the calendar for the instrument's
        currencies; does nothing when the gate is disabled. */
    method Prefetch(start: int, end: int, instrument: string, clock: int)
      modifies this, audit
      ensures forceStatus == old(forceStatus)
      ensures !cfg.enabled ==> eventsCache == old(eventsCache) && lastFetch == old(lastFetch)
      ensures !cfg.enabled && audit != null ==> audit.records == old(audit.records)
      ensures cfg.enabled ==>
        eventsCache == provider(start, end, CurrenciesFor(cfg, instrument)) && lastFetch == Some(clock)
      ensures cfg.enabled && audit != null ==>
        audit.records == old(audit.records) +
          [Emit("EVENTS_FETCH", FetchPayload(|eventsCache|, start, end, CurrenciesFor(cfg, instrument)))]
    {
      if !cfg.enabled {
        return;
      }
      var currencies := CurrenciesFor(cfg, instrument);
      eventsCache := provider(start, end, currencies);
      lastFetch := Some(clock);
      if audit != null {
        audit.Log("EVENTS_FETCH", FetchPayload(|eventsCache|, start, end, currencies));
      }
    }

    /** `assess_risk`: the forced status first, then the enabled check, then the
        lazy fetch of an empty cache and the scan of the sorted relevant events,
        logged as EVENT_RISK. `clock` is the wall-clock reading a fetch is
        stamped with. */
    method AssessRisk(now: int, instrument: string, clock: int) returns (a: Assessment)
      modifies this, audit
      ensures forceStatus == old(forceStatus)
      ensures var g := Assess(cfg, provider, old(forceStatus), old(eventsCache), now, instrument);
        && a == g.assessment && eventsCache == g.cache
        && lastFetch == (if g.fetched.Some? then Some(clock) else old(lastFetch))
        && (audit != null ==> audit.records == old(audit.records) + GateRecords(g, cfg, instrument))
    {
      if forceStatus.Some? {
        return Assessment(forceStatus.value, Forced(forceStatus.value), None, None, true, None);
      }
      if !cfg.enabled {
        return Assessment(AllowTrading, FilterDisabled, None, None, false, None);
      }
      a := AssessEnabled(now, instrument, clock);
    }

    /** The enabled path of `assess_risk`, with no forced status. */
    method AssessEnabled(now: int, instrument: string, clock: int) returns (a: Assessment)
      requires forceStatus.None? && cfg.enabled
      modifies this, audit
      ensures forceStatus == old(forceStatus)
      ensures var g := Assess(cfg, provider, None, old(eventsCache), now, instrument);
        && a == g.assessment && eventsCache == g.cache
        && lastFetch == (if g.fetched.Some? then Some(clock) else old(lastFetch))
        && (audit != null ==> audit.records == old(audit.records) + GateRecords(g, cfg, instrument))
    {
      ghost var g := Assess(cfg, provider, None, eventsCache, now, instrument);
      if eventsCache == [] {
        Prefetch(now - 86400, now + 7 * 86400, instrument, clock);
      }
      assert eventsCache == g.cache;
      assert audit != null ==> audit.records == old(audit.records) + FetchRecords(g, cfg, instrument);
      var rel := Candidates(eventsCache, CurrenciesFor(cfg, instrument));
      a := Classify(rel, now, cfg);
      if audit != null {
        audit.Log("EVENT_RISK", AssessmentPayload(a));
      }
    }
  }

  /** The scan of the sorted relevant events, read over the whole cache: a
      stand-down exactly when some relevant cached event is a stand-down hit,
      a caution exactly when none is but some is a caution hit, each naming a
      matching event. */
  lemma ClassifiedDescribes(cache: seq<EconomicEvent>, cs: seq<string>, now: int, cfg: GateConfig)
    ensures Describes(Scan(Candidates(cache, cs), now, cfg), cache, cs, now, cfg)
  {
    var relevant := Relevant(cache, cs);
    var rel := SortByTime(relevant);
    forall e ensures e in rel <==> e in cache && e.currency in cs {
      assert e in rel <==> e in multiset(rel);
      assert e in relevant <==> e in multiset(relevant);
    }
    ScanDescribes(rel, cache, cs, now, cfg);
  }

  /** A scan of any sequence holding exactly the relevant cached events
      describes the cache. */
  lemma ScanDescribes(rel: seq<EconomicEvent>, cache: seq<EconomicEvent>, cs: seq<string>, now: int, cfg: GateConfig)
    requires forall e :: e in rel <==> e in cache && e.currency in cs
    ensures Describes(Scan(rel, now, cfg), cache, cs, now, cfg)
  {
    var a := Scan(rel, now, cfg);
    ScanClassifies(rel, now, cfg);
    var h := Horizon(rel, now, cfg);
    if h == |rel| {
      forall e | e in cache && e.currency in cs
        ensures !SdHit(e, now, cfg)
      {
        var j :| 0 <= j < |rel| && rel[j] == e;
      }
    } else {
      assert rel[h] in rel;
    }
    if exists e :: e in cache && e.currency in cs && CautionHit(e, now, cfg) {
      var e :| e in cache && e.currency in cs && CautionHit(e, now, cfg);
      var j :| 0 <= j < |rel| && rel[j] == e;
    }
    if a.status == Caution {
      var k :| 0 <= k < |rel| && CautionHit(rel[k], now, cfg) && a.matchedEvent == Some(rel[k]);
      assert rel[k] in rel;
    }
  }
}
