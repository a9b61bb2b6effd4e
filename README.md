# forex-agent: decision, risk and audit core in Dafny

This project models the decision, risk and audit core of forex-agent, a
paper-trading agent for EUR/USD on four-hour candles. It also proves
properties of that model. The core is made of six groups:

- **The hash-chained audit ledger and its checkers** (`audit.dfy`,
  `shadow_observation.dfy`, `observation_metrics.dfy`, `reporting.dfy`).
  - `AuditLogger` appends records. Each record carries the hash of the one
    before it.
  - The window validator of the shadow-observation analytics stops at the
    first fault and answers PASS, PARTIAL or FAIL.
  - The whole-file checker starts from genesis and reports every error.
  - The rule-violation classifier, the stand-down leak detector, the
    grace-period counter, the metrics tally, and the report's GO / NO-GO /
    REVIEW / INSUFFICIENT_DATA status.
  - SHA-256 over canonical JSON is a function field of a `Crypto` value.
    Tamper detection is proved under the explicit assumption
    `CollisionFree`.
- **The economic-event gate** `EventRiskEngine` (`events.dfy`). It sorts the
  cached calendar events of the instrument's currencies and classifies an
  instant as STAND_DOWN, CAUTION or ALLOW_TRADING, using inclusive windows
  measured in seconds.
- **Portfolio admission** (`correlation.dfy`, `risk_manager.dfy`). The
  `RiskManager` runs an ordered, short-circuiting guard chain over a
  position snapshot. The correlation groups are resolved after `/` is
  normalised to `_`.
- **Stop management** (`position_manager.py`'s break-even and trailing
  rules, in `position_manager.dfy`).
- **Signals and the decision engine** (`signals.dfy`, `decision.dfy`). The
  chain is gate → news → signals → volatility filter → direction, with a
  stop two ATRs and a target three ATRs from the close.
- **Paper execution and the sequencers** (`execution.dfy`, `backtest.dfy`,
  `live.dfy`, `baselines.dfy`).
  - The positions store.
  - The backtest bar loop.
  - The live `job_tick`.
  - The two baseline strategies.

Shared pieces:

- `common.dfy` holds the JSON values, the proposal and direction types, and
  `AuditTrail`. `AuditTrail` is the global ledger as the components see it:
  each `log_audit_event` call appends one (event type, payload) record to it.
- Prices and risk percentages are `real`, and times are `int` seconds.
- Stateful objects are classes whose methods are proved against
  specification functions. Those functions carry the lemmas.

Some behaviour is modelled as the code has it, even where it surprises:

- A writer chains from its cached `last_hash`. The file tail is not re-read
  under the lock (see Findings).
- The backtest runs stop management before the same bar's stop/target check.
- The backtest's next-bar re-check calls the event engine without a None
  guard. With the event filter off, the run raises on the first approved
  proposal that has a next bar (`Backtest.CrashEndsRun`).
- The live tick's stand-down gate returns before any exit management.
- Every proposal carries the symbol `EURUSD`.
- The backtest's `RiskManager` is never synced, so it always sees an empty
  snapshot.
- Two branches of `is_rule_violation` never fire on records this code
  writes (`ShadowObservation.EmittedRecordsNeverFlagged`):
  - the risk manager writes `RISK_REJECTED`, not `RISK_MANAGER_DECISION`;
  - the health monitor's duplicate note is under `notes`, not `message`.

Three scenario scripts are restated as lemmas. Two of their expectations do
not match what the code does:

- `verify_risk.py` Test 4 expects a rejection at the 5% total cap. The
  snapshot then holds three positions, so the rejection comes from the
  position count first (`RiskManagement.ThirdPositionStopsAtCount`).
- `verify_position_mgmt.py` expects the stop at break-even (1.1000) after
  its first tick. The script enters through `_execute_entry` on
  `candles[200]`, so the fill is 1.10028, not 1.1000. The first tick, on
  `candles[201]`, closes 37.2 pips up. It moves the stop to break-even and
  then trails it to 1.1020. That bar's low of 1.1020 reaches the new stop,
  so the trade exits at 1.1020 on the first tick, for a profit of 17.2
  (`Backtest.ScriptedEntryTrailsToExit`). The script's break-even check is
  therefore skipped, since no trade is open any more. The trailing exit at
  1.1020 that its second check looks for is booked one tick early.
  `Backtest.TrailedStopHitSameBar` shows the same bar for a trade entered
  at exactly 1.1000 with its stop already at break-even: the exit is again
  at 1.1020, for a profit of 20.

## Model

| member | source | states |
|---|---|---|
| Audit.Seal | src/core/audit.py:70-80 | a new record carries the given head as `prev_hash`, and its stored hash is the digest of the record without the hash field |
| Audit.DigestDistinguishes | src/core/audit.py:78-80 | under collision-freedom, two different unsigned records get different digests (the assumption every tamper-detection result rests on) |
| Audit.ChainedAppend | src/core/audit.py:70-89 | appending a sealed record whose `prev_hash` is the chain head keeps the ledger a chain, and the head becomes the new record's hash |
| Audit.ChainedEndsSealed | src/core/audit.py:57-58 | the last line of a non-empty chain is a parsed record that has a hash |
| Audit.ChainedLinks | src/core/audit.py:70-89 | in a chain every record is sealed, the first points at the start hash, and each later one points at the stored hash of the record before it |
| Audit.LinksChained | src/core/audit.py:70-89 | the converse: sealed records linked that way form a chain |
| Audit.GetLastHash | src/core/audit.py:40-60 | the initial head is 64 zeros for a missing or empty file or an unusable last line, otherwise the last record's hash |
| Audit.TailIsChainHead | src/core/audit.py:40-60 | on a ledger chained from genesis, the tail read gives the chain head |
| Audit.AuditLogger.constructor | src/core/audit.py:21-38 | reads the tail once and appends exactly one AUDIT_FILE_OPENED record chained from it; on a chained file the writer's head then agrees with the file |
| Audit.AuditLogger.LogEvent | src/core/audit.py:62-89 | the new record chains from the cached head and is appended after the existing lines, which stay as they were; the head becomes its hash; a lock timeout writes nothing and keeps the head; a sole writer keeps the file a chain |
| Audit.AuditLogger.LogEventLocked | src/core/audit.py:62-89 | corrected append: the head is re-read from the tail under the lock, so a chained file stays chained whoever else appended |
| Audit.TwoWritersBreakChain | src/core/audit.py:75-89 | two writers opened on one new file, with the first appending afterwards: the three-line file is not a chain |
| Audit.TwoWritersLocked | src/core/audit.py:75-89 | the same interleaving with the corrected append leaves a chain |
| Common.AuditTrail.Log | src/core/audit.py:94-95 | `log_audit_event` appends exactly one record with the given type and payload |
| Common.NatTextReadsBack | src/modules/risk/manager.py:52 | the decimal text of a count is all digits and reads back as that count |
| ShadowObservation.ValidateAuditWindow | src/ui/analytics/shadow_observation.py:8-51 | an empty window is PASS with no errors; FAIL iff some record is faulty, with exactly the one error of the first faulty record; PARTIAL iff no record is faulty and the first `prev_hash` is not genesis; no errors unless FAIL |
| ShadowObservation.WindowOfChainValidates | src/ui/analytics/shadow_observation.py:19-51 | any contiguous run of a chained ledger has no faulty record, and a run from the start of a genesis chain points at genesis, so it is PASS |
| ShadowObservation.TamperedRecordFaults | src/ui/analytics/shadow_observation.py:28-47 | under collision-freedom, a record edited after sealing that keeps its stored hash is faulty, so the window is FAIL |
| ShadowObservation.CleanValidation | src/ui/analytics/shadow_observation.py:19-51 | a non-empty window with no faulty record has no errors, and is PASS iff its first `prev_hash` is genesis and PARTIAL otherwise |
| ShadowObservation.RuleViolation | src/ui/analytics/shadow_observation.py:53-74 | each violation code holds iff its branch's condition holds and no earlier branch fired: a stand-down leak takes precedence over a missing stop, cap reasons over correlation reasons |
| ShadowObservation.EmittedRecordsNeverFlagged | src/ui/analytics/shadow_observation.py:61-72 | RISK_REJECTED and RISK_APPROVED records are never violations, nor a DATA_HEALTH record without `message` |
| ShadowObservation.LeakIndicesExact | src/ui/analytics/shadow_observation.py:80-89 | the leak indices are exactly the TRADE_EXECUTED / EXECUTION_FILL records whose latest EVENT_RISK status before them is STAND_DOWN, in increasing order |
| ShadowObservation.DetectEventGateLeaks | src/ui/analytics/shadow_observation.py:76-89 | returns exactly the leaking records, in input order |
| ShadowObservation.CountRuleViolations | src/ui/analytics/shadow_observation.py:91-117 | an empty window gives 0 and no details; otherwise the details are the violations of records at or after the grace cutoff, and the count is their number |
| ShadowObservation.ViolationsSound | src/ui/analytics/shadow_observation.py:104-116 | every counted violation comes from a record at or after the cutoff, classified with the status in force there |
| ShadowObservation.ViolationsAntitone | src/ui/analytics/shadow_observation.py:101-116 | a later cutoff never counts more violations |
| ShadowObservation.LongerGraceCountsNoMore | src/ui/analytics/shadow_observation.py:101-116 | a larger grace period never increases the count |
| ShadowObservation.TallyWindow | src/ui/analytics/shadow_observation.py:190-212 | each counter equals the number of window records of its kind; risk_max and the risk total are the maximum and sum over trades; sd_entries counts trades made under STAND_DOWN |
| ShadowObservation.SdEntriesAtMostTrades | src/ui/analytics/shadow_observation.py:200-206 | sd_entries never exceeds trade_count |
| ShadowObservation.ExitKindsDisjoint | src/ui/analytics/shadow_observation.py:207-210 | a close is counted as break-even or as trailing, never both, so the two counts never exceed the closes |
| ShadowObservation.MaxRiskBounds | src/ui/analytics/shadow_observation.py:200-204 | risk_max is non-negative and at least the risk of every trade |
| ShadowObservation.InWindow | src/ui/analytics/shadow_observation.py:172 | the window holds exactly the records with `start <= dt <= end` |
| ShadowObservation.WindowStart | src/ui/analytics/shadow_observation.py:123-126 | the window starts at the given start, else `days or 28` days before now |
| ShadowObservation.WindowMetrics | src/ui/analytics/shadow_observation.py:176-219 | on a non-empty window: the integrity status and errors are those of `validate_audit_window` on it (PASS, PARTIAL or FAIL as it decides); a FAIL adds exactly one AUDIT_HASH_MISMATCH before the rule violations; the violation count is the number of details; every counter, average and ratio is that of the window |
| ShadowObservation.CleanWindowIntegrity | src/ui/analytics/shadow_observation.py:176-187 | metrics of a window with no faulty record and no rule violation have no violations and no integrity errors, and are PASS iff the window starts at the genesis link, PARTIAL otherwise |
| ShadowObservation.ComputeShadowMetrics | src/ui/analytics/shadow_observation.py:119-219 | the window bounds, the empty-metrics results for a missing ledger or an empty window, and the window's metrics otherwise |
| Reporting.AsUtc | src/ui/analytics/reporting.py:17-20 | naive bounds are taken as UTC, and aware ones are kept |
| Reporting.GracePeriod | src/ui/analytics/reporting.py:22 | strict mode uses no grace, and non-strict mode uses 30 minutes |
| Reporting.Status | src/ui/analytics/reporting.py:27-33 | NO-GO iff violations or FAIL; REVIEW iff neither and PARTIAL; INSUFFICIENT_DATA iff PASS with fewer than 10 ticks; GO otherwise |
| Reporting.GenerateShadowReport | src/ui/analytics/reporting.py:12-46 | the header echoes the UTC bounds, and the status is `Status` of the metrics computed over those bounds with the mode's grace |
| Reporting.FailedWindowIsNoGo | src/ui/analytics/reporting.py:27-29 | a window with a faulty record has violations and is NO-GO whatever its tick count |
| Reporting.UnrootedCleanWindowIsReview | src/ui/analytics/reporting.py:27-31 | a clean window that does not start at the genesis link is PARTIAL with no errors, so the report says REVIEW |
| Reporting.RootedCleanWindowIsGo | src/ui/analytics/reporting.py:27-33 | a clean window from the genesis link with at least 10 ticks is PASS with no errors, so the report says GO |
| Reporting.RootedCleanWindowTooShort | src/ui/analytics/reporting.py:27-33 | the same window with fewer than 10 ticks is PASS, so the report says INSUFFICIENT_DATA |
| Reporting.StrictCountsAtLeastLenient | src/ui/analytics/reporting.py:22-24 | strict mode counts at least as many violations as non-strict mode |
| ObservationMetrics.VerifyAuditHashChain | test_observation_metrics.py:7-39 | a missing file gives false with "File not found"; otherwise the errors are those of every line from genesis, and the result is valid iff there are none |
| ObservationMetrics.ScanLines | test_observation_metrics.py:15-38 | the loop collects the errors of every line without stopping, and valid iff none |
| ObservationMetrics.CheckLine | test_observation_metrics.py:17-37 | one line's errors: an unparsable line gives a JSON error; a parsed one gives a link error if its `prev_hash` is not the expected one, then a JSON error without `hash` or a mismatch when the digest differs; the expected hash advances to the stored hash, tampered or not, and stays put without one |
| ObservationMetrics.LineErrorsIffNotOk | test_observation_metrics.py:19-37 | a line has no errors iff it is parsed, sealed and links to the expected hash |
| ObservationMetrics.NoErrorsIffLinesOk | test_observation_metrics.py:11-39 | no errors iff every line checks |
| ObservationMetrics.VerifiedIffChained | test_observation_metrics.py:7-39 | a file verifies iff it is a chain from genesis, so a first record not pointing at genesis is invalid |
| ObservationMetrics.TamperReportsOneMismatch | test_observation_metrics.py:24-34 | editing one record of a genesis chain while keeping its hash and link gives exactly one error, the hash mismatch at that line |
| ObservationMetrics.SameHashesSameExpected | test_observation_metrics.py:26-34 | the expected `prev_hash` depends only on the stored hashes before it, even after a mismatch |
| ObservationMetrics.TamperedErrors | test_observation_metrics.py:15-38 | with only line k's body changed, the errors up to n are the single mismatch at k when k < n, and none otherwise |
| ObservationMetrics.TamperedLineErrors | test_observation_metrics.py:19-34 | line by line: only the tampered line reports, and it reports one mismatch |
| ObservationMetrics.MaxTs | test_observation_metrics.py:89 | last_tick is the greatest timestamp of the observed rows |
| ObservationMetrics.Since | test_observation_metrics.py:84 | the observed rows are exactly those at or after the cutoff |
| ObservationMetrics.TallyRows | test_observation_metrics.py:98-129 | the counters are those of the rows; the violations add stand-down entries, missing stops, `risk_pct > 0.05` trades and duplicates |
| ObservationMetrics.SeenKeysExact | test_observation_metrics.py:123-129 | the processed-candle set holds exactly the keys of the SIGNALS_GENERATED rows seen |
| ObservationMetrics.DuplicatesAreRepeatedCandles | test_observation_metrics.py:123-129 | duplicates plus distinct candle keys equal the number of SIGNALS_GENERATED rows |
| ObservationMetrics.SignalRowStep | test_observation_metrics.py:123-129 | each signal row adds one to duplicates or one distinct key |
| ObservationMetrics.GetObservationMetrics | test_observation_metrics.py:41-149 | a missing file gives the defaults; comparing timestamps that carry an offset with the naive cutoff raises, exactly when some row was parsed and some row's timestamp has an offset; otherwise the chain flag is whether the file is a genesis chain, an empty observation keeps the other defaults, and a non-empty one gives the last tick and the tally |
| ObservationMetrics.WrittenLedgerRaises | test_observation_metrics.py:82-84 | on a ledger whose records all carry an offset, as the audit writer's ISO timestamps do, with at least one parsed record, the cutoff comparison raises |
| Events.CurrenciesFor | src/modules/events/engine.py:62 | an unconfigured instrument is exposed to USD and EUR |
| Events.Relevant | src/modules/events/engine.py:81 | the relevant events are exactly the cached ones in the instrument's currencies |
| Events.SortByTime | src/modules/events/engine.py:81 | the relevant events sorted by time, as a permutation |
| Events.Horizon | src/modules/events/engine.py:83-94 | the scan stops at the first stand-down hit, and no event before it is one |
| Events.MinUpcomingIsMinimum | src/modules/events/engine.py:96-98 | the next high time exists iff a strictly future stand-down-impact event is scanned, and it is the earliest such |
| Events.LastCautionIsLast | src/modules/events/engine.py:100-105 | the caution match is the last scanned caution hit |
| Events.Classify | src/modules/events/engine.py:74-114 | STAND_DOWN iff the scan meets a stand-down hit, which is matched; CAUTION iff none but some caution hit, matching the last; ALLOW_TRADING with no match; active window iff a match; next high time and minutes as scanned |
| Events.ScanClassifies | src/modules/events/engine.py:74-114 | the scan's answer: STAND_DOWN iff it meets a stand-down hit, naming it; CAUTION iff none and some caution hit, naming the last one; ALLOW_TRADING with no match and the default reason; the next high time is the earliest upcoming stand-down-impact time before the stop, with its minutes |
| Events.ThirtyMinutesBeforeHighStandsDown | src/modules/events/engine.py:85-94 | under the default windows, a HIGH event thirty minutes ahead stops the scan at or before it, so `Classify` answers STAND_DOWN |
| Events.OtherCurrenciesIgnored | src/modules/events/engine.py:81 | inserting events in other currencies anywhere changes nothing |
| Events.AssessmentPayload | src/modules/events/engine.py:116-120 | the EVENT_RISK payload's status is the assessment's status name |
| Events.StandDownRecordedAsStandDown | src/modules/events/engine.py:116-120 | the record says STAND_DOWN iff the assessment is STAND_DOWN |
| Events.EventRiskEngine.constructor | src/modules/events/engine.py:13-26 | empty cache, no fetch and no forced status |
| Events.EventRiskEngine.Prefetch | src/modules/events/engine.py:28-45 | disabled: no change; enabled: the cache is replaced wholesale by the calendar for the instrument's currencies, and one EVENTS_FETCH is logged |
| Events.EventRiskEngine.AssessRisk | src/modules/events/engine.py:47-122 | a forced status is returned first with an active window; disabled gives ALLOW_TRADING; otherwise an empty cache is prefetched for [now − 1 day, now + 7 days], the assessment describes the relevant cached events, and EVENT_RISK is logged |
| Events.EventRiskEngine.AssessEnabled | src/modules/events/engine.py:58-122 | with the filter on and nothing forced, the answer and the cache are those of `Assess`; a fetch stamps the clock; the ledger gets the fetch record, if any, then EVENT_RISK |
| Events.Assess | src/modules/events/engine.py:47-122 | a forced status is answered with an active window and nothing logged; a disabled filter allows trading and logs nothing; otherwise exactly an empty cache is fetched over [now − 1 day, now + 7 days], a non-empty one is kept, and the answer is the scan of the sorted relevant events, logged |
| Events.AssessDescribes | src/modules/events/engine.py:58-113 | with the filter on and nothing forced, the answer describes the cache the call leaves: STAND_DOWN iff some relevant cached event is in its stand-down window, CAUTION iff none is but some is in its caution window, each naming such an event |
| Events.ReassessAgrees | src/modules/events/engine.py:47-122 | asking again at the same instant gives the same answer and cache; only an empty calendar is fetched again |
| Events.ClassifiedDescribes | src/modules/events/engine.py:81-113 | the scan's result over the sorted relevant events describes the cache |
| Events.ScanDescribes | src/modules/events/engine.py:81-113 | a scan over any sequence holding exactly the relevant cached events describes the cache |
| Correlation.NormalizeChars | src/modules/risk/correlation.py:15 | every `/` becomes `_`, and every other character is kept |
| Correlation.NormalizeIdempotent | src/modules/risk/correlation.py:15 | normalising twice is normalising once |
| Correlation.NormalizeAll | src/modules/risk/correlation.py:18 | the members are normalised one by one |
| Correlation.GroupsForPair | src/modules/risk/correlation.py:10-20 | a group is listed iff its normalised members contain the normalised pair |
| Correlation.GroupsInConfigOrder | src/modules/risk/correlation.py:16-20 | the listed groups are the matching groups at strictly increasing configuration positions, all of them |
| Correlation.GroupsListedOnce | src/modules/risk/correlation.py:16-20 | with distinct group names, each group is listed once |
| Correlation.GroupsIgnoreSeparator | src/modules/risk/correlation.py:15-19 | a pair and its normalised form get the same groups |
| Correlation.Members | src/modules/risk/correlation.py:30 | the members of the named group, none for an unknown name |
| Correlation.CorrelatedPairs | src/modules/risk/correlation.py:22-35 | never contains the normalised queried pair |
| Correlation.CorrelatedPairsShareGroup | src/modules/risk/correlation.py:27-31 | every correlated pair shares a group with the query |
| Correlation.SharedGroupIsCorrelatedPair | src/modules/risk/correlation.py:22-35 | conversely, every other pair sharing a group is returned, normalised |
| Correlation.CorrelatedIffShareGroup | src/modules/risk/correlation.py:37-45 | `is_correlated` is symmetric and holds iff some group contains both pairs |
| Correlation.UngroupedPairIsolated | src/modules/risk/correlation.py:37-45 | a pair in no group is not correlated even with itself and has no correlated pairs |
| Correlation.SlashAndUnderscoreAgree | src/modules/risk/correlation.py:13-15 | `EUR/USD` and `EUR_USD` get identical groups and correlated pairs |
| RiskManagement.DefaultRiskConfig | src/modules/risk/manager.py:11-25 | the defaults: 1% per trade, 3 positions, 2% daily loss cap, 5% total, 3% correlated, balance 10000 |
| RiskManagement.ProposedRisk | src/modules/risk/manager.py:62 | the suggested risk, falling back to the per-trade maximum when it is zero |
| RiskManagement.FirstBreach | src/modules/risk/manager.py:69-77 | the first group, in order, whose risk plus the proposal exceeds the correlated cap; none iff no group does |
| RiskManagement.FirstBreachIsFirst | src/modules/risk/manager.py:69-77 | a reported breach names a group at some position of the list, breached with the reported total, and no earlier listed group is breached |
| RiskManagement.Verdict | src/modules/risk/manager.py:35-81 | each rejection holds iff its guard fails and every earlier guard passed (stop, entry, count, daily loss, total cap, group cap, with their thresholds); approval iff every guard passes; the count rejection carries the configured limit |
| RiskManagement.VerdictTotalCap | src/modules/risk/manager.py:60-66 | past the first four guards, the total-cap rejection holds iff the open risk plus the proposed risk is over the cap, and reports that total |
| RiskManagement.VerdictGroupCap | src/modules/risk/manager.py:68-81 | past the total cap, a rejection holds iff some group of the symbol is breached, and then it is the correlated-cap rejection naming the first breached group in list order with its total |
| RiskManagement.DecisionRecord | src/modules/risk/manager.py:79-96 | one RISK_APPROVED record exactly on approval and one RISK_REJECTED record exactly on a rejection, with the proposal id and symbol, plus the rejection's reason text on a rejection only |
| RiskManagement.MaxPositionsReasonNamesLimit | src/modules/risk/manager.py:51-53 | the count rejection's text is "Max positions reached (", the configured limit in decimal digits that read back as it, then ")" |
| RiskManagement.PositionSize | src/modules/risk/manager.py:83-92 | balance × risk / abs(entry − stop), and 0 when the distance is zero |
| RiskManagement.RiskManager.constructor | src/modules/risk/manager.py:11-25 | empty snapshot and zero daily P&L |
| RiskManagement.RiskManager.SyncPositions | src/modules/risk/manager.py:27-33 | the snapshot is replaced entirely |
| RiskManagement.RiskManager.CheckTrade | src/modules/risk/manager.py:35-81 | approves iff the verdict approves, and logs exactly its one decision record |
| RiskManagement.RiskManager.CalculatePositionSize | src/modules/risk/manager.py:83-92 | the size is `PositionSize` under the manager's settings |
| RiskManagement.StopLossCheckedFirst | src/modules/risk/manager.py:42-44 | a missing or non-positive stop is rejected whatever the snapshot and the P&L |
| RiskManagement.LessRiskStaysApproved | src/modules/risk/manager.py:61-78 | an approved proposal stays approved with any smaller positive risk |
| RiskManagement.SameSymbolGroupRisk | src/modules/risk/manager.py:72-73 | when every position is in one member symbol, the group risk is the total risk |
| RiskManagement.BreachedGroupRejects | src/modules/risk/manager.py:69-77 | past the earlier guards, a breached group of the symbol rejects with the correlated cap |
| RiskManagement.EurUsdGroupBreached | src/modules/risk/manager.py:69-77 | a group holding EUR_USD carries both open 1% EUR_USD positions and is breached by 2% more |
| RiskManagement.CorrelatedScenarioRejected | verify_risk.py:18-45 | two 1% EUR_USD positions and a 2% EUR_USD proposal are rejected at the correlated cap |
| RiskManagement.UnmappedScenarioApproved | verify_risk.py:47-64 | an unmapped 1% AUD_NZD proposal is approved on that snapshot |
| RiskManagement.ThirdPositionStopsAtCount | verify_risk.py:66-87 | the 3% GBP_JPY proposal over three positions is rejected by the position count |
| RiskManagement.TotalCapScenarioRejected | src/modules/risk/manager.py:61-66 | 3% open plus 3% proposed is rejected at the 5% total cap, reporting 6% |
| PositionManagement.DefaultManagement | src/modules/risk/position_manager.py:34-46 | the default activations of 20 and 30 pips and the trailing distance of 20 pips |
| PositionManagement.EntryOf | src/modules/risk/position_manager.py:22 | the entry is `fill_price`, else `entry_price` |
| PositionManagement.StopOf | src/modules/risk/position_manager.py:23 | the stop is `stop_loss`, else `sl` |
| PositionManagement.Multiplier | src/modules/risk/position_manager.py:26 | 100 iff the symbol contains JPY, else 10000 |
| PositionManagement.ProfitPips | src/modules/risk/position_manager.py:28-31 | the profit is non-negative iff the price moved the position's way |
| PositionManagement.EvaluatePosition | src/modules/risk/position_manager.py:14-63 | break-even gives exactly the entry when it fires; trailing gives the candidate and overrides break-even; any stop is strictly better than the current one; None iff no rule fired |
| PositionManagement.NonPositiveCandidateDiscarded | src/modules/risk/position_manager.py:49-63 | a non-positive trailing candidate never fires, so the result is None or break-even |
| PositionManagement.UpdateIsSettled | src/modules/risk/position_manager.py:14-63 | when the trailing activation is at least the trailing distance, applying a returned non-zero stop and evaluating again at the same price returns None |
| PositionManagement.ProfitCoversTrail | src/modules/risk/position_manager.py:44-57 | once trailing activates, its candidate is at or beyond the entry |
| PositionManagement.BreakEvenAt1_1025 | verify_position_mgmt.py:58-66 | the long from 1.1000 with its stop at 1.0950 moves the stop to 1.1000 at 1.1025 |
| PositionManagement.TrailAt1_1040 | verify_position_mgmt.py:68-76 | with its stop at 1.1000 the same long trails to 1.1020 at 1.1040 |
| Signals.Trend | src/modules/signals/generators.py:8-23 | BUY iff SMA50 > SMA200 and close > SMA50, SELL mirrored, at 0.8; HOLD at 0.0 otherwise and on missing data; confidence in [0, 1] |
| Signals.Momentum | src/modules/signals/generators.py:25-37 | BUY iff RSI < 30, SELL iff RSI > 70, at 0.7; HOLD at 0.5 from 30 to 70 inclusive; HOLD at 0.0 on missing data |
| Signals.Volatility | src/modules/signals/generators.py:39-48 | always HOLD; "High Volatility Regime" at 0.0 iff the regime is VOLATILE, 1.0 for another regime, and 0.0 on missing data |
| Signals.SignalsReadLastRow | src/modules/signals/generators.py:13-44 | every signal depends only on the last row |
| Decision.SignalsRecord | src/modules/decision/engine.py:43-47 | the SIGNALS_GENERATED record holds the three signals |
| Decision.Analyze | src/modules/decision/engine.py:22-101 | empty data gives NO_TRADE; a gate STAND_DOWN or the news gate gives STAND_DOWN with nothing logged; past them one SIGNALS_GENERATED is logged; high volatility gives NO_TRADE; TRADE iff trend and momentum agree, iff a proposal, with the EURUSD symbol, trend confidence, close entry, 2×ATR stop and 3×ATR target |
| Decision.ProposalBracketsEntry | src/modules/decision/engine.py:61-99 | with a positive ATR the stop is on the losing side and the target on the winning side, at 1.5 times the stop distance |
| Decision.ProposalFollowsIndicators | src/modules/decision/engine.py:61-99 | every proposal is at confidence 0.8 and follows the last row's SMAs, with an RSI that does not oppose it |
| Decision.GateStandDownIsSilent | src/modules/decision/engine.py:27-31 | an event-gate STAND_DOWN wins over any data: no signals, no record and no proposal |
| Execution.Positions | src/modules/execution/engine.py:75-85 | a missing or unreadable store reads as no positions |
| Execution.FirstMatch | src/modules/execution/engine.py:91-97 | the first record whose id matches, none iff no record matches |
| Execution.Without | src/modules/execution/engine.py:111 | keeps exactly the records whose id differs, and is shorter iff some record matched |
| Execution.FillPrice | src/modules/execution/engine.py:45-52 | BUY at entry + spread/2 + 2 bps, SELL at entry − spread/2 − 2 bps |
| Execution.ExecutionRecord | src/modules/execution/engine.py:55-67 | the record carries the id, the proposal's symbol, side, stop, target and risk, the fill, and size 0.1 |
| Execution.ExecutionEngine.OpenPositions | src/modules/execution/engine.py:75-85 | the positions of the store |
| Execution.ExecutionEngine.ExecuteTrade | src/modules/execution/engine.py:20-73 | STAND_DOWN refuses first with EVENT_GATE_LEAK_PREVENTED, then a non-positive stop refuses; both leave the store unchanged; otherwise exactly one record is appended and TRADE_EXECUTED logged |
| Execution.ExecutionEngine.UpdatePosition | src/modules/execution/engine.py:87-103 | only the first matching record takes the updates; no match leaves the store unwritten and returns false |
| Execution.ExecutionEngine.ClosePosition | src/modules/execution/engine.py:105-118 | removes every matching record, keeping the rest in order, and logs TRADE_CLOSED, iff something matched |
| Execution.FillIsAdverse | src/modules/execution/engine.py:49-52 | a long fills at or above the entry and a short at or below it |
| Execution.CloseIsFinal | src/modules/execution/engine.py:105-118 | closing twice removes nothing more, and a closed id is no longer found |
| Execution.UpdateTouchesOnlyFirstMatch | src/modules/execution/engine.py:91-97 | every other record is unchanged, and the updated record keeps its fields the updates do not name |
| Backtest.BacktestClock.constructor | src/backtest/run_backtest.py:23-25 | the clock starts at index 0 |
| Backtest.BacktestClock.HasNext | src/backtest/run_backtest.py:33-34 | holds iff index < len − 1 |
| Backtest.BacktestClock.CurrentCandle | src/backtest/run_backtest.py:27-31 | the candle at the index |
| Backtest.BacktestClock.Tick | src/backtest/run_backtest.py:36-37 | the index grows by one and stays in range when there was a next candle |
| Backtest.Configure | src/backtest/run_backtest.py:69-80 | the run settings as given, with the decision engine wired to the event gate when it is on |
| Backtest.View | src/backtest/run_backtest.py:212-215 | stop management reads the trade's `entry_price` and `sl` |
| Backtest.GateEventsRecorded | src/modules/events/engine.py:39-45 | the run-ledger records of one gate call are exactly the event engine's own EVENTS_FETCH and EVENT_RISK calls |
| Backtest.AdvanceFresh | src/backtest/run_backtest.py:94-106 | one loop iteration from a fresh outcome: the tick's logs and crash flag, and the tick's state with one equity point of the bar's timestamp and equity appended unless it raised |
| Backtest.RunUpToNext | src/backtest/run_backtest.py:94-106 | one more iteration of a run that has not raised appends that iteration's logs to the run's and continues from its state |
| Backtest.AdvanceAppends | src/backtest/run_backtest.py:94-106 | processing a bar after a run that has not raised extends its logs |
| Backtest.RunEnd | src/backtest/run_backtest.py:92-94 | the loop bounds: from the lookback up to the number of candles |
| Backtest.BacktestRunner.constructor | src/backtest/run_backtest.py:40-80 | the initial balance as equity, no trade, no closed trades, no history, an unsynced risk manager, and a fresh run ledger whose one record is AUDIT_FILE_OPENED; the event engine writes to that ledger |
| Backtest.BacktestRunner.Write | src/backtest/run_backtest.py:47-48 | one run event appended to the run's own ledger, as its audit record |
| Backtest.BacktestRunner.AssessGate | src/backtest/run_backtest.py:127-128 | the run engine's `assess_risk`: the answer, the engine's new cache and the records it writes to the run ledger are those of `GateAt` |
| Backtest.BacktestRunner.StartRun | src/backtest/run_backtest.py:86-89 | the prefetch over the candles' span, as `RunStart`: the cache, the run-ledger records and the raise on an empty candle list |
| Backtest.BacktestRunner.DecideEntry | src/backtest/run_backtest.py:137-157 | the decision engine's analysis, which consults the run's engine, then the risk check and the entry, as `Decide` |
| Backtest.BacktestRunner.ExecuteEntry | src/backtest/run_backtest.py:183-210 | opens the trade at the bar's adverse fill with the proposal's stop and target, and logs BACKTEST_ENTRY |
| Backtest.BacktestRunner.ManageExit | src/backtest/run_backtest.py:212-272 | the state and run log of the exit phase: the stop update, then the exit, which books the profit |
| Backtest.BacktestRunner.AdmitAnalysis | src/backtest/run_backtest.py:137-157 | the risk check and the next-bar entry, re-gated, as `Admit` |
| Backtest.BacktestRunner.ConsiderEntry | src/backtest/run_backtest.py:122-157 | the gate and entry half, as `EntryPhase`: its state, crash flag, run-ledger records and global-ledger records |
| Backtest.BacktestRunner.ProcessTick | src/backtest/run_backtest.py:108-157 | the new state and logs are those of the tick step |
| Backtest.BacktestRunner.Bar | src/backtest/run_backtest.py:95-106 | one loop iteration: the tick, then one equity point |
| Backtest.BacktestRunner.Bars | src/backtest/run_backtest.py:91-106 | the loop from the lookback to the end, or to the first bar that raises, as `RunUpTo` |
| Backtest.BacktestRunner.Run | src/backtest/run_backtest.py:82-106 | the prefetch and then the bars from the lookback on, as `RunAll`: the new state, the crash flag and both ledgers' new records |
| Backtest.CrashEndsRun | src/backtest/run_backtest.py:141-145 | once a bar has raised, later bars change nothing |
| Backtest.FillIsAdverse | src/backtest/run_backtest.py:183-191 | BUY fills at or above the open and SELL at or below it, by the same amount |
| Backtest.ManagedOnlyTightens | src/backtest/run_backtest.py:212-222 | stop management sees the trade's symbol and side and only moves the stop the trade's way |
| Backtest.ExitRules | src/backtest/run_backtest.py:224-246 | exit at the stop iff it is hit and non-zero; exit at the target iff the stop is not hit and the target is, at the target price; no exit iff a zero stop is hit or neither is |
| Backtest.PnlSign | src/backtest/run_backtest.py:248-253 | a trade gains iff the exit moved its way, and an exit at the entry gains nothing |
| Backtest.TickKeepsBooks | src/backtest/run_backtest.py:248-272 | one bar keeps equity = initial balance + booked profit, and appends at most one closed trade |
| Backtest.EntryKeepsBooks | src/backtest/run_backtest.py:122-157 | the entry half never touches equity or closed trades |
| Backtest.StepKeepsBooks | src/backtest/run_backtest.py:248-272 | the same for a step that is the tick |
| Backtest.RunKeepsBooks | src/backtest/run_backtest.py:82-106 | a whole run keeps the books balanced and only appends closed trades |
| Backtest.RunRecordsEquity | src/backtest/run_backtest.py:94-106 | until something raises, one equity point per processed bar, with that bar's timestamp |
| Backtest.LastPointIsEquity | src/backtest/run_backtest.py:102-106 | the last equity point of a run that did not raise holds its equity |
| Backtest.StepKeepsHistory | src/backtest/run_backtest.py:108-157 | a tick never touches the equity history |
| Backtest.EntryRule | src/backtest/run_backtest.py:122-157 | with no trade open, a trade opens iff the bar is not gated, the analysis is TRADE, the risk check approves and the next bar exists and is not gated; the tick raises iff the filter is off and an approved proposal has a next bar |
| Backtest.EntryOpensProposal | src/backtest/run_backtest.py:126-155 | an allowed entry opens the proposal at the next bar's open with its stop and target; the last run record is BACKTEST_ENTRY and every record before it is the event engine's fetch or a non-STAND_DOWN assessment |
| Backtest.StandDownBlocksDecision | src/backtest/run_backtest.py:126-135 | a STAND_DOWN at the bar, with no trade open, writes the engine's records, ending with that assessment, then EVENT_STAND_DOWN_BLOCK, and returns before the decision engine, with nothing in the global ledger |
| Backtest.TickStandsDown | src/backtest/run_backtest.py:126-135 | the tick at a STAND_DOWN with no trade open: the gate's state and records, then the block record, and no raise |
| Backtest.TickEnters | src/backtest/run_backtest.py:123-137 | with the filter on and no trade open, a bar that does not stand down goes on to the decision after the gate's records |
| Backtest.DecisionRepeatsBarGate | src/modules/decision/engine.py:27-31 | the decision engine's own gate call at the bar sees the bar gate's assessment, keeps the engine's cache and writes only a refetch or that assessment |
| Backtest.DecideAfterGate | src/backtest/run_backtest.py:137-155 | after a gate that does not stand down, the decision writes only quiet records and then proceeds to the risk check and the entry |
| Backtest.GateQuiet | src/modules/events/engine.py:39-45 | a gate call that does not stand down writes only its fetch record and a non-STAND_DOWN assessment |
| Backtest.AdmitEnters | src/backtest/run_backtest.py:139-155 | an approved proposal whose next bar does not stand down is entered there, at the proposal's stop and target, after the next bar's gate records, without raising |
| Backtest.OpenTradeSkipsDecision | src/backtest/run_backtest.py:117-123 | while a trade stays open through its bar, nothing is analysed |
| Backtest.TrailedStopHitSameBar | verify_position_mgmt.py:68-76 | a long entered at 1.1000 with its stop at break-even, on the bar closing at 1.1040: the stop trails to 1.1020, the bar's low reaches it, and the trade exits at 1.1020 for a profit of 20 |
| Backtest.ScriptedEntryTrailsToExit | verify_position_mgmt.py:44-66 | entered through the runner on `candles[200]`, the long fills at 1.10028 with its stop at 1.0950; on `candles[201]` the stop trails to 1.1020 and the trade exits there, for a profit of 17.2 |
| Live.ActionFor | src/main.py:67-92 | raises iff the record is not readable as the engine writes it (string id, symbol, direction, numeric stop, optional numeric target), or neither the stop nor the target is reached and `evaluate_position` has no entry, or has no stop and reaches a comparison with it |
| Live.ViewOf | src/main.py:89 | stop management reads the stored record's side and stop |
| Live.TargetOf | src/main.py:72 | a present target is non-zero |
| Live.Snapshot | src/main.py:95 | the risk manager is synced with every stored record's symbol and risk |
| Live.Approved | src/main.py:102-104 | a proposal goes on iff the decision is TRADE with a proposal the risk check approves, and it has a positive stop |
| Live.LiveAgent.ManageOpenPositions | src/main.py:63-92 | the store and the ledger after managing every position read at the start, stopping at the first that raises |
| Live.LiveAgent.ManageOne | src/main.py:67-92 | one position: close, update or keep, through the execution engine |
| Live.LiveAgent.Check | src/main.py:98-104 | the analysis's records and the risk decision are logged, and the result is the approved proposal |
| Live.LiveAgent.Decide | src/main.py:98-107 | nothing is executed without approval; an approved proposal is executed under the tick's gate status |
| Live.LiveAgent.JobTick | src/main.py:35-112 | empty data does nothing; STAND_DOWN logs EVENT_STAND_DOWN_BLOCK and returns before management; otherwise management, then a sync with the remaining positions, then the decision; an exception keeps what was done and ends the tick |
| Live.ManageAllSnoc | src/main.py:67-92 | the loop over one more position is the loop so far followed by that position's pass |
| Live.RaiseStops | src/main.py:111-112 | once a position raises, the later ones are not handled |
| Live.StopBeforeTarget | src/main.py:74-86 | the action closes at the stop iff the stop is reached, at the target iff the target is reached and the stop is not, and updates only when neither is |
| Live.UpdateTightens | src/main.py:89-91 | an update moves the stop the position's way |
| Live.ManagementNeverOpens | src/main.py:63-92 | management only removes or updates records: every id afterwards was there before |
| Live.ApplyNeverOpens | src/main.py:74-91 | the same for one close or update |
| Live.ClosedStaysClosed | src/main.py:74-86 | a closed id is gone from the store, and a later update of it finds nothing |
| Live.LiveApprovalFills | src/main.py:102-105 | an approved proposal under a non-stand-down gate passes the execution engine's own refusals |
| Baselines.NoTradeBaseline.constructor | src/backtest/baselines.py:6-10 | the initial balance and an empty equity history |
| Baselines.NoTradeBaseline.Run | src/backtest/baselines.py:18-24 | one equity point per candle, with its timestamp and the initial balance; the earlier history is kept |
| Baselines.OpenEntry | src/backtest/baselines.py:69-75 | the trade opens at the price and time, on the side given, with size 0.1 |
| Baselines.ClosePnl | src/backtest/baselines.py:80-83 | the profit is positive iff the price moved the trade's way, and zero iff the price is the entry |
| Baselines.Closed | src/backtest/baselines.py:77-93 | a no-op without a current trade; otherwise the trade is recorded with its profit, the equity grows by it, and the current trade is cleared |
| Baselines.RollingMean | src/backtest/baselines.py:34-35 | the mean is missing (NaN) iff fewer than `window` closes exist |
| Baselines.MovingAverage | src/backtest/baselines.py:34-35 | one value per candle, missing exactly before the window fills |
| Baselines.MACrossoverBaseline.constructor | src/backtest/baselines.py:27-30 | the initial balance, the windows, and no history, trades or current trade |
| Baselines.MACrossoverBaseline.Run | src/backtest/baselines.py:32-67 | empty candles raise and change nothing; otherwise the state is that of the bar steps from `slow` on, over the two moving averages |
| Baselines.MACrossoverBaseline.Bar | src/backtest/baselines.py:41-67 | one bar: the crossover, the close and open it causes, and one equity point |
| Baselines.MACrossoverBaseline.CloseTrade | src/backtest/baselines.py:77-93 | the book after `_close_trade`, with the history unchanged |
| Baselines.BarKeepsOneTrade | src/backtest/baselines.py:48-62 | a bar keeps the one-trade invariant |
| Baselines.RunClosesAtMostOneTrade | src/backtest/baselines.py:50-62 | since `position` never returns to 0, a run starting flat records at most one closed trade and only `_close_trade` moves the equity |
| Baselines.OneEquityPointPerBar | src/backtest/baselines.py:64-67 | exactly one equity point per bar in the range, appended after the earlier history, with that bar's timestamp |
| Baselines.NoSignalBeforeWindows | src/backtest/baselines.py:48 | a crossover needs both averages on the bar and the bar before, so none fires before both windows fill |

## Left out

- Files, locks and clocks:
  - `portalocker`, `fsync` and the 4096-byte tail read of the audit writer
    are left out. The lock outcome is a boolean input.
  - `uuid4` ids and wall-clock timestamps are inputs.
  - The singleton-per-path registry of `AuditLogger` becomes one explicit
    instance per file.
- SHA-256 and canonical JSON are a function field of `Crypto`. Their
  internals are not modelled. Collision-freedom is the explicit predicate
  `CollisionFree`, required only by the tamper-detection results.
- `compute_shadow_metrics`:
  - its JSON and ISO timestamp parsing is left out; entries arrive already
    parsed, with their times in seconds;
  - its pandas equity drawdown is floating point and is left out, and so is
    `max_dd`.
- The report exports (JSON, CSV, PDF) and the dashboard are formatting and
  are left out.
- `get_observation_metrics`:
  - its timestamp parsing is an input function;
  - its pandas drawdown is left out.
- Indicator computation (SMA, ATR, RSI, regime) is pandas over floats. The
  indicators are inputs: a bar per frame row, and an indicator function in
  the backtest.
- The news interpreter is a constant stub. It becomes a boolean input.
- The calendar and market-data providers are function inputs.
- Logging calls are left out.
- The live tick:
  - The event engine, the clock and the decision engine's analysis are
    inputs.
  - The tick's status is an assessment given to it.
  - A stored position record is read only when its id is a string, as the
    engine writes it. Any other record is treated as raising.
  - Other exceptions are not modelled.
- The backtest:
  - `_finalize` and `run_main` (file output) are left out.
  - The event engine's `last_fetch` wall-clock stamp is kept by the engine
    model but is not part of the runner's contracts.
  - The engine's `force_status` is never set by the runner, so the runner
    model starts every engine with no forced status.
- `RiskManager`:
  - `risk_pct` values are numbers or missing. A non-numeric `risk_pct` is
    not modelled.
  - A missing stop is a stop of 0.
- Floating point is left out. Prices, profits and risk percentages are exact
  `real` numbers, so rounding in the source's float arithmetic is not
  reproduced.
- The baselines' `get_equity_df` and `get_trades_df` are pandas conversions
  and are left out.
- Baselines.MACrossoverBaseline.constructor: requires both windows to be at
  least 1. The behaviour of pandas `rolling` for a zero or negative window is
  not modelled.
- RiskManagement.DecisionRecord: the two cap rejections' reasons stop
  before their figure. The source appends the total as a percentage with one
  decimal (`:.1%`), which needs float formatting.
- Common.Upper and Common.Lower map ASCII letters only. Python's
  `str.upper` and `str.lower` also map other letters. They are applied here
  to a ledger path and to rejection reasons, which are searched for ASCII
  words only.
- ObservationMetrics.CheckLine: a record whose `hash` is JSON `null` is read
  as one without `hash`, so it reports a JSON error. The source pops `None`,
  reports a hash mismatch, and expects `null` as the next `prev_hash`.
- Events.Classify: `minutes_to_event` truncates toward zero in the source.
  The model divides by 60 with Dafny's division. The two agree because the
  value is only set for events strictly in the future.

## Findings

| source | as written | input that shows it | evidently intended | confidence | as-written member | corrected member |
|---|---|---|---|---|---|---|
| src/core/audit.py:75-89 | `log_event` chains the new record from the writer's cached `last_hash`, which is read once when the writer is opened and is not re-read under the lock | two writers are opened on one new ledger file, for example a second process on the same path, and the first then logs an event: its record points at its own opening record, not at the second writer's opening record, so the file is no longer a chain and every whole-file check fails | the lock makes appends atomic, so each record should chain from the file's actual last record, re-read while the lock is held | not executed | Audit.TwoWritersBreakChain | Audit.AuditLogger.LogEventLocked |
