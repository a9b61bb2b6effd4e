/** Shared value types of the trading agent: optional values, the JSON values that
    audit payloads carry, the trade proposal of src/core/models.py, and the audit
    trail that components write their ledger calls to. */
module Common {

  datatype Option<T> = None | Some(value: T)

  /** A JSON value as it appears in an audit payload or a stored record. */
  datatype Value =
    | VNull
    | VBool(b: bool)
    | VNum(n: real)
    | VStr(s: string)
    | VList(items: seq<Value>)
    | VObj(fields: map<string, Value>)

  type Payload = map<string, Value>

  /** `payload.get(key)`: a missing key reads as None, like a JSON null. */
  function Get(p: Payload, key: string): (v: Value)
    ensures key !in p ==> v == VNull
  {
    if key in p then p[key] else VNull
  }

  /** Python truthiness of a JSON value. */
  predicate Truthy(v: Value) {
    match v
    case VNull => false
    case VBool(b) => b
    case VNum(n) => n != 0.0
    case VStr(s) => s != ""
    case VList(xs) => |xs| > 0
    case VObj(m) => |m| > 0
  }

  /** `payload.get(key, default)` for a field read as text. */
  function StrOr(p: Payload, key: string, default: string): string {
    if key in p && p[key].VStr? then p[key].s else default
  }

  /** `payload.get(key, default)` for a field read as a number. */
  function NumOr(p: Payload, key: string, default: real): real {
    if key in p && p[key].VNum? then p[key].n else default
  }

  /** `sub in s` for Python strings. */
  predicate Contains(s: string, sub: string)
    decreases |s|
  {
    if |sub| > |s| then false
    else s[..|sub|] == sub || (|s| > 0 && Contains(s[1..], sub))
  }

  /** Text that lacks the first character of `sub` does not contain `sub`. */
  lemma {:induction false} MissingCharNotContained(s: string, sub: string)
    requires |sub| > 0
    requires forall i :: 0 <= i < |s| ==> s[i] != sub[0]
    ensures !Contains(s, sub)
    decreases |s|
  {
    if |sub| <= |s| {
      assert s[..|sub|][0] == s[0];
      if |s| > 0 {
        MissingCharNotContained(s[1..], sub);
      }
    }
  }

  function UpperChar(c: char): char {
    if 'a' <= c <= 'z' then (c as int - 32) as char else c
  }

  function LowerChar(c: char): char {
    if 'A' <= c <= 'Z' then (c as int + 32) as char else c
  }

  /** `str.upper()` on ASCII text. */
  function Upper(s: string): (r: string)
    ensures |r| == |s|
    ensures forall i :: 0 <= i < |s| ==> r[i] == UpperChar(s[i])
  {
    if s == [] then [] else [UpperChar(s[0])] + Upper(s[1..])
  }

  /** `str.lower()` on ASCII text. */
  function Lower(s: string): (r: string)
    ensures |r| == |s|
    ensures forall i :: 0 <= i < |s| ==> r[i] == LowerChar(s[i])
  {
    if s == [] then [] else [LowerChar(s[0])] + Lower(s[1..])
  }

  function DigitChar(d: nat): char
    requires d < 10
  {
    "0123456789"[d]
  }

  predicate AllDigits(s: string) {
    forall i :: 0 <= i < |s| ==> '0' <= s[i] <= '9'
  }

  /** The decimal digits of a natural number, most significant first, with
      no leading zero. */
  function NatText(n: nat): (s: string)
    ensures |s| >= 1 && AllDigits(s)
    ensures |s| > 1 ==> s[0] != '0'
    decreases n
  {
    if n < 10 then [DigitChar(n)] else NatText(n / 10) + [DigitChar(n % 10)]
  }

  /** The number a string of decimal digits denotes. */
  function DigitsValue(s: string): nat
    requires AllDigits(s)
  {
    if s == [] then 0 else DigitsValue(s[..|s| - 1]) * 10 + (s[|s| - 1] as int - '0' as int)
  }

  /** Reading the digits back gives the number. */
  lemma {:induction false} NatTextReadsBack(n: nat)
    ensures DigitsValue(NatText(n)) == n
    decreases n
  {
    if n >= 10 {
      NatTextReadsBack(n / 10);
      var s := NatText(n);
      assert s[..|s| - 1] == NatText(n / 10);
    }
  }

  /** `str()` of an integer: a minus sign before the digits of a negative one. */
  function IntText(n: int): string {
    if n < 0 then "-" + NatText(-n) else NatText(n)
  }

  datatype Direction = Buy | Sell

  function DirectionName(d: Direction): string {
    match d
    case Buy => "BUY"
    case Sell => "SELL"
  }

  /** TradeProposal of src/core/models.py (the creation timestamp and free-text
      reasoning are not carried). */
  datatype TradeProposal = TradeProposal(
    id: string,
    symbol: string,
    direction: Direction,
    entryPrice: real,
    stopLoss: real,
    takeProfit: Option<real>,
    confidence: real,
    suggestedRiskPct: real)

  /** Candle of src/core/models.py, with its timestamp in seconds. */
  datatype Candle = Candle(timestamp: int, open: real, high: real, low: real, close: real, volume: real)

  /** The default `suggested_risk_pct` of a TradeProposal. */
  const DefaultSuggestedRisk: real := 0.01

  /** One `log_event(event_type, payload)` call, before it is chained. */
  datatype Emit = Emit(eventType: string, payload: Payload)

  /** The sequence of ledger calls a component has made, in order. Each call
      becomes one hash-chained record through Audit.AuditLogger.LogEvent. */
  class AuditTrail {
    var records: seq<Emit>

    constructor ()
      ensures records == []
    {
      records := [];
    }

    method Log(eventType: string, payload: Payload)
      modifies this
      ensures records == old(records) + [Emit(eventType, payload)]
    {
      records := records + [Emit(eventType, payload)];
    }

    /** Several ledger calls in order. */
    method LogAll(es: seq<Emit>)
      modifies this
      ensures records == old(records) + es
    {
      var i := 0;
      while i < |es|
        invariant 0 <= i <= |es|
        invariant records == old(records) + es[..i]
      {
        assert es[..i + 1] == es[..i] + [es[i]];
        Log(es[i].eventType, es[i].payload);
        i := i + 1;
      }
      assert es[..|es|] == es;
    }
  }
}
