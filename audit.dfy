/** The hash-chained, append-only audit ledger of src/core/audit.py.

    A record is the object {event_id, timestamp, event_type, payload, prev_hash}
    plus `hash`, the SHA-256 hex digest of the canonical JSON of the record
    without `hash`. Canonical JSON and SHA-256 are not modelled: they are the two
    functions of a `Crypto` value, and the collision-freedom that tamper
    detection depends on is the explicit assumption `CollisionFree`. */
module Audit {
  import opened Common

  /** Sixty-four '0' characters: the prev_hash a fresh ledger starts from. */
  const Genesis: string := "0000000000000000000000000000000000000000000000000000000000000000"

  /** Every field of a record except `hash`: what the digest covers. */
  datatype Unsigned = Unsigned(
    eventId: string,
    timestamp: string,
    eventType: string,
    payload: Payload,
    prevHash: Option<string>)

  /** A record as read back from the ledger; `hash` is None when the line has none. */
  datatype Stored = Stored(body: Unsigned, hash: Option<string>)

  /** One line of the ledger file: a JSON object, or text that does not parse as one. */
  datatype Line = Unparsable | Parsed(rec: Stored)

  /** `json.dumps(..., sort_keys=True, separators=(',', ':'))` and
      `hashlib.sha256(...).hexdigest()`, left uninterpreted. */
  datatype Crypto = Crypto(canonical: Unsigned -> string, sha256: string -> string)

  function Digest(c: Crypto, u: Unsigned): string {
    c.sha256(c.canonical(u))
  }

  /** The assumption under which a changed record cannot keep its digest: neither
      the canonical serialisation nor the digest maps two inputs to one output. */
  ghost predicate CollisionFree(c: Crypto) {
    && (forall u: Unsigned, v: Unsigned :: c.canonical(u) == c.canonical(v) ==> u == v)
    && (forall x: string, y: string :: c.sha256(x) == c.sha256(y) ==> x == y)
  }

  lemma DigestDistinguishes(c: Crypto, u: Unsigned, v: Unsigned)
    requires CollisionFree(c)
    requires u != v
    ensures Digest(c, u) != Digest(c, v)
  {
  }

  /** The stored hash is the digest of the rest of the record. */
  predicate Sealed(c: Crypto, r: Stored) {
    r.hash == Some(Digest(c, r.body))
  }

  /** Every line is a sealed record and each one's prev_hash is the hash before it,
      the first one's being `start`. */
  predicate Chained(c: Crypto, start: string, lines: seq<Line>)
    decreases |lines|
  {
    lines == [] ||
    (&& lines[0].Parsed?
     && Sealed(c, lines[0].rec)
     && lines[0].rec.body.prevHash == Some(start)
     && Chained(c, lines[0].rec.hash.value, lines[1..]))
  }

  /** The hash a chain from `start` ends on. */
  function ChainHead(start: string, lines: seq<Line>): string {
    if lines == [] then start
    else if lines[|lines| - 1].Parsed? && lines[|lines| - 1].rec.hash.Some? then lines[|lines| - 1].rec.hash.value
    else start
  }

  /** The record a writer appends: its prev_hash is `prev`, its hash the digest. */
  function Seal(c: Crypto, eventType: string, payload: Payload, eventId: string, timestamp: string, prev: string): (r: Stored)
    ensures Sealed(c, r) && r.body.prevHash == Some(prev)
  {
    var body := Unsigned(eventId, timestamp, eventType, payload, Some(prev));
    Stored(body, Some(Digest(c, body)))
  }

  lemma {:induction false} ChainedAppend(c: Crypto, start: string, lines: seq<Line>, r: Stored)
    requires Chained(c, start, lines)
    requires Sealed(c, r) && r.body.prevHash == Some(ChainHead(start, lines))
    ensures Chained(c, start, lines + [Parsed(r)])
    ensures ChainHead(start, lines + [Parsed(r)]) == r.hash.value
    decreases |lines|
  {
    if lines != [] {
      var next := lines[0].rec.hash.value;
      assert lines[0].Parsed? && lines[0].rec.hash.Some?;
      if |lines| > 1 {
        ChainedEndsSealed(c, start, lines);
        assert lines[1..][|lines| - 2] == lines[|lines| - 1];
        assert ChainHead(start, lines) == ChainHead(next, lines[1..]);
      } else {
        assert ChainHead(start, lines) == next;
      }
      ChainedAppend(c, next, lines[1..], r);
      assert (lines + [Parsed(r)])[1..] == lines[1..] + [Parsed(r)];
    }
  }

  lemma {:induction false} ChainedEndsSealed(c: Crypto, start: string, lines: seq<Line>)
    requires Chained(c, start, lines)
    requires lines != []
    ensures lines[|lines| - 1].Parsed? && lines[|lines| - 1].rec.hash.Some?
    decreases |lines|
  {
    if |lines| > 1 {
      ChainedEndsSealed(c, lines[0].rec.hash.value, lines[1..]);
      assert lines[1..][|lines| - 2] == lines[|lines| - 1];
    }
  }

  /** Each record of a chain is sealed and points at the hash before it. */
  lemma {:induction false} ChainedLinks(c: Crypto, start: string, lines: seq<Line>, i: nat)
    requires Chained(c, start, lines)
    requires i < |lines|
    ensures lines[i].Parsed? && Sealed(c, lines[i].rec)
    ensures i == 0 ==> lines[i].rec.body.prevHash == Some(start)
    ensures i > 0 ==> lines[i - 1].Parsed? && lines[i].rec.body.prevHash == lines[i - 1].rec.hash
    decreases i
  {
    if i > 0 {
      ChainedLinks(c, lines[0].rec.hash.value, lines[1..], i - 1);
      assert lines[1..][i - 1] == lines[i];
      if i > 1 {
        assert lines[1..][i - 2] == lines[i - 1];
      }
    }
  }

  /** Conversely, lines that are all sealed records, each pointing at the hash
      before it and the first at `start`, form a chain. */
  lemma {:induction false} LinksChained(c: Crypto, start: string, lines: seq<Line>)
    requires forall i :: 0 <= i < |lines| ==> lines[i].Parsed? && Sealed(c, lines[i].rec)
    requires lines != [] ==> lines[0].rec.body.prevHash == Some(start)
    requires forall i :: 0 < i < |lines| ==> lines[i].rec.body.prevHash == lines[i - 1].rec.hash
    ensures Chained(c, start, lines)
    decreases |lines|
  {
    if lines != [] {
      var rest := lines[1..];
      forall i | 0 < i < |rest|
        ensures rest[i].rec.body.prevHash == rest[i - 1].rec.hash
      {
        assert rest[i] == lines[i + 1] && rest[i - 1] == lines[i];
      }
      if rest != [] {
        assert rest[0].rec.body.prevHash == lines[0].rec.hash;
      }
      LinksChained(c, lines[0].rec.hash.value, rest);
    }
  }

  /** The ledger file: absent, or a sequence of lines. */
  class LedgerFile {
    const path: string
    var content: Option<seq<Line>>

    constructor (path: string, content: Option<seq<Line>>)
      ensures this.path == path && this.content == content
    {
      this.path := path;
      this.content := content;
    }

    function Lines(): seq<Line>
      reads this
    {
      if content.Some? then content.value else []
    }
  }

  /** `_get_last_hash`: genesis for a missing or empty file or an unusable last
      line, otherwise the last line's `hash`. */
  function GetLastHash(content: Option<seq<Line>>): (h: string)
    ensures content.None? || content.value == [] ==> h == Genesis
    ensures content.Some? && content.value != [] ==>
      var last := content.value[|content.value| - 1];
      h == (if last.Parsed? && last.rec.hash.Some? then last.rec.hash.value else Genesis)
  {
    match content
    case None => Genesis
    case Some(lines) =>
      if lines == [] then Genesis
      else match lines[|lines| - 1]
        case Parsed(Stored(_, Some(h))) => h
        case _ => Genesis
  }

  /** On a ledger chained from genesis, re-reading the tail gives the chain head. */
  lemma TailIsChainHead(c: Crypto, content: Option<seq<Line>>)
    requires content.Some? ==> Chained(c, Genesis, content.value)
    ensures GetLastHash(content) == ChainHead(Genesis, if content.Some? then content.value else [])
  {
    if content.Some? && content.value != [] {
      ChainedEndsSealed(c, Genesis, content.value);
    }
  }

  /** "LIVE" when the path mentions live in any case, else "BACKTEST". */
  function Mode(path: string): string {
    if Contains(Lower(path), "live") then "LIVE" else "BACKTEST"
  }

  function OpeningPayload(path: string, pid: int): Payload {
    map["mode" := VStr(Mode(path)), "path" := VStr(path), "pid" := VNum(pid as real)]
  }

  /** One writer of a ledger file. The singleton-per-path registry of the source
      becomes one explicit instance per file. */
  class AuditLogger {
    const file: LedgerFile
    const crypto: Crypto
    var lastHash: string

    /** This writer's cached head agrees with the file, and the file is a chain
        from genesis: true as long as no one else appends to the file. */
    ghost predicate SoleWriter()
      reads this, file
    {
      Chained(crypto, Genesis, file.Lines()) && lastHash == ChainHead(Genesis, file.Lines())
    }

    /** Reads the tail of the file once, then appends one AUDIT_FILE_OPENED record. */
    constructor (file: LedgerFile, crypto: Crypto, openId: string, openTime: string, pid: int)
      modifies file
      ensures this.file == file && this.crypto == crypto
      ensures
        var openRec := Seal(crypto, "AUDIT_FILE_OPENED", OpeningPayload(file.path, pid), openId, openTime, GetLastHash(old(file.content)));
        file.content == Some(old(file.Lines()) + [Parsed(openRec)]) && lastHash == openRec.hash.value
      ensures Chained(crypto, Genesis, old(file.Lines())) ==> SoleWriter()
    {
      this.file := file;
      this.crypto := crypto;
      lastHash := GetLastHash(file.content);
      new;
      if Chained(crypto, Genesis, file.Lines()) {
        TailIsChainHead(crypto, file.content);
      }
      var ok := LogEvent("AUDIT_FILE_OPENED", OpeningPayload(file.path, pid), openId, openTime, true);
    }

    /** `log_event` as written: the record chains from the cached `lastHash`, which
        was set by this writer's own previous append and is not re-read under the
        lock. When the lock times out nothing is written and the head is unchanged. */
    method LogEvent(eventType: string, payload: Payload, eventId: string, timestamp: string, lockAcquired: bool)
      returns (ok: bool)
      modifies this, file
      ensures ok == lockAcquired
      ensures ok ==>
        var r := Seal(crypto, eventType, payload, eventId, timestamp, old(lastHash));
        file.content == Some(old(file.Lines()) + [Parsed(r)]) && lastHash == r.hash.value
      ensures !ok ==> file.content == old(file.content) && lastHash == old(lastHash)
      ensures old(SoleWriter()) ==> SoleWriter()
    {
      var r := Seal(crypto, eventType, payload, eventId, timestamp, lastHash);
      if !lockAcquired {
        return false;
      }
      if SoleWriter() {
        ChainedAppend(crypto, Genesis, file.Lines(), r);
      }
      file.content := Some(file.Lines() + [Parsed(r)]);
      lastHash := r.hash.value;
      ok := true;
    }

    /** The corrected append: the head is re-read from the file's tail while the
        lock is held, so appends by any number of writers keep one chain. */
    method LogEventLocked(eventType: string, payload: Payload, eventId: string, timestamp: string, lockAcquired: bool)
      returns (ok: bool)
      modifies this, file
      ensures ok == lockAcquired
      ensures ok ==>
        var r := Seal(crypto, eventType, payload, eventId, timestamp, GetLastHash(old(file.content)));
        file.content == Some(old(file.Lines()) + [Parsed(r)]) && lastHash == r.hash.value
      ensures !ok ==> file.content == old(file.content) && lastHash == old(lastHash)
      ensures Chained(crypto, Genesis, old(file.Lines())) ==> Chained(crypto, Genesis, file.Lines())
      ensures ok && Chained(crypto, Genesis, old(file.Lines())) ==> lastHash == ChainHead(Genesis, file.Lines())
    {
      if !lockAcquired {
        return false;
      }
      var head := GetLastHash(file.content);
      var r := Seal(crypto, eventType, payload, eventId, timestamp, head);
      if Chained(crypto, Genesis, file.Lines()) {
        TailIsChainHead(crypto, file.content);
        ChainedAppend(crypto, Genesis, file.Lines(), r);
      }
      file.content := Some(file.Lines() + [Parsed(r)]);
      lastHash := r.hash.value;
      ok := true;
    }
  }

  /** Two writers opened on one new file, the first appending after the second
      opened: the first writer chains from its stale cached head and the file is
      no longer a chain (given distinct event ids and collision-freedom). */
  method TwoWritersBreakChain(c: Crypto, path: string, id1: string, id2: string, id3: string, ts: string, pid: int)
    returns (lines: seq<Line>)
    requires CollisionFree(c)
    requires id1 != id2
    ensures |lines| == 3
    ensures !Chained(c, Genesis, lines)
  {
    var f := new LedgerFile(path, None);
    var w1 := new AuditLogger(f, c, id1, ts, pid);
    var w2 := new AuditLogger(f, c, id2, ts, pid);
    var ok := w1.LogEvent("HEARTBEAT", map[], id3, ts, true);
    lines := f.Lines();
    var o1 := lines[0].rec;
    var o2 := lines[1].rec;
    assert o1.body.eventId == id1 && o2.body.eventId == id2;
    DigestDistinguishes(c, o1.body, o2.body);
    assert lines[2].rec.body.prevHash == o1.hash;
    assert lines[1..][1..] == [lines[2]];
    assert !Chained(c, o2.hash.value, lines[1..][1..]);
  }

  /** The same interleaving with the corrected append keeps one chain. */
  method TwoWritersLocked(c: Crypto, path: string, id1: string, id2: string, id3: string, ts: string, pid: int)
    returns (lines: seq<Line>)
    ensures |lines| == 3
    ensures Chained(c, Genesis, lines)
  {
    var f := new LedgerFile(path, None);
    var w1 := new AuditLogger(f, c, id1, ts, pid);
    var w2 := new AuditLogger(f, c, id2, ts, pid);
    var ok := w1.LogEventLocked("HEARTBEAT", map[], id3, ts, true);
    lines := f.Lines();
  }
}
