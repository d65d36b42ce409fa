/** The per-session hash chain of the audit log (agent/trace_log/hash_chain.py, agent/trace_log/recorder.py). */
module AuditChain {
  import opened Wrappers
  import opened History

  /** The audited fields of one event, the time stamp as the number's text. */
  datatype Entry = Entry(traceId: string, sessionId: string, eventType: string, timestamp: string, data: string)

  /** A stored row: the entry, its hash and the hash it was chained to. */
  datatype Row = Row(entry: Entry, entryHash: string, prevHash: Option<string>)

  /** SHA-256 truncated to 16 hex digits and the canonical JSON text, kept abstract. */
  datatype Hasher = Hasher(digest: string -> string, canonical: Entry -> string)

  function Preimage(h: Hasher, prev: Option<string>, e: Entry): string {
    if prev.Some? && prev.value != "" then prev.value + "||" + h.canonical(e) else h.canonical(e)
  }

  function Link(h: Hasher, prev: Option<string>, e: Entry): string {
    h.digest(Preimage(h, prev, e))
  }

  function LastHash(rows: Log<Row>): Option<string> {
    if rows.Start? then None else Some(rows.item.entryHash)
  }

  /** First row unchained, every other chained to its predecessor's hash, every hash recomputable. */
  ghost predicate Chained(h: Hasher, rows: Log<Row>) {
    rows.Then? ==>
      && rows.item.prevHash == LastHash(rows.before)
      && rows.item.entryHash == Link(h, rows.item.prevHash, rows.item.entry)
      && Chained(h, rows.before)
  }

  function SessionRows(rows: Log<Row>, session: string): Log<Row> {
    match rows
    case Start => Start
    case Then(before, row) =>
      if row.entry.sessionId == session then Then(SessionRows(before, session), row) else SessionRows(before, session)
  }

  class HashChain {
    var prevHash: Option<string>

    constructor ()
      ensures prevHash == None
    {
      prevHash := None;
    }

    method Hash(h: Hasher, entry: Entry) returns (hash: string)
      modifies this
      ensures hash == Link(h, old(prevHash), entry) && prevHash == Some(hash)
    {
      var canonical := h.canonical(entry);
      if prevHash.Some? && prevHash.value != "" {
        canonical := prevHash.value + "||" + canonical;
      }
      hash := h.digest(canonical);
      prevHash := Some(hash);
    }
  }

  // ---------------------------------------------------------------------------
  // Recording, with inserts that may fail

  /** One call of `record`: the chain always advances, the row is stored only if the insert succeeds. */
  datatype Attempt = Attempt(entry: Entry, inserted: bool)

  function Attempted(log: Log<Attempt>): Log<Entry> {
    match log
    case Start => Start
    case Then(before, a) => Then(Attempted(before), a.entry)
  }

  /** Where the chain object stands after the attempts. */
  function ChainAt(h: Hasher, log: Log<Attempt>): Option<string> {
    match log
    case Start => None
    case Then(before, a) => Some(Link(h, ChainAt(h, before), a.entry))
  }

  /** The rows the attempts leave in the table. */
  function RowsOf(h: Hasher, log: Log<Attempt>): Log<Row> {
    match log
    case Start => Start
    case Then(before, a) =>
      if a.inserted then Then(RowsOf(h, before), Row(a.entry, Link(h, ChainAt(h, before), a.entry), ChainAt(h, before)))
      else RowsOf(h, before)
  }

  function SessionAttempts(log: Log<Attempt>, session: string): Log<Attempt> {
    match log
    case Start => Start
    case Then(before, a) =>
      var earlier := SessionAttempts(before, session);
      if a.entry.sessionId == session then Then(earlier, a) else earlier
  }

  /** The row an attempt adds to the table. */
  function Inserted(h: Hasher, log: Log<Attempt>, rows: Log<Row>, a: Attempt): Log<Row> {
    var prev := ChainAt(h, SessionAttempts(log, a.entry.sessionId));
    if a.inserted then Then(rows, Row(a.entry, Link(h, prev, a.entry), prev)) else rows
  }

  /** Chains stand where, and rows are what, each session's own calls make of them. */
  ghost predicate Consistent(h: Hasher, standing: map<string, Option<string>>, rows: Log<Row>, log: Log<Attempt>) {
    && (forall s | s in standing :: standing[s] == ChainAt(h, SessionAttempts(log, s)))
    && (forall s | s !in standing :: SessionAttempts(log, s).Start?)
    && (forall s :: SessionRows(rows, s) == RowsOf(h, SessionAttempts(log, s)))
  }

  lemma {:induction false} AttemptKeepsConsistent(h: Hasher, standing: map<string, Option<string>>, rows: Log<Row>,
                                                  log: Log<Attempt>, a: Attempt)
    requires Consistent(h, standing, rows, log)
    ensures var session := a.entry.sessionId;
            var prev := if session in standing then standing[session] else None;
            && prev == ChainAt(h, SessionAttempts(log, session))
            && Consistent(h, standing[session := Some(Link(h, prev, a.entry))], Inserted(h, log, rows, a), Then(log, a))
  {
  }

  class TraceRecorder {
    const h: Hasher
    var chains: map<string, HashChain>
    /** The table the rows are inserted into. */
    var rows: Log<Row>
    /** Where the chains stand, and all calls so far. */
    ghost var standing: map<string, Option<string>>
    ghost var attempts: Log<Attempt>

    /** Each session has its own chain object. */
    ghost predicate ChainsValid()
      reads this, chains.Values
    {
      && chains.Keys == standing.Keys
      && (forall s, t | s in chains && t in chains && s != t :: chains[s] != chains[t])
      && (forall s | s in chains :: chains[s].prevHash == standing[s])
    }

    ghost predicate Valid()
      reads this, chains.Values
    {
      ChainsValid() && Consistent(h, standing, rows, attempts)
    }

    constructor (h: Hasher)
      ensures Valid() && this.h == h && rows == Start && attempts == Start
    {
      this.h := h;
      chains, rows, standing, attempts := map[], Start, map[], Start;
    }

    method Advance(entry: Entry) returns (prevHash: Option<string>, entryHash: string)
      requires ChainsValid()
      modifies `chains, `standing, chains.Values
      ensures ChainsValid() && fresh(chains.Values - old(chains.Values))
      ensures prevHash == (if entry.sessionId in old(standing) then old(standing)[entry.sessionId] else None)
      ensures entryHash == Link(h, prevHash, entry) && standing == old(standing)[entry.sessionId := Some(entryHash)]
    {
      var session := entry.sessionId;
      if session !in chains {
        var empty := new HashChain();
        chains := chains[session := empty];
      }
      var chain := chains[session];
      prevHash := chain.prevHash;
      entryHash := chain.Hash(h, entry);
      standing := standing[session := Some(entryHash)];
    }

    /** Recording for one session advances that session's chain only; without a successful insert no row is added. */
    method Record(entry: Entry, inserted: bool) returns (result: Option<string>)
      requires Valid()
      modifies this, chains.Values
      ensures Valid()
      ensures attempts == Then(old(attempts), Attempt(entry, inserted))
      ensures rows == Inserted(h, old(attempts), old(rows), Attempt(entry, inserted))
      ensures result == if inserted then Some(rows.item.entryHash) else None
      ensures fresh(chains.Values - old(chains.Values))
    {
      AttemptKeepsConsistent(h, standing, rows, attempts, Attempt(entry, inserted));
      var prevHash, entryHash := Advance(entry);
      attempts := Then(attempts, Attempt(entry, inserted));
      if !inserted {
        return None;
      }
      rows := Then(rows, Row(entry, entryHash, prevHash));
      return Some(entryHash);
    }
  }

  // ---------------------------------------------------------------------------
  // Verification

  function Entries(rows: Log<Row>): Log<Entry> {
    match rows
    case Start => Start
    case Then(before, row) => Then(Entries(before), row.entry)
  }

  function Rehash(h: Hasher, log: Log<Entry>): Log<Row> {
    match log
    case Start => Start
    case Then(before, e) =>
      var rows := Rehash(h, before);
      Then(rows, Row(e, Link(h, LastHash(rows), e), LastHash(rows)))
  }

  /** A table is an intact chain exactly when re-hashing its entries reproduces it. */
  lemma {:induction false} ChainedIffReproducible(h: Hasher, rows: Log<Row>)
    ensures Chained(h, rows) <==> Rehash(h, Entries(rows)) == rows
  {
    if rows.Then? {
      ChainedIffReproducible(h, rows.before);
    }
  }

  /** What is known of the real hash: 16 hex digits over JSON object texts, distinct entries having distinct texts. */
  ghost predicate Sane(h: Hasher) {
    && (forall x :: |h.digest(x)| == 16 && h.digest(x)[0] != '{')
    && (forall e :: h.canonical(e) != "" && h.canonical(e)[0] == '{')
    && (forall e, f | h.canonical(e) == h.canonical(f) :: e == f)
  }

  ghost predicate IsDigest(h: Hasher, p: Option<string>) {
    p.Some? ==> exists x :: p.value == h.digest(x)
  }

  lemma {:induction false} PreimageStart(h: Hasher, p: Option<string>, e: Entry)
    requires Sane(h) && IsDigest(h, p)
    ensures Preimage(h, p, e) != ""
    ensures Preimage(h, p, e)[0] == '{' <==> p.None?
  {
  }

  /** The hashed text determines both the previous hash and the entry. */
  lemma {:induction false} PreimageDecodes(h: Hasher, p: Option<string>, e: Entry, q: Option<string>, f: Entry)
    requires Sane(h) && IsDigest(h, p) && IsDigest(h, q)
    requires Preimage(h, p, e) == Preimage(h, q, f)
    ensures p == q && e == f
  {
    var x := Preimage(h, p, e);
    PreimageStart(h, p, e);
    PreimageStart(h, q, f);
    assert p.Some? <==> q.Some?;
    if p.Some? {
      assert x[..16] == p.value && x[18..] == h.canonical(e);
      assert x[..16] == q.value && x[18..] == h.canonical(f);
    }
  }

  /** The texts that are hashed for the entries of a log. */
  function Texts(h: Hasher, log: Log<Entry>): set<string> {
    match log
    case Start => {}
    case Then(before, e) => Texts(h, before) + {Preimage(h, LastHash(Rehash(h, before)), e)}
  }

  /** Two different texts, one of each set, have the same digest. */
  ghost predicate Collide(h: Hasher, xs: set<string>, ys: set<string>) {
    exists x, y :: x in xs && y in ys && x != y && h.digest(x) == h.digest(y)
  }

  /**
   * Tamper evidence: the last hash fixes the whole log, its length included, unless the very texts hashed for the
   * two logs collide.
   */
  lemma {:induction false} SameHashSameLog(h: Hasher, a: Log<Entry>, b: Log<Entry>)
    requires Sane(h) && LastHash(Rehash(h, a)) == LastHash(Rehash(h, b))
    ensures a == b || Collide(h, Texts(h, a), Texts(h, b))
    decreases a
  {
    if a.Then? && b.Then? {
      var p, q := LastHash(Rehash(h, a.before)), LastHash(Rehash(h, b.before));
      var x, y := Preimage(h, p, a.item), Preimage(h, q, b.item);
      assert x in Texts(h, a) && y in Texts(h, b);
      if x == y {
        PreimageDecodes(h, p, a.item, q, b.item);
        SameHashSameLog(h, a.before, b.before);
      }
    }
  }

  /** Comparing last hashes is comparing logs, unless the texts hashed for them collide. */
  lemma {:induction false} LastHashDecides(h: Hasher, a: Log<Entry>, b: Log<Entry>)
    requires Sane(h)
    ensures (LastHash(Rehash(h, a)) == LastHash(Rehash(h, b)) <==> a == b) || Collide(h, Texts(h, a), Texts(h, b))
  {
    if LastHash(Rehash(h, a)) == LastHash(Rehash(h, b)) {
      SameHashSameLog(h, a, b);
    }
  }

  // ---------------------------------------------------------------------------
  // What failed inserts do

  ghost predicate SomeFailed(log: Log<Attempt>) {
    log.Then? && (!log.item.inserted || SomeFailed(log.before))
  }

  /** A row was stored after an insert had failed. */
  ghost predicate StoredAfterFailure(log: Log<Attempt>) {
    log.Then? && (StoredAfterFailure(log.before) || (log.item.inserted && SomeFailed(log.before)))
  }

  lemma {:induction false} ChainAtRehash(h: Hasher, log: Log<Attempt>)
    ensures ChainAt(h, log) == LastHash(Rehash(h, Attempted(log)))
  {
    if log.Then? {
      ChainAtRehash(h, log.before);
    }
  }

  lemma {:induction false} UnbrokenRows(h: Hasher, log: Log<Attempt>)
    requires !StoredAfterFailure(log)
    ensures Chained(h, RowsOf(h, log))
    ensures !SomeFailed(log) ==> LastHash(RowsOf(h, log)) == ChainAt(h, log)
    ensures Size(RowsOf(h, log)) <= Size(log)
    ensures SomeFailed(log) ==> Size(RowsOf(h, log)) < Size(log)
  {
    if log.Then? {
      UnbrokenRows(h, log.before);
    }
  }

  lemma {:induction false} Sizes(h: Hasher, log: Log<Attempt>, rows: Log<Row>)
    ensures Size(Attempted(log)) == Size(log)
    ensures Size(Entries(rows)) == Size(rows)
  {
    if log.Then? {
      Sizes(h, log.before, rows);
    } else if rows.Then? {
      Sizes(h, log, rows.before);
    }
  }

  /** Until a row is stored after a failure, the rows are a first part of what was attempted. */
  lemma {:induction false} StoredTexts(h: Hasher, log: Log<Attempt>)
    requires !StoredAfterFailure(log)
    ensures Texts(h, Entries(RowsOf(h, log))) <= Texts(h, Attempted(log))
    ensures !SomeFailed(log) ==> Entries(RowsOf(h, log)) == Attempted(log)
  {
    if log.Then? {
      StoredTexts(h, log.before);
    }
  }

  /**
   * After every run of one session: its rows are a chain exactly when no row was stored after a failed insert,
   * unless two texts hashed in that very run collide.
   */
  lemma {:induction false} ChainedIffNoStoreAfterFailure(h: Hasher, log: Log<Attempt>)
    requires Sane(h)
    ensures || (Chained(h, RowsOf(h, log)) <==> !StoredAfterFailure(log))
            || Collide(h, Texts(h, Attempted(log)), Texts(h, Attempted(log)))
  {
    if !StoredAfterFailure(log) {
      UnbrokenRows(h, log);
    } else if StoredAfterFailure(log.before) {
      ChainedIffNoStoreAfterFailure(h, log.before);
    } else {
      var rows := RowsOf(h, log.before);
      UnbrokenRows(h, log.before);
      ChainAtRehash(h, log.before);
      ChainedIffReproducible(h, rows);
      Sizes(h, log.before, rows);
      StoredTexts(h, log.before);
      LastHashDecides(h, Entries(rows), Attempted(log.before));
    }
  }

  /** The same for the table of a recorder that served any interleaving of sessions. */
  lemma {:induction false} RecorderChainedIff(recorder: TraceRecorder, session: string)
    requires recorder.Valid() && Sane(recorder.h)
    ensures var own := SessionAttempts(recorder.attempts, session);
            var hashed := Texts(recorder.h, Attempted(own));
            || (Chained(recorder.h, SessionRows(recorder.rows, session)) <==> !StoredAfterFailure(own))
            || Collide(recorder.h, hashed, hashed)
  {
    ChainedIffNoStoreAfterFailure(recorder.h, SessionAttempts(recorder.attempts, session));
  }

  lemma {:induction false} SessionWithoutFailure(log: Log<Attempt>, session: string)
    requires !SomeFailed(log)
    ensures !SomeFailed(SessionAttempts(log, session)) && !StoredAfterFailure(SessionAttempts(log, session))
  {
    if log.Then? {
      SessionWithoutFailure(log.before, session);
    }
  }

  /** While every insert succeeds, every session's rows are a chain, whatever the hash function. */
  lemma {:induction false} EverySessionChained(recorder: TraceRecorder, session: string)
    requires recorder.Valid() && !SomeFailed(recorder.attempts)
    ensures Chained(recorder.h, SessionRows(recorder.rows, session))
  {
    SessionWithoutFailure(recorder.attempts, session);
    UnbrokenRows(recorder.h, SessionAttempts(recorder.attempts, session));
  }

  /**
   * Stored, failed, stored, for any three entries: the rows are a chain only if two particular different texts, both
   * hashed on the way, have the same digest.
   */
  lemma {:induction false} FailedInsertExample(h: Hasher, e1: Entry, e2: Entry, e3: Entry)
    requires Sane(h)
    ensures var log := Then(Then(Then(Start, Attempt(e1, true)), Attempt(e2, false)), Attempt(e3, true));
            var x, y := h.canonical(e1), h.digest(h.canonical(e1)) + "||" + h.canonical(e2);
            && Size(RowsOf(h, log)) == 2
            && x != y && (Chained(h, RowsOf(h, log)) <==> h.digest(x) == h.digest(y))
  {
    var first := Then(Start, Attempt(e1, true));
    var second := Then(first, Attempt(e2, false));
    var log := Then(second, Attempt(e3, true));
    var x, y := h.canonical(e1), h.digest(h.canonical(e1)) + "||" + h.canonical(e2);
    assert x[0] == '{' && y[0] == h.digest(x)[0] != '{';
    assert ChainAt(h, first) == Some(h.digest(x)) && ChainAt(h, second) == Some(h.digest(y));
    assert RowsOf(h, second) == RowsOf(h, first) == Then(Start, Row(e1, h.digest(x), None));
    var rows := RowsOf(h, log);
    assert rows.before == Then(Start, Row(e1, h.digest(x), None)) && rows.item.prevHash == Some(h.digest(y));
    assert Chained(h, Start) && Chained(h, rows.before);
    assert Size(rows.before.before) == 0 && Size(rows.before) == 1;
  }

  // ---------------------------------------------------------------------------
  // A hash function of the assumed kind

  /** A text that tells where it ends: its length in strokes, a comma, the text. */
  function Field(s: string): string {
    seq(|s|, _ => '|') + "," + s
  }

  lemma {:induction false} FieldEnds(a: string, x: string, b: string, y: string)
    requires Field(a) + x == Field(b) + y
    ensures a == b && x == y
  {
    var left, right := Field(a) + x, Field(b) + y;
    assert left[|a|] == ',' && right[|b|] == ',';
    assert forall i | 0 <= i < |a| :: left[i] == '|';
    assert forall i | 0 <= i < |b| :: right[i] == '|';
    assert |a| == |b|;
    assert left[|a| + 1..2 * |a| + 1] == a && left[2 * |a| + 1..] == x;
    assert right[|b| + 1..2 * |b| + 1] == b && right[2 * |b| + 1..] == y;
  }

  function PlainText(e: Entry): string {
    "{" + (Field(e.traceId) + (Field(e.sessionId) + (Field(e.eventType) + (Field(e.timestamp) + (Field(e.data) + "")))))
  }

  lemma {:induction false} PlainTextDistinct(e: Entry, f: Entry)
    requires PlainText(e) == PlainText(f)
    ensures e == f
  {
    var e5, f5 := Field(e.data) + "", Field(f.data) + "";
    var e4, f4 := Field(e.timestamp) + e5, Field(f.timestamp) + f5;
    var e3, f3 := Field(e.eventType) + e4, Field(f.eventType) + f4;
    var e2, f2 := Field(e.sessionId) + e3, Field(f.sessionId) + f3;
    var e1, f1 := Field(e.traceId) + e2, Field(f.traceId) + f2;
    assert PlainText(e)[1..] == e1 && PlainText(f)[1..] == f1;
    FieldEnds(e.traceId, e2, f.traceId, f2);
    FieldEnds(e.sessionId, e3, f.sessionId, f3);
    FieldEnds(e.eventType, e4, f.eventType, f4);
    FieldEnds(e.timestamp, e5, f.timestamp, f5);
    FieldEnds(e.data, "", f.data, "");
  }

  function PlainDigest(x: string): string {
    if x != "" && x[0] == '{' then "0000000000000000" else "1111111111111111"
  }

  /** The assumptions can be met, and under them the chain really breaks: stored, failed, stored. */
  lemma {:induction false} SaneHasherExists(e1: Entry, e2: Entry, e3: Entry)
    ensures var h := Hasher(PlainDigest, PlainText);
            var log := Then(Then(Then(Start, Attempt(e1, true)), Attempt(e2, false)), Attempt(e3, true));
            Sane(h) && !Chained(h, RowsOf(h, log))
  {
    var h := Hasher(PlainDigest, PlainText);
    forall e, f | h.canonical(e) == h.canonical(f) ensures e == f {
      PlainTextDistinct(e, f);
    }
    assert Sane(h);
    FailedInsertExample(h, e1, e2, e3);
    var x, y := h.canonical(e1), h.digest(h.canonical(e1)) + "||" + h.canonical(e2);
    assert x[0] == '{' && h.digest(x)[0] == '0' && y[0] == '0';
    assert h.digest(y)[0] == '1';
  }
}
