/** Replay protection of the internal RPC server (internal_rpc/security.py, internal_rpc/server.py). */
module Replay {
  import opened Sets

  /** Nonces with the time until which they are remembered. */
  type Items = map<string, real>

  function Purged(items: Items, now: real): Items {
    map n | n in items && items[n] >= now :: items[n]
  }

  predicate Unseen(items: Items, nonce: string, now: real) {
    nonce !in Purged(items, now)
  }

  function Remember(items: Items, nonce: string, now: real, ttl: real): Items {
    if Unseen(items, nonce, now) then Purged(items, now)[nonce := now + ttl] else Purged(items, now)
  }

  class NonceStore {
    const ttl: real
    var items: Items

    constructor (ttl: real)
      ensures this.ttl == ttl && items == map[]
    {
      this.ttl := ttl;
      items := map[];
    }

    method CheckAndStore(nonce: string, now: real) returns (ok: bool)
      modifies `items
      ensures ok == Unseen(old(items), nonce, now)
      ensures items == Remember(old(items), nonce, now, ttl)
    {
      var expired := set n | n in items && items[n] < now;
      while expired != {}
        invariant items.Keys <= old(items).Keys && forall n | n in items :: items[n] == old(items)[n]
        invariant forall n | n in old(items) && n !in items :: old(items)[n] < now
        invariant forall n | n in items && items[n] < now :: n in expired
        invariant expired <= items.Keys && forall n | n in expired :: old(items)[n] < now
        decreases |expired|
      {
        var key := Pick(expired);
        items := items - {key};
        expired := expired - {key};
      }
      assert items == Purged(old(items), now);
      if nonce in items {
        return false;
      }
      items := items[nonce := now + ttl];
      return true;
    }
  }

  // ---------------------------------------------------------------------------
  // The request checks

  /**
   * One request as the server sees it. `timestamp` is empty when it does not parse; `freshAt` and `storeAt` are the
   * two clock readings its checks make.
   */
  datatype Request = Request(
    nonEmpty: bool, peerAllowed: bool, wellFormed: bool, signed: bool, knownMethod: bool,
    nonce: string, timestamp: seq<real>, freshAt: real, storeAt: real)

  datatype Outcome =
    | EmptyRequest | PeerDenied | BadFormat | NoKey | BadSignature | Stale | Replayed | UnknownMethod | Handled

  datatype Settings = Settings(ttl: real, tolerance: real, keyLoaded: bool)

  predicate Fresh(r: Request, tolerance: real) {
    |r.timestamp| == 1 && -tolerance <= r.timestamp[0] - r.freshAt <= tolerance
  }

  predicate Authentic(s: Settings, r: Request) {
    r.nonEmpty && r.peerAllowed && r.wellFormed && s.keyLoaded && r.signed
  }

  /** The outcome, and the nonces remembered afterwards. */
  function Judged(s: Settings, items: Items, r: Request): (Outcome, Items) {
    if !r.nonEmpty then (EmptyRequest, items)
    else if !r.peerAllowed then (PeerDenied, items)
    else if !r.wellFormed then (BadFormat, items)
    else if !s.keyLoaded then (NoKey, items)
    else if !r.signed then (BadSignature, items)
    else if !Fresh(r, s.tolerance) then (Stale, items)
    else if !Unseen(items, r.nonce, r.storeAt) then (Replayed, Remember(items, r.nonce, r.storeAt, s.ttl))
    else (if r.knownMethod then Handled else UnknownMethod, Remember(items, r.nonce, r.storeAt, s.ttl))
  }

  method HandleRaw(s: Settings, store: NonceStore, r: Request) returns (outcome: Outcome)
    requires store.ttl == s.ttl
    modifies store
    ensures (outcome, store.items) == Judged(s, old(store.items), r)
  {
    if !r.nonEmpty { return EmptyRequest; }
    if !r.peerAllowed { return PeerDenied; }
    if !r.wellFormed { return BadFormat; }
    if !s.keyLoaded { return NoKey; }
    if !r.signed { return BadSignature; }
    if !Fresh(r, s.tolerance) { return Stale; }
    var ok := store.CheckAndStore(r.nonce, r.storeAt);
    if !ok { return Replayed; }
    return if r.knownMethod then Handled else UnknownMethod;
  }

  /** A request that fails authentication or freshness cannot use up a nonce, and exactly the others reach the store. */
  lemma {:induction false} OnlyAuthenticRequestsTouchTheStore(s: Settings, items: Items, r: Request)
    ensures !(Authentic(s, r) && Fresh(r, s.tolerance)) ==> Judged(s, items, r).1 == items
    ensures Judged(s, items, r).0.Handled? <==>
              Authentic(s, r) && Fresh(r, s.tolerance) && Unseen(items, r.nonce, r.storeAt) && r.knownMethod
  {
  }

  // ---------------------------------------------------------------------------
  // Sequential runs

  function ItemsAfter(s: Settings, rs: seq<Request>): Items {
    if rs == [] then map[] else Judged(s, ItemsAfter(s, rs[..|rs| - 1]), rs[|rs| - 1]).1
  }

  function OutcomeAt(s: Settings, rs: seq<Request>, i: nat): Outcome
    requires i < |rs|
  {
    Judged(s, ItemsAfter(s, rs[..i]), rs[i]).0
  }

  /** The clock never goes back, and at most `delay` passes between the two readings of a request. */
  ghost predicate Timed(rs: seq<Request>, delay: real) {
    && (forall i | 0 <= i < |rs| :: rs[i].freshAt <= rs[i].storeAt <= rs[i].freshAt + delay)
    && (forall i, j | 0 <= i < j < |rs| :: rs[i].storeAt <= rs[j].freshAt)
  }

  ghost predicate NoReplay(s: Settings, rs: seq<Request>) {
    forall i: nat, j: nat | i < j < |rs| && OutcomeAt(s, rs, i).Handled? && OutcomeAt(s, rs, j).Handled? ::
      (rs[i].nonce, rs[i].timestamp) != (rs[j].nonce, rs[j].timestamp)
  }

  /** A handled nonce is still remembered at every later time up to its expiry, whatever was purged in between. */
  lemma {:induction false} Remembered(s: Settings, rs: seq<Request>, delay: real, i: nat, k: nat)
    requires Timed(rs, delay) && i < k <= |rs| && OutcomeAt(s, rs, i).Handled?
    requires rs[k - 1].storeAt <= rs[i].storeAt + s.ttl
    ensures var items := ItemsAfter(s, rs[..k]); rs[i].nonce in items && items[rs[i].nonce] >= rs[i].storeAt + s.ttl
    decreases k
  {
    assert rs[..k][..k - 1] == rs[..k - 1] && rs[..k][k - 1] == rs[k - 1];
    if i < k - 1 {
      assert rs[k - 2].storeAt <= rs[k - 1].freshAt;
      Remembered(s, rs, delay, i, k - 1);
    }
  }

  /** Request `i` passed every check, and its nonce was kept until `expiry`. */
  ghost predicate Kept(s: Settings, rs: seq<Request>, i: nat, nonce: string, expiry: real) {
    && i < |rs| && rs[i].nonce == nonce && expiry == rs[i].storeAt + s.ttl
    && (OutcomeAt(s, rs, i).Handled? || OutcomeAt(s, rs, i).UnknownMethod?)
  }

  /** Nothing is remembered but nonces that passed, each for one lifetime: a refused replay does not prolong it. */
  lemma {:induction false} RememberedOnce(s: Settings, rs: seq<Request>, nonce: string)
    requires nonce in ItemsAfter(s, rs)
    ensures exists i: nat :: Kept(s, rs, i, nonce, ItemsAfter(s, rs)[nonce])
  {
    var n := |rs| - 1;
    var before, items := ItemsAfter(s, rs[..n]), ItemsAfter(s, rs);
    assert OutcomeAt(s, rs, n) == Judged(s, before, rs[n]).0;
    if nonce in before && before[nonce] == items[nonce] {
      RememberedOnce(s, rs[..n], nonce);
      var i: nat :| Kept(s, rs[..n], i, nonce, before[nonce]);
      assert rs[..n][..i] == rs[..i];
      assert Kept(s, rs, i, nonce, items[nonce]);
    } else {
      assert Kept(s, rs, n, nonce, items[nonce]);
    }
  }

  lemma {:induction false} SecondIsRefused(s: Settings, rs: seq<Request>, delay: real, i: nat, j: nat)
    requires Timed(rs, delay) && s.ttl >= 2.0 * s.tolerance + delay
    requires i < j < |rs| && OutcomeAt(s, rs, i).Handled?
    requires (rs[i].nonce, rs[i].timestamp) == (rs[j].nonce, rs[j].timestamp)
    ensures !OutcomeAt(s, rs, j).Handled?
  {
    if Fresh(rs[j], s.tolerance) {
      assert Fresh(rs[i], s.tolerance);
      var ts := rs[i].timestamp[0];
      assert rs[j].storeAt <= rs[j].freshAt + delay <= ts + s.tolerance + delay;
      assert ts - s.tolerance <= rs[i].freshAt <= rs[i].storeAt;
      assert rs[j].storeAt <= rs[i].storeAt + s.ttl;
      assert rs[j - 1].storeAt <= rs[j].storeAt by {
        assert rs[j - 1].storeAt <= rs[j].freshAt;
      }
      Remembered(s, rs, delay, i, j);
    }
  }

  function Replayable(nonce: string, ts: real, freshAt: real, storeAt: real): Request {
    Request(true, true, true, true, true, nonce, [ts], freshAt, storeAt)
  }

  /** Below the bound a captured request is accepted again at the far end of its freshness window. */
  lemma {:induction false} ShortTtlReplays(s: Settings, delay: real) returns (rs: seq<Request>)
    requires s.keyLoaded && s.tolerance >= 0.0 && delay >= 0.0 && s.ttl < 2.0 * s.tolerance + delay
    ensures Timed(rs, delay) && !NoReplay(s, rs)
  {
    var ts := s.tolerance;
    var first := Replayable("n", ts, 0.0, 0.0);
    var second := Replayable("n", ts, 2.0 * ts, 2.0 * ts + delay);
    rs := [first, second];
    assert rs[..0] == [] && rs[..1] == [first] && [first][..0] == [];
    assert OutcomeAt(s, rs, 0).Handled?;
    var items := ItemsAfter(s, [first]);
    assert items["n"] == s.ttl;
    assert Unseen(items, "n", second.storeAt);
    assert OutcomeAt(s, rs, 1).Handled?;
    assert (rs[0].nonce, rs[0].timestamp) == (rs[1].nonce, rs[1].timestamp);
  }

  /**
   * Exact bound: no request is handled twice in any sequential run exactly when nonces are remembered for at least
   * twice the timestamp tolerance plus the delay between the two clock readings.
   */
  lemma {:induction false} ReplayBoundIff(s: Settings, delay: real)
    requires s.keyLoaded && s.tolerance >= 0.0 && delay >= 0.0
    ensures (forall rs: seq<Request> :: Timed(rs, delay) ==> NoReplay(s, rs)) <==> s.ttl >= 2.0 * s.tolerance + delay
  {
    if s.ttl >= 2.0 * s.tolerance + delay {
      forall rs: seq<Request> | Timed(rs, delay)
        ensures NoReplay(s, rs)
      {
        forall i: nat, j: nat | i < j < |rs| && OutcomeAt(s, rs, i).Handled? && OutcomeAt(s, rs, j).Handled?
          ensures (rs[i].nonce, rs[i].timestamp) != (rs[j].nonce, rs[j].timestamp)
        {
          if (rs[i].nonce, rs[i].timestamp) == (rs[j].nonce, rs[j].timestamp) {
            SecondIsRefused(s, rs, delay, i, j);
          }
        }
      }
    } else {
      var rs := ShortTtlReplays(s, delay);
    }
  }

  /** Which check a request fails first. */
  lemma {:induction false} OutcomeTells(s: Settings, items: Items, r: Request)
    ensures var outcome := Judged(s, items, r).0;
            var formed := r.nonEmpty && r.peerAllowed && r.wellFormed;
            var authentic := formed && s.keyLoaded && r.signed;
            var timely := |r.timestamp| == 1 && -s.tolerance <= r.timestamp[0] - r.freshAt <= s.tolerance;
            var known := r.nonce in items && items[r.nonce] >= r.storeAt;
            && (outcome == EmptyRequest <==> !r.nonEmpty)
            && (outcome == PeerDenied <==> r.nonEmpty && !r.peerAllowed)
            && (outcome == BadFormat <==> r.nonEmpty && r.peerAllowed && !r.wellFormed)
            && (outcome == NoKey <==> formed && !s.keyLoaded)
            && (outcome == BadSignature <==> formed && s.keyLoaded && !r.signed)
            && (outcome == Stale <==> authentic && !timely)
            && (outcome == Replayed <==> authentic && timely && known)
            && (outcome == UnknownMethod <==> authentic && timely && !known && !r.knownMethod)
            && (outcome == Handled <==> authentic && timely && !known && r.knownMethod)
  {
  }
}
