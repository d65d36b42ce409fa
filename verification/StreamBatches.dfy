/** Streams that close any number of batches, against the batch reader (agent/llm_providers/openai_compat.py). */
module StreamBatches {
  import opened Wrappers
  import opened Streaming

  type Buffer = map<int, Entry>

  // ---------------------------------------------------------------------------
  // Combining buffers

  function Later(a: string, b: string): string {
    if b != "" then b else a
  }

  function MergeEntry(a: Entry, b: Entry): Entry {
    Entry(Later(a.id, b.id), Later(a.name, b.name), a.arguments + b.arguments)
  }

  function Combine(a: Buffer, b: Buffer): Buffer {
    map k | k in a.Keys + b.Keys ::
      if k in a && k in b then MergeEntry(a[k], b[k]) else if k in b then b[k] else a[k]
  }

  lemma {:induction false} MergeEntryAssoc(a: Entry, b: Entry, c: Entry)
    ensures MergeEntry(MergeEntry(a, b), c) == MergeEntry(a, MergeEntry(b, c))
  {
    Assoc(a.arguments, b.arguments, c.arguments);
  }

  lemma {:induction false} CombineAssoc(a: Buffer, b: Buffer, c: Buffer)
    ensures Combine(Combine(a, b), c) == Combine(a, Combine(b, c))
  {
    var left, right := Combine(Combine(a, b), c), Combine(a, Combine(b, c));
    assert left.Keys == right.Keys == a.Keys + b.Keys + c.Keys;
    forall k | k in left ensures left[k] == right[k] {
      if k in a && k in b && k in c {
        MergeEntryAssoc(a[k], b[k], c[k]);
      }
    }
  }

  lemma {:induction false} CombineEmpty(a: Buffer)
    ensures Combine(a, map[]) == a && Combine(map[], a) == a
  {
  }

  lemma {:induction false} AbsorbCombines(m: Buffer, f: Fragment)
    ensures Absorb(m, BatchIndex(f), f) == Combine(m, Absorb(map[], BatchIndex(f), f))
  {
    assert "" + f.arguments == f.arguments;
  }

  /** Folding fragments into a buffer is combining it with what they give on their own. */
  lemma {:induction false} FoldCombines(m: Buffer, fs: seq<Fragment>)
    ensures BatchFold(m, fs) == Combine(m, BatchFold(map[], fs))
    decreases |fs|
  {
    if fs == [] {
      CombineEmpty(m);
    } else {
      var one := Absorb(map[], BatchIndex(fs[0]), fs[0]);
      FoldCombines(Absorb(m, BatchIndex(fs[0]), fs[0]), fs[1..]);
      FoldCombines(one, fs[1..]);
      AbsorbCombines(m, fs[0]);
      CombineAssoc(m, one, BatchFold(map[], fs[1..]));
    }
  }

  function CombineAll(ms: seq<Buffer>): Buffer {
    if ms == [] then map[] else Combine(CombineAll(ms[..|ms| - 1]), ms[|ms| - 1])
  }

  lemma {:induction false} CombineAllAppend(ms: seq<Buffer>, m: Buffer)
    ensures CombineAll(ms + [m]) == Combine(CombineAll(ms), m)
  {
    assert (ms + [m])[..|ms|] == ms;
  }

  /** What the batch reader merges is what the stream emitted so far combined with what is still open. */
  lemma {:induction false} MergedCombines(chunks: seq<Chunk>)
    requires ExplicitChunks(chunks)
    ensures var p := StreamProgress(chunks); Merged(chunks) == Combine(CombineAll(p.emitted), p.buffer)
  {
    if chunks == [] {
      CombineEmpty(map[]);
    } else {
      var init, c := chunks[..|chunks| - 1], chunks[|chunks| - 1];
      var p := StreamProgress(init);
      MergedCombines(init);
      BatchFoldConcat(map[], AllFragments(init), c.fragments);
      if c.fragments != [] {
        assert Explicit(chunks[|chunks| - 1].fragments);
        FoldsAgree(p.buffer, c.fragments);
        FoldCombines(Merged(init), c.fragments);
        FoldCombines(p.buffer, c.fragments);
        CombineAssoc(CombineAll(p.emitted), p.buffer, BatchFold(map[], c.fragments));
      } else {
        assert AllFragments(init) + c.fragments == AllFragments(init);
        CombineAllAppend(p.emitted, p.buffer);
        CombineEmpty(Combine(CombineAll(p.emitted), p.buffer));
      }
    }
  }

  // ---------------------------------------------------------------------------
  // The order of emission

  /** The ascending keys of each emitted buffer. */
  ghost predicate Listed(ms: seq<Buffer>, kss: seq<seq<int>>) {
    |ms| == |kss| && forall i | 0 <= i < |ms| :: SortedKeys(ms[i], kss[i])
  }

  /** The indices in the order in which their calls come out. */
  function Order(kss: seq<seq<int>>): seq<int> {
    if kss == [] then [] else Order(kss[..|kss| - 1]) + kss[|kss| - 1]
  }

  function EmittedCalls<A>(d: Decoder<A>, ms: seq<Buffer>, kss: seq<seq<int>>): seq<Assembled<A>>
    requires |ms| == |kss| && forall i | 0 <= i < |ms| :: KeysIn(ms[i], kss[i])
  {
    if ms == [] then []
    else
      var n := |ms| - 1;
      EmittedCalls(d, ms[..n], kss[..n]) + StreamCalls(d, ms[n], kss[n])
  }

  /** Where the calls of the last buffer start. */
  lemma {:induction false} LastCollected<A>(d: Decoder<A>, ms: seq<Buffer>, kss: seq<seq<int>>,
                                            calls: seq<Assembled<A>>)
    returns (n: nat)
    requires ms != [] && Listed(ms, kss) && Collected(d, ms, calls)
    ensures n <= |calls| && Collected(d, ms[..|ms| - 1], calls[..n])
    ensures calls == calls[..n] + StreamCalls(d, ms[|ms| - 1], kss[|ms| - 1])
  {
    var last := ms[|ms| - 1];
    var m: nat, ks :| EmittedFrom(d, last, calls, m, ks) && Collected(d, ms[..|ms| - 1], calls[..m]);
    SortedUnique(last, ks, kss[|ms| - 1]);
    n := m;
  }

  lemma {:induction false} CollectedInOrder<A>(d: Decoder<A>, ms: seq<Buffer>, kss: seq<seq<int>>,
                                               calls: seq<Assembled<A>>)
    requires Listed(ms, kss) && Collected(d, ms, calls)
    ensures calls == EmittedCalls(d, ms, kss)
    decreases |ms|
  {
    if ms != [] {
      var last := |ms| - 1;
      var n := LastCollected(d, ms, kss, calls);
      CollectedInOrder(d, ms[..last], kss[..last], calls[..n]);
    }
  }

  // ---------------------------------------------------------------------------
  // Indices that do not come back

  ghost function Elements(s: seq<int>): set<int> {
    set x | x in s
  }

  ghost predicate NoRepeats(s: seq<int>) {
    forall i, j | 0 <= i < j < |s| :: s[i] != s[j]
  }

  lemma {:induction false} ElementsSize(s: seq<int>)
    ensures |Elements(s)| <= |s|
    ensures |Elements(s)| == |s| <==> NoRepeats(s)
  {
    if s == [] {
      assert Elements(s) == {};
    } else {
      var init, x := s[..|s| - 1], s[|s| - 1];
      ElementsSize(init);
      assert s == init + [x];
      assert Elements(s) == Elements(init) + {x};
      if x in init {
        var i :| 0 <= i < |init| && init[i] == x;
        assert s[i] == s[|s| - 1];
        assert Elements(s) == Elements(init);
      } else {
        assert NoRepeats(s) <==> NoRepeats(init) by {
          assert forall i | 0 <= i < |init| :: s[i] == init[i] && s[i] in init;
        }
      }
    }
  }

  lemma {:induction false} SortedElements(m: Buffer, ks: seq<int>)
    requires SortedKeys(m, ks)
    ensures Elements(ks) == m.Keys && NoRepeats(ks)
  {
    forall k: int | k in Elements(ks) ensures k in m.Keys {
      var i :| 0 <= i < |ks| && ks[i] == k;
    }
    forall k: int | k in m.Keys ensures k in Elements(ks) {
      assert k in m;
    }
  }

  lemma {:induction false} OrderElements(ms: seq<Buffer>, kss: seq<seq<int>>)
    requires Listed(ms, kss)
    ensures Elements(Order(kss)) == CombineAll(ms).Keys
    decreases |ms|
  {
    if ms == [] {
      assert Elements(Order(kss)) == {};
    } else {
      var n := |ms| - 1;
      OrderElements(ms[..n], kss[..n]);
      SortedElements(ms[n], kss[n]);
      assert Elements(Order(kss)) == Elements(Order(kss[..n])) + Elements(kss[n]);
    }
  }

  lemma {:induction false} ElementsListed(m: Buffer, ks: seq<int>)
    requires Elements(ks) == m.Keys
    ensures KeysIn(m, ks)
  {
    forall i | 0 <= i < |ks| ensures ks[i] in m {
      assert ks[i] in Elements(ks);
    }
  }

  lemma {:induction false} StreamCallsConcat<A>(d: Decoder<A>, m: Buffer, a: seq<int>, b: seq<int>)
    requires KeysIn(m, a) && KeysIn(m, b)
    ensures KeysIn(m, a + b) && StreamCalls(d, m, a + b) == StreamCalls(d, m, a) + StreamCalls(d, m, b)
  {
    if a == [] {
      assert a + b == b;
    } else {
      StreamCallsConcat(d, m, a[1..], b);
      assert (a + b)[1..] == a[1..] + b;
      Assoc([StreamCall(d, m[a[0]])], StreamCalls(d, m, a[1..]), StreamCalls(d, m, b));
    }
  }

  lemma {:induction false} StreamCallsSame<A>(d: Decoder<A>, m: Buffer, m': Buffer, ks: seq<int>)
    requires KeysIn(m, ks) && KeysIn(m', ks) && forall i | 0 <= i < |ks| :: m[ks[i]] == m'[ks[i]]
    ensures StreamCalls(d, m, ks) == StreamCalls(d, m', ks)
  {
    if ks != [] {
      StreamCallsSame(d, m, m', ks[1..]);
    }
  }

  lemma {:induction false} Apart(a: seq<int>, b: seq<int>)
    requires NoRepeats(a + b)
    ensures Elements(a) !! Elements(b)
  {
    forall i, j | 0 <= i < |a| && 0 <= j < |b| ensures a[i] != b[j] {
      assert (a + b)[i] == a[i] && (a + b)[|a| + j] == b[j];
    }
  }

  /** Two buffers without a common key keep their entries. */
  lemma {:induction false} CombineApart<A>(d: Decoder<A>, a: Buffer, b: Buffer, ka: seq<int>, kb: seq<int>)
    requires Elements(ka) == a.Keys && Elements(kb) == b.Keys && NoRepeats(ka + kb)
    ensures KeysIn(a, ka) && KeysIn(b, kb) && KeysIn(Combine(a, b), ka + kb)
    ensures StreamCalls(d, Combine(a, b), ka + kb) == StreamCalls(d, a, ka) + StreamCalls(d, b, kb)
  {
    var m := Combine(a, b);
    ElementsListed(a, ka);
    ElementsListed(b, kb);
    Apart(ka, kb);
    forall i | 0 <= i < |ka| ensures ka[i] in m && m[ka[i]] == a[ka[i]] {
      assert ka[i] in Elements(ka);
    }
    forall i | 0 <= i < |kb| ensures kb[i] in m && m[kb[i]] == b[kb[i]] {
      assert kb[i] in Elements(kb);
    }
    StreamCallsConcat(d, m, ka, kb);
    StreamCallsSame(d, m, a, ka);
    StreamCallsSame(d, m, b, kb);
  }

  lemma {:induction false} NoRepeatsPrefix(a: seq<int>, b: seq<int>)
    requires NoRepeats(a + b)
    ensures NoRepeats(a)
  {
    assert forall i | 0 <= i < |a| :: (a + b)[i] == a[i];
  }

  /** If no index comes back, the emitted calls are those of the combined buffer in the order of emission. */
  lemma {:induction false} EmittedFromCombined<A>(d: Decoder<A>, ms: seq<Buffer>, kss: seq<seq<int>>)
    requires Listed(ms, kss) && NoRepeats(Order(kss))
    ensures KeysIn(CombineAll(ms), Order(kss))
    ensures EmittedCalls(d, ms, kss) == StreamCalls(d, CombineAll(ms), Order(kss))
    decreases |ms|
  {
    if ms != [] {
      var n := |ms| - 1;
      var earlier := Order(kss[..n]);
      NoRepeatsPrefix(earlier, kss[n]);
      EmittedFromCombined(d, ms[..n], kss[..n]);
      OrderElements(ms[..n], kss[..n]);
      SortedElements(ms[n], kss[n]);
      CombineApart(d, CombineAll(ms[..n]), ms[n], earlier, kss[n]);
    }
  }

  lemma {:induction false} EmittedSize<A>(d: Decoder<A>, ms: seq<Buffer>, kss: seq<seq<int>>)
    requires Listed(ms, kss)
    ensures |EmittedCalls(d, ms, kss)| == |Order(kss)|
    decreases |ms|
  {
    if ms != [] {
      var n := |ms| - 1;
      EmittedSize(d, ms[..n], kss[..n]);
      StreamCallIds(d, ms[n], kss[n]);
    }
  }

  // ---------------------------------------------------------------------------
  // Agreement

  lemma {:induction false} StreamCallIds<A>(d: Decoder<A>, m: Buffer, ks: seq<int>)
    requires KeysIn(m, ks)
    ensures |StreamCalls(d, m, ks)| == |ks|
    ensures forall i | 0 <= i < |ks| :: StreamCalls(d, m, ks)[i].id == m[ks[i]].id
  {
    if ks != [] {
      StreamCallIds(d, m, ks[1..]);
      assert forall i | 0 < i < |ks| :: ks[i] == ks[1..][i - 1];
    }
  }

  lemma {:induction false} BatchCallIds<A>(d: Decoder<A>, m: Buffer, ks: seq<int>)
    requires KeysIn(m, ks)
    ensures |BatchCalls(d, m, ks)| <= |ks|
    ensures |BatchCalls(d, m, ks)| == |ks| ==> forall i | 0 <= i < |ks| :: BatchCalls(d, m, ks)[i].id == m[ks[i]].id
  {
    if ks != [] {
      BatchCallIds(d, m, ks[1..]);
      assert forall i | 0 < i < |ks| :: ks[i] == ks[1..][i - 1];
    }
  }

  /** Different calls have different ids. */
  ghost predicate DistinctIds(m: Buffer, ks: seq<int>)
    requires KeysIn(m, ks)
  {
    forall i, j | 0 <= i < |ks| && 0 <= j < |ks| && i != j :: m[ks[i]].id != m[ks[j]].id
  }

  lemma {:induction false} SameIdsSameOrder<A>(d: Decoder<A>, m: Buffer, ks: seq<int>, order: seq<int>)
    requires SortedKeys(m, ks) && KeysIn(m, order) && DistinctIds(m, ks)
    requires StreamCalls(d, m, order) == BatchCalls(d, m, ks) && |order| == |ks|
    ensures order == ks
  {
    StreamCallIds(d, m, order);
    BatchCallIds(d, m, ks);
    forall i | 0 <= i < |ks| ensures order[i] == ks[i] {
      var k: int := order[i];
      assert k in m;
      var j :| 0 <= j < |ks| && ks[j] == k;
      assert m[ks[j]].id == m[ks[i]].id;
    }
  }

  /** Equal calls leave room for no index that comes back. */
  lemma {:induction false} EqualCallsNoRepeats<A>(d: Decoder<A>, ms: seq<Buffer>, kss: seq<seq<int>>, ks: seq<int>)
    requires Listed(ms, kss) && SortedKeys(CombineAll(ms), ks)
    requires EmittedCalls(d, ms, kss) == BatchCalls(d, CombineAll(ms), ks)
    ensures NoRepeats(Order(kss)) && |Order(kss)| == |ks|
  {
    EmittedSize(d, ms, kss);
    BatchCallIds(d, CombineAll(ms), ks);
    OrderElements(ms, kss);
    SortedElements(CombineAll(ms), ks);
    ElementsSize(ks);
    ElementsSize(Order(kss));
  }

  lemma {:induction false} AscendingOrderSorted(ms: seq<Buffer>, kss: seq<seq<int>>)
    requires Listed(ms, kss) && Ascending(Order(kss))
    ensures SortedKeys(CombineAll(ms), Order(kss)) && NoRepeats(Order(kss))
  {
    OrderElements(ms, kss);
    ElementsListed(CombineAll(ms), Order(kss));
    assert forall k | k in CombineAll(ms) :: k in Elements(Order(kss));
  }

  /**
   * For every stream with explicit indices and distinct call ids that closes all its batches, however many: both
   * readers give the same calls exactly when the indices come out in ascending order over the whole stream, none of
   * them twice, and every call is named with arguments that are absent or decode.
   */
  lemma {:induction false} ClosedStreamMatchesIff<A>(d: Decoder<A>, chunks: seq<Chunk>, kss: seq<seq<int>>,
                                                     streamed: seq<Assembled<A>>, ks: seq<int>)
    requires ExplicitChunks(chunks) && d.parse("").None? && StreamProgress(chunks).buffer == map[]
    requires Collected(d, StreamProgress(chunks).emitted, streamed) && Listed(StreamProgress(chunks).emitted, kss)
    requires SortedKeys(Merged(chunks), ks) && DistinctIds(Merged(chunks), ks)
    ensures streamed == BatchCalls(d, Merged(chunks), ks) <==>
            Ascending(Order(kss)) && forall i | 0 <= i < |ks| :: SameCall(d, Merged(chunks)[ks[i]])
  {
    var ms, m := StreamProgress(chunks).emitted, Merged(chunks);
    MergedCombines(chunks);
    CombineEmpty(CombineAll(ms));
    CollectedInOrder(d, ms, kss, streamed);
    CallsAgreeIff(d, m, ks);
    if streamed == BatchCalls(d, m, ks) {
      EqualCallsNoRepeats(d, ms, kss, ks);
      EmittedFromCombined(d, ms, kss);
      SameIdsSameOrder(d, m, ks, Order(kss));
    }
    if Ascending(Order(kss)) {
      AscendingOrderSorted(ms, kss);
      SortedUnique(m, Order(kss), ks);
      EmittedFromCombined(d, ms, kss);
    }
  }
}
