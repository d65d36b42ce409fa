/**
 * Assembly of tool calls and text from a model's event stream: incrementally (agent/llm_providers/openai_compat.py,
 * chatStream and _parseStreamChunk) and as a batch (agent/llm_providers/sse_parser.py, mergeSseDeltas).
 */
module Streaming {
  import opened Wrappers
  import opened Sets

  /** A piece of a tool call; a blank text stands for an absent field. */
  datatype Fragment = Fragment(index: Option<int>, id: string, name: string, arguments: string)

  /** The `data:` payload of one event, decoded. */
  datatype Chunk = Chunk(content: string, fragments: seq<Fragment>, finish: string)

  datatype Entry = Entry(id: string, name: string, arguments: string)

  datatype Assembled<A> = Assembled(id: string, name: string, args: A)

  /** JSON decoding of argument texts: `raw` is how the batch keeps a text that does not decode. */
  datatype Decoder<!A> = Decoder(parse: string -> Option<A>, empty: A, raw: string -> A)

  // ---------------------------------------------------------------------------
  // Accumulation

  function Absorb(m: map<int, Entry>, index: int, f: Fragment): map<int, Entry> {
    var e := if index in m then m[index] else Entry("", "", "");
    var id, name := if f.id != "" then f.id else e.id, if f.name != "" then f.name else e.name;
    m[index := Entry(id, name, e.arguments + f.arguments)]
  }

  /** Without an explicit index the batch falls back to 0 and the stream to the buffer's size. */
  function BatchIndex(f: Fragment): int {
    if f.index.Some? then f.index.value else 0
  }

  function StreamIndex(m: map<int, Entry>, f: Fragment): int {
    if f.index.Some? then f.index.value else |m|
  }

  function BatchFold(m: map<int, Entry>, fs: seq<Fragment>): map<int, Entry>
    decreases fs
  {
    if fs == [] then m else BatchFold(Absorb(m, BatchIndex(fs[0]), fs[0]), fs[1..])
  }

  function StreamFold(m: map<int, Entry>, fs: seq<Fragment>): map<int, Entry>
    decreases fs
  {
    if fs == [] then m else StreamFold(Absorb(m, StreamIndex(m, fs[0]), fs[0]), fs[1..])
  }

  predicate Explicit(fs: seq<Fragment>) {
    forall i | 0 <= i < |fs| :: fs[i].index.Some?
  }

  lemma {:induction false} FoldsAgree(m: map<int, Entry>, fs: seq<Fragment>)
    requires Explicit(fs)
    ensures StreamFold(m, fs) == BatchFold(m, fs)
    decreases fs
  {
    if fs != [] {
      FoldsAgree(Absorb(m, BatchIndex(fs[0]), fs[0]), fs[1..]);
    }
  }

  lemma {:induction false} BatchFoldConcat(m: map<int, Entry>, a: seq<Fragment>, b: seq<Fragment>)
    ensures BatchFold(m, a + b) == BatchFold(BatchFold(m, a), b)
    decreases a
  {
    if a == [] {
      assert a + b == b;
    } else {
      BatchFoldConcat(Absorb(m, BatchIndex(a[0]), a[0]), a[1..], b);
      assert (a + b)[1..] == a[1..] + b;
    }
  }

  lemma {:induction false} BatchFoldKeys(m: map<int, Entry>, fs: seq<Fragment>)
    ensures m.Keys <= BatchFold(m, fs).Keys
    ensures fs != [] ==> BatchFold(m, fs) != map[] && BatchIndex(fs[0]) in BatchFold(m, fs)
    decreases fs
  {
    if fs != [] {
      var m' := Absorb(m, BatchIndex(fs[0]), fs[0]);
      BatchFoldKeys(m', fs[1..]);
      assert BatchIndex(fs[0]) in BatchFold(m, fs);
    }
  }

  /** The fragments of one index. */
  function ForIndex(fs: seq<Fragment>, k: int): seq<Fragment> {
    if fs == [] then []
    else if BatchIndex(fs[0]) == k then [fs[0]] + ForIndex(fs[1..], k)
    else ForIndex(fs[1..], k)
  }

  /** The last text that is not blank. */
  function LastFilled(texts: seq<string>): string {
    if texts == [] then ""
    else if texts[|texts| - 1] != "" then texts[|texts| - 1]
    else LastFilled(texts[..|texts| - 1])
  }

  function Joined(texts: seq<string>): string {
    if texts == [] then "" else Joined(texts[..|texts| - 1]) + texts[|texts| - 1]
  }

  function Ids(fs: seq<Fragment>): seq<string> {
    seq(|fs|, i requires 0 <= i < |fs| => fs[i].id)
  }

  function Names(fs: seq<Fragment>): seq<string> {
    seq(|fs|, i requires 0 <= i < |fs| => fs[i].name)
  }

  function Arguments(fs: seq<Fragment>): seq<string> {
    seq(|fs|, i requires 0 <= i < |fs| => fs[i].arguments)
  }

  lemma {:induction false} ForIndexAppend(fs: seq<Fragment>, f: Fragment, k: int)
    ensures ForIndex(fs + [f], k) == if BatchIndex(f) == k then ForIndex(fs, k) + [f] else ForIndex(fs, k)
  {
    if fs == [] {
      assert fs + [f] == [f] && [f][1..] == [];
    } else {
      ForIndexAppend(fs[1..], f, k);
      assert (fs + [f])[1..] == fs[1..] + [f];
    }
  }

  lemma {:induction false} TextsAppend(fs: seq<Fragment>, f: Fragment)
    ensures LastFilled(Ids(fs + [f])) == if f.id != "" then f.id else LastFilled(Ids(fs))
    ensures LastFilled(Names(fs + [f])) == if f.name != "" then f.name else LastFilled(Names(fs))
    ensures Joined(Arguments(fs + [f])) == Joined(Arguments(fs)) + f.arguments
  {
    assert Ids(fs + [f])[..|fs|] == Ids(fs);
    assert Names(fs + [f])[..|fs|] == Names(fs);
    assert Arguments(fs + [f])[..|fs|] == Arguments(fs);
  }

  /** A call merged from fragments has the last id and name given for its index and all its argument pieces in order. */
  lemma {:induction false} MergedEntry(fs: seq<Fragment>, k: int)
    ensures var own, m := ForIndex(fs, k), BatchFold(map[], fs);
            if own == [] then k !in m
            else k in m && m[k] == Entry(LastFilled(Ids(own)), LastFilled(Names(own)), Joined(Arguments(own)))
    decreases |fs|
  {
    if fs != [] {
      var init, f := fs[..|fs| - 1], fs[|fs| - 1];
      assert fs == init + [f];
      MergedEntry(init, k);
      ForIndexAppend(init, f, k);
      TextsAppend(ForIndex(init, k), f);
      BatchFoldConcat(map[], init, [f]);
      assert [f][1..] == [];
      assert BatchFold(map[], fs) == Absorb(BatchFold(map[], init), BatchIndex(f), f);
    }
  }

  /** Two fragments without an index: the batch reader sees one call, the stream two. */
  lemma {:induction false} ImplicitIndexExample(f: Fragment, g: Fragment)
    requires f.index.None? && g.index.None?
    ensures BatchFold(map[], [f, g]).Keys == {0} && StreamFold(map[], [f, g]).Keys == {0, 1}
  {
    assert [f, g][1..] == [g] && [g][1..] == [];
    var m := Absorb(map[], 0, f);
    assert m.Keys == {0} && |m| == 1;
    assert BatchFold(map[], [f, g]) == BatchFold(Absorb(m, 0, g), []);
    assert StreamFold(map[], [f, g]) == StreamFold(Absorb(m, 1, g), []);
  }

  /** Cutting an argument text into two fragments changes nothing, wherever it happens in the stream. */
  lemma {:induction false} SplitArguments(before: seq<Fragment>, f: Fragment, x: string, y: string,
                                          after: seq<Fragment>)
    requires f.index.Some? && f.arguments == x + y
    ensures BatchFold(map[], before + [f] + after) ==
            BatchFold(map[], before + [f.(arguments := x), Fragment(f.index, "", "", y)] + after)
  {
    var two := [f.(arguments := x), Fragment(f.index, "", "", y)];
    var m := BatchFold(map[], before);
    BatchFoldConcat(map[], before, [f]);
    BatchFoldConcat(map[], before, two);
    BatchFoldConcat(map[], before + [f], after);
    BatchFoldConcat(map[], before + two, after);
    assert [f][1..] == [];
    assert two[1..] == [two[1]] && two[1..][1..] == [];
    var e := if f.index.value in m then m[f.index.value] else Entry("", "", "");
    assert e.arguments + (x + y) == e.arguments + x + y;
    assert BatchFold(m, [f]) == Absorb(m, f.index.value, f);
    var m1 := Absorb(m, f.index.value, two[0]);
    assert BatchFold(m, two) == BatchFold(m1, [two[1]]) == Absorb(m1, f.index.value, two[1]);
    assert Absorb(m1, f.index.value, two[1]) == Absorb(m, f.index.value, f);
  }

  // ---------------------------------------------------------------------------
  // Emission in index order

  ghost predicate Ascending(ks: seq<int>) {
    forall i, j | 0 <= i < j < |ks| :: ks[i] < ks[j]
  }

  predicate KeysIn(m: map<int, Entry>, ks: seq<int>) {
    forall i | 0 <= i < |ks| :: ks[i] in m
  }

  ghost predicate SortedKeys(m: map<int, Entry>, ks: seq<int>) {
    Ascending(ks) && KeysIn(m, ks) && forall k | k in m :: k in ks
  }

  /** Every element of the one list is in the other. */
  ghost predicate Within(a: seq<int>, b: seq<int>) {
    forall i | 0 <= i < |a| :: a[i] in b
  }

  lemma {:induction false} SameFirst(a: seq<int>, b: seq<int>)
    requires Ascending(a) && Ascending(b) && Within(a, b) && Within(b, a)
    ensures a == [] <==> b == []
    ensures a != [] ==> a[0] == b[0]
  {
    if a != [] {
      var i :| 0 <= i < |b| && b[i] == a[0];
      var j :| 0 <= j < |a| && a[j] == b[0];
    }
  }

  lemma {:induction false} RestWithin(a: seq<int>, b: seq<int>)
    requires Ascending(a) && a != [] && b != [] && a[0] == b[0] && Within(a, b)
    ensures Ascending(a[1..]) && Within(a[1..], b[1..])
  {
    var rest := a[1..];
    forall i | 0 <= i < |rest| ensures rest[i] in b[1..] {
      var j :| 0 <= j < |b| && b[j] == a[i + 1];
      assert j > 0 && b[1..][j - 1] == rest[i];
    }
  }

  lemma {:induction false} AscendingUnique(a: seq<int>, b: seq<int>)
    requires Ascending(a) && Ascending(b) && Within(a, b) && Within(b, a)
    ensures a == b
    decreases |a|
  {
    SameFirst(a, b);
    if a != [] {
      RestWithin(a, b);
      RestWithin(b, a);
      AscendingUnique(a[1..], b[1..]);
      assert a == [a[0]] + a[1..] && b == [b[0]] + b[1..];
    }
  }

  lemma {:induction false} KeysWithin(m: map<int, Entry>, a: seq<int>, b: seq<int>)
    requires SortedKeys(m, a) && SortedKeys(m, b)
    ensures Within(a, b)
  {
    forall i | 0 <= i < |a| ensures a[i] in b {
      var k: int := a[i];
      assert k in m;
    }
  }

  /** There is only one ascending list of the keys. */
  lemma {:induction false} SortedUnique(m: map<int, Entry>, a: seq<int>, b: seq<int>)
    requires SortedKeys(m, a) && SortedKeys(m, b)
    ensures a == b
  {
    KeysWithin(m, a, b);
    KeysWithin(m, b, a);
    AscendingUnique(a, b);
  }

  method Sorted(m: map<int, Entry>) returns (ks: seq<int>)
    ensures SortedKeys(m, ks)
  {
    ks := [];
    var left := m.Keys;
    while left != {}
      invariant left <= m.Keys
      invariant Ascending(ks) && KeysIn(m, ks)
      invariant forall k | k in m :: k in ks || k in left
      invariant forall i, l | 0 <= i < |ks| && l in left :: ks[i] < l
      decreases |left|
    {
      var least := Least(left);
      ks := ks + [least];
      left := left - {least};
    }
  }

  method Least(s: set<int>) returns (least: int)
    requires s != {}
    ensures least in s && forall k | k in s :: least <= k
  {
    least := Pick(s);
    var left := s - {least};
    while left != {}
      invariant least in s && left <= s
      invariant forall k | k in s && k !in left :: least <= k
      decreases |left|
    {
      var k := Pick(left);
      if k < least {
        least := k;
      }
      left := left - {k};
    }
  }

  function StreamCall<A>(d: Decoder<A>, e: Entry): Assembled<A> {
    var parsed := d.parse(e.arguments);
    Assembled(e.id, e.name, if parsed.Some? then parsed.value else d.empty)
  }

  function BatchCall<A>(d: Decoder<A>, e: Entry): Assembled<A> {
    var parsed := d.parse(e.arguments);
    var args := if e.arguments == "" then d.empty else if parsed.Some? then parsed.value else d.raw(e.arguments);
    Assembled(e.id, e.name, args)
  }

  predicate Named(e: Entry) {
    e.id != "" && e.name != ""
  }

  function StreamCalls<A>(d: Decoder<A>, m: map<int, Entry>, ks: seq<int>): seq<Assembled<A>>
    requires KeysIn(m, ks)
  {
    if ks == [] then [] else [StreamCall(d, m[ks[0]])] + StreamCalls(d, m, ks[1..])
  }

  /** The batch leaves out calls without an id or a name. */
  function BatchCalls<A>(d: Decoder<A>, m: map<int, Entry>, ks: seq<int>): seq<Assembled<A>>
    requires KeysIn(m, ks)
  {
    if ks == [] then []
    else if Named(m[ks[0]]) then [BatchCall(d, m[ks[0]])] + BatchCalls(d, m, ks[1..])
    else BatchCalls(d, m, ks[1..])
  }

  /** Both readers make the same call of the entry: it is named, and its arguments are absent or decode. */
  ghost predicate SameCall<A>(d: Decoder<A>, e: Entry) {
    Named(e) && (e.arguments == "" || d.parse(e.arguments).Some? || d.raw(e.arguments) == d.empty)
  }

  lemma {:induction false} CallsAgreeIff<A>(d: Decoder<A>, m: map<int, Entry>, ks: seq<int>)
    requires KeysIn(m, ks) && d.parse("").None?
    ensures |StreamCalls(d, m, ks)| == |ks| && |BatchCalls(d, m, ks)| <= |ks|
    ensures StreamCalls(d, m, ks) == BatchCalls(d, m, ks) <==> forall i | 0 <= i < |ks| :: SameCall(d, m[ks[i]])
  {
    if ks != [] {
      var e, rest := m[ks[0]], ks[1..];
      CallsAgreeIff(d, m, rest);
      assert forall i | 0 < i < |ks| :: ks[i] == rest[i - 1];
      if Named(e) {
        var x, xs, y, ys := StreamCall(d, e), StreamCalls(d, m, rest), BatchCall(d, e), BatchCalls(d, m, rest);
        assert [x] + xs == [y] + ys <==> x == y && xs == ys by {
          assert ([x] + xs)[0] == x && ([x] + xs)[1..] == xs && ([y] + ys)[0] == y && ([y] + ys)[1..] == ys;
        }
        assert x == y <==> SameCall(d, e);
      } else {
        assert !SameCall(d, m[ks[0]]);
      }
    }
  }

  /** The call has the entry's id and name, with its arguments decoded, or the fallback if they cannot be. */
  ghost predicate Tells<A>(d: Decoder<A>, e: Entry, c: Assembled<A>, fallback: A) {
    && c.id == e.id && c.name == e.name
    && c.args == if d.parse(e.arguments).Some? then d.parse(e.arguments).value else fallback
  }

  /** The streaming reader tells every entry, in key order. */
  lemma {:induction false} StreamCallsTell<A>(d: Decoder<A>, m: map<int, Entry>, ks: seq<int>, i: nat)
    requires KeysIn(m, ks) && i < |ks|
    ensures |StreamCalls(d, m, ks)| == |ks| && Tells(d, m[ks[i]], StreamCalls(d, m, ks)[i], d.empty)
  {
    if |ks| > 1 {
      StreamCallsTell(d, m, ks[1..], if i == 0 then 0 else i - 1);
    }
  }

  /** What the batch reader makes of an entry: nothing without an id or a name, else one call. */
  ghost predicate TellsBatch<A>(d: Decoder<A>, e: Entry, c: Assembled<A>) {
    e.id != "" && e.name != "" && Tells(d, e, c, if e.arguments == "" then d.empty else d.raw(e.arguments))
  }

  lemma {:induction false} NamedIsTold<A>(d: Decoder<A>, m: map<int, Entry>, ks: seq<int>, i: nat)
    returns (c: Assembled<A>)
    requires KeysIn(m, ks) && i < |ks| && m[ks[i]].id != "" && m[ks[i]].name != "" && d.parse("").None?
    ensures c in BatchCalls(d, m, ks) && TellsBatch(d, m[ks[i]], c)
  {
    if i == 0 {
      c := BatchCall(d, m[ks[0]]);
    } else {
      c := NamedIsTold(d, m, ks[1..], i - 1);
    }
  }

  lemma {:induction false} ToldIsNamed<A>(d: Decoder<A>, m: map<int, Entry>, ks: seq<int>, c: Assembled<A>)
    returns (i: nat)
    requires KeysIn(m, ks) && c in BatchCalls(d, m, ks) && d.parse("").None?
    ensures i < |ks| && TellsBatch(d, m[ks[i]], c)
  {
    if c in BatchCalls(d, m, ks[1..]) {
      i := ToldIsNamed(d, m, ks[1..], c);
      i := i + 1;
    } else {
      i := 0;
    }
  }

  /** The batch reader tells exactly the entries with an id and a name. */
  lemma {:induction false} BatchCallsTell<A>(d: Decoder<A>, m: map<int, Entry>, ks: seq<int>)
    requires KeysIn(m, ks) && d.parse("").None?
    ensures forall c | c in BatchCalls(d, m, ks) :: exists i :: 0 <= i < |ks| && TellsBatch(d, m[ks[i]], c)
    ensures forall i | 0 <= i < |ks| && m[ks[i]].id != "" && m[ks[i]].name != "" ::
              exists c :: c in BatchCalls(d, m, ks) && TellsBatch(d, m[ks[i]], c)
  {
    forall c | c in BatchCalls(d, m, ks) ensures exists i :: 0 <= i < |ks| && TellsBatch(d, m[ks[i]], c) {
      var i := ToldIsNamed(d, m, ks, c);
    }
    forall i | 0 <= i < |ks| && m[ks[i]].id != "" && m[ks[i]].name != ""
      ensures exists c :: c in BatchCalls(d, m, ks) && TellsBatch(d, m[ks[i]], c)
    {
      var c := NamedIsTold(d, m, ks, i);
    }
  }

  lemma {:induction false} NoCallsIff<A>(d: Decoder<A>, m: map<int, Entry>, ks: seq<int>)
    requires KeysIn(m, ks)
    ensures BatchCalls(d, m, ks) == [] <==> forall i | 0 <= i < |ks| :: !Named(m[ks[i]])
  {
    if ks != [] {
      var rest := ks[1..];
      NoCallsIff(d, m, rest);
      assert forall i | 0 < i < |ks| :: ks[i] == rest[i - 1];
    }
  }

  // ---------------------------------------------------------------------------
  // The two readers

  function AllFragments(chunks: seq<Chunk>): seq<Fragment> {
    if chunks == [] then [] else AllFragments(chunks[..|chunks| - 1]) + chunks[|chunks| - 1].fragments
  }

  function Merged(chunks: seq<Chunk>): map<int, Entry> {
    BatchFold(map[], AllFragments(chunks))
  }

  function BatchText(chunks: seq<Chunk>): string {
    if chunks == [] then "" else BatchText(chunks[..|chunks| - 1]) + chunks[|chunks| - 1].content
  }

  /** The stream drops the text of a chunk that carries fragments. */
  function StreamText(chunks: seq<Chunk>): string {
    if chunks == [] then ""
    else
      var before, c := StreamText(chunks[..|chunks| - 1]), chunks[|chunks| - 1];
      before + (if c.fragments == [] then c.content else "")
  }

  predicate Closing(c: Chunk) {
    c.fragments == [] && c.finish == "tool_calls"
  }

  /** The buffer after a chunk, and the buffers emitted so far. */
  datatype Progress = Progress(buffer: map<int, Entry>, emitted: seq<map<int, Entry>>)

  function Advance(p: Progress, c: Chunk): Progress {
    if c.fragments != [] then p.(buffer := StreamFold(p.buffer, c.fragments))
    else if Closing(c) && p.buffer != map[] then Progress(map[], p.emitted + [p.buffer])
    else p
  }

  function StreamProgress(chunks: seq<Chunk>): Progress {
    if chunks == [] then Progress(map[], [])
    else Advance(StreamProgress(chunks[..|chunks| - 1]), chunks[|chunks| - 1])
  }

  ghost predicate EmittedFrom<A>(d: Decoder<A>, m: map<int, Entry>, calls: seq<Assembled<A>>, n: nat, ks: seq<int>) {
    n <= |calls| && SortedKeys(m, ks) && calls[n..] == StreamCalls(d, m, ks)
  }

  /** What the consumer has collected: the calls of the emitted buffers, each in index order. */
  ghost predicate Collected<A>(d: Decoder<A>, emitted: seq<map<int, Entry>>, calls: seq<Assembled<A>>)
    decreases |emitted|
  {
    if emitted == [] then calls == []
    else
      var last := emitted[|emitted| - 1];
      exists n: nat, ks :: EmittedFrom(d, last, calls, n, ks) && Collected(d, emitted[..|emitted| - 1], calls[..n])
  }

  method MergeSseDeltas<A>(d: Decoder<A>, events: seq<Chunk>)
    returns (content: string, calls: seq<Assembled<A>>, ghost ks: seq<int>)
    ensures content == BatchText(events)
    ensures SortedKeys(Merged(events), ks) && calls == BatchCalls(d, Merged(events), ks)
  {
    content := "";
    var toolCalls: map<int, Entry> := map[];
    for i := 0 to |events|
      invariant content == BatchText(events[..i])
      invariant toolCalls == Merged(events[..i])
    {
      var ev := events[i];
      assert events[..i + 1][..i] == events[..i];
      if ev.content != "" {
        content := content + ev.content;
      }
      assert ev.content == "" ==> content + ev.content == content;
      BatchFoldConcat(map[], AllFragments(events[..i]), ev.fragments);
      toolCalls := AbsorbAll(toolCalls, ev.fragments);
    }
    assert events[..|events|] == events;
    var order := Sorted(toolCalls);
    ks := order;
    calls := [];
    assert order[..0] == [];
    for i := 0 to |order|
      invariant calls + BatchCalls(d, toolCalls, order[i..]) == BatchCalls(d, toolCalls, order)
    {
      assert order[i..][0] == order[i] && order[i..][1..] == order[i + 1..];
      assert order[i] in order;
      var tc := toolCalls[order[i]];
      if tc.id != "" && tc.name != "" {
        Assoc(calls, [BatchCall(d, tc)], BatchCalls(d, toolCalls, order[i + 1..]));
        calls := calls + [BatchCall(d, tc)];
      }
    }
    assert order[|order|..] == [];
  }

  method AbsorbAll(start: map<int, Entry>, fragments: seq<Fragment>) returns (m: map<int, Entry>)
    ensures m == BatchFold(start, fragments)
  {
    m := start;
    assert fragments[0..] == fragments;
    for i := 0 to |fragments|
      invariant BatchFold(start, fragments) == BatchFold(m, fragments[i..])
    {
      var f := fragments[i];
      assert fragments[i..][0] == f && fragments[i..][1..] == fragments[i + 1..];
      var index := if f.index.Some? then f.index.value else 0;
      m := Absorb(m, index, f);
    }
    assert fragments[|fragments|..] == [];
  }

  /** The accumulator of `_parseStreamChunk`. */
  method AbsorbStream(start: map<int, Entry>, fragments: seq<Fragment>) returns (m: map<int, Entry>)
    ensures m == StreamFold(start, fragments)
  {
    m := start;
    assert fragments[0..] == fragments;
    for i := 0 to |fragments|
      invariant StreamFold(start, fragments) == StreamFold(m, fragments[i..])
    {
      var f := fragments[i];
      assert fragments[i..][0] == f && fragments[i..][1..] == fragments[i + 1..];
      var index := if f.index.Some? then f.index.value else |m|;
      m := Absorb(m, index, f);
    }
    assert fragments[|fragments|..] == [];
  }

  method EmitCalls<A>(d: Decoder<A>, m: map<int, Entry>) returns (calls: seq<Assembled<A>>, ghost ks: seq<int>)
    ensures SortedKeys(m, ks) && calls == StreamCalls(d, m, ks)
  {
    var order := Sorted(m);
    ks := order;
    calls := [];
    assert order[0..] == order;
    for i := 0 to |order|
      invariant calls + StreamCalls(d, m, order[i..]) == StreamCalls(d, m, order)
    {
      assert order[i..][0] == order[i] && order[i..][1..] == order[i + 1..];
      assert order[i] in order;
      Assoc(calls, [StreamCall(d, m[order[i]])], StreamCalls(d, m, order[i + 1..]));
      calls := calls + [StreamCall(d, m[order[i]])];
    }
    assert order[|order|..] == [];
  }

  /** The consumer loop together with the loop that collects what it yields. */
  method ChatStream<A>(d: Decoder<A>, chunks: seq<Chunk>) returns (content: string, calls: seq<Assembled<A>>)
    ensures content == StreamText(chunks)
    ensures Collected(d, StreamProgress(chunks).emitted, calls)
  {
    content, calls := "", [];
    var tcBuffer: map<int, Entry> := map[];
    for i := 0 to |chunks|
      invariant content == StreamText(chunks[..i])
      invariant tcBuffer == StreamProgress(chunks[..i]).buffer
      invariant Collected(d, StreamProgress(chunks[..i]).emitted, calls)
    {
      var c := chunks[i];
      assert chunks[..i + 1][..i] == chunks[..i];
      ghost var emitted := StreamProgress(chunks[..i]).emitted;
      if c.fragments != [] {
        tcBuffer := AbsorbStream(tcBuffer, c.fragments);
        assert content + "" == content;
      } else {
        content := content + c.content;
        if c.finish == "tool_calls" && tcBuffer != map[] {
          var more, order := EmitCalls(d, tcBuffer);
          CollectMore(d, emitted, calls, tcBuffer, order, more);
          calls := calls + more;
          tcBuffer := map[];
        }
      }
    }
    assert chunks[..|chunks|] == chunks;
  }

  lemma {:induction false} CollectMore<A>(d: Decoder<A>, emitted: seq<map<int, Entry>>, calls: seq<Assembled<A>>,
                       m: map<int, Entry>, ks: seq<int>, more: seq<Assembled<A>>)
    requires Collected(d, emitted, calls) && SortedKeys(m, ks) && more == StreamCalls(d, m, ks)
    ensures Collected(d, emitted + [m], calls + more)
  {
    assert (emitted + [m])[..|emitted|] == emitted;
    var n := |calls|;
    assert (calls + more)[..n] == calls && (calls + more)[n..] == more;
    var all := emitted + [m];
    assert all[|all| - 1] == m && all[..|all| - 1] == emitted;
    assert EmittedFrom(d, all[|all| - 1], calls + more, n, ks);
    assert Collected(d, all[..|all| - 1], (calls + more)[..n]);
  }

  // ---------------------------------------------------------------------------
  // Agreement

  /** 0: no fragment seen; 1: fragments waiting for their closing chunk; 2: closed. */
  function Stage(chunks: seq<Chunk>): nat {
    if chunks == [] then 0
    else
      var before, c := Stage(chunks[..|chunks| - 1]), chunks[|chunks| - 1];
      if c.fragments != [] then 1 else if Closing(c) && before == 1 then 2 else before
  }

  /** No fragment follows a closing chunk that had something to close. */
  predicate ClosedOnce(chunks: seq<Chunk>) {
    chunks != [] ==>
      && ClosedOnce(chunks[..|chunks| - 1])
      && (chunks[|chunks| - 1].fragments != [] ==> Stage(chunks[..|chunks| - 1]) != 2)
  }

  predicate ExplicitChunks(chunks: seq<Chunk>) {
    forall i | 0 <= i < |chunks| :: Explicit(chunks[i].fragments)
  }

  lemma {:induction false} ProgressByStage(chunks: seq<Chunk>)
    requires ExplicitChunks(chunks) && ClosedOnce(chunks)
    ensures var p := StreamProgress(chunks);
            match Stage(chunks)
            case 0 => p == Progress(map[], []) && AllFragments(chunks) == []
            case 1 => p == Progress(Merged(chunks), []) && AllFragments(chunks) != []
            case _ => p == Progress(map[], [Merged(chunks)]) && AllFragments(chunks) != []
    ensures Stage(chunks) <= 2
  {
    if chunks != [] {
      var init, c := chunks[..|chunks| - 1], chunks[|chunks| - 1];
      ProgressByStage(init);
      BatchFoldConcat(map[], AllFragments(init), c.fragments);
      BatchFoldKeys(map[], AllFragments(init));
      if c.fragments != [] {
        assert Explicit(chunks[|chunks| - 1].fragments);
        FoldsAgree(StreamProgress(init).buffer, c.fragments);
      } else {
        assert AllFragments(init) + c.fragments == AllFragments(init);
      }
    }
  }

  lemma {:induction false} CollectedSingle<A>(d: Decoder<A>, m: map<int, Entry>, calls: seq<Assembled<A>>)
    returns (ks: seq<int>)
    requires Collected(d, [m], calls)
    ensures SortedKeys(m, ks) && calls == StreamCalls(d, m, ks)
  {
    assert [m][..0] == [];
    var n: nat, order :| EmittedFrom(d, m, calls, n, order) && Collected(d, [m][..0], calls[..n]);
    ks := order;
    assert n == 0;
    assert calls[0..] == calls;
  }

  /** What the calls must be for both readers to agree: nothing the batch shows if the stream's calls stay open. */
  ghost predicate CallsAgree<A>(d: Decoder<A>, chunks: seq<Chunk>, ks: seq<int>)
    requires KeysIn(Merged(chunks), ks)
  {
    forall i | 0 <= i < |ks| ::
      if Stage(chunks) == 1 then !Named(Merged(chunks)[ks[i]]) else SameCall(d, Merged(chunks)[ks[i]])
  }

  /**
   * For every stream with explicit indices and at most one closed batch, the incremental reader collects the calls
   * of the batch reader exactly when the closing chunk came and every call is named with arguments that decode, or
   * when it is missing and no call is named.
   */
  lemma {:induction false} StreamMatchesBatchIff<A>(d: Decoder<A>, chunks: seq<Chunk>, streamed: seq<Assembled<A>>,
                                                    ks: seq<int>)
    requires ExplicitChunks(chunks) && ClosedOnce(chunks) && d.parse("").None?
    requires Collected(d, StreamProgress(chunks).emitted, streamed)
    requires SortedKeys(Merged(chunks), ks)
    ensures streamed == BatchCalls(d, Merged(chunks), ks) <==> CallsAgree(d, chunks, ks)
  {
    var m := Merged(chunks);
    ProgressByStage(chunks);
    CallsAgreeIff(d, m, ks);
    NoCallsIff(d, m, ks);
    if Stage(chunks) == 2 {
      var order := CollectedSingle(d, m, streamed);
      SortedUnique(m, order, ks);
    } else if Stage(chunks) == 0 {
      assert KeysIn(map[], ks);
    }
  }

  /** One complete call whose closing chunk never comes: the batch has it, the stream has not. */
  lemma {:induction false} OpenFragmentExample<A>(d: Decoder<A>, streamed: seq<Assembled<A>>, ks: seq<int>)
    requires d.parse("").None?
    requires var chunks := [Chunk("", [Fragment(Some(0), "a", "ls", "")], "stop")];
             Collected(d, StreamProgress(chunks).emitted, streamed) && SortedKeys(Merged(chunks), ks)
    ensures var chunks := [Chunk("", [Fragment(Some(0), "a", "ls", "")], "stop")];
            streamed == [] && BatchCalls(d, Merged(chunks), ks) == [Assembled("a", "ls", d.empty)]
  {
    var f := Fragment(Some(0), "a", "ls", "");
    var chunks := [Chunk("", [f], "stop")];
    assert chunks[..0] == [] && AllFragments(chunks) == [f];
    SingleMerged(f);
    assert Stage(chunks) == 1;
    ProgressByStage(chunks);
    SortedUnique(Merged(chunks), ks, [0]);
    assert BatchCalls(d, Merged(chunks), [0][1..]) == [];
  }

  const CLOSE := Chunk("", [], "tool_calls")

  /** Two batches of one fragment each. */
  function TwoBatches(f: Fragment, g: Fragment): seq<Chunk> {
    [Chunk("", [f], "")] + [CLOSE] + [Chunk("", [g], "")] + [CLOSE]
  }

  lemma {:induction false} ProgressAppend(chunks: seq<Chunk>, c: Chunk)
    ensures StreamProgress(chunks + [c]) == Advance(StreamProgress(chunks), c)
    ensures AllFragments(chunks + [c]) == AllFragments(chunks) + c.fragments
  {
    assert (chunks + [c])[..|chunks|] == chunks;
  }

  lemma {:induction false} ProgressOfTwo(f: Fragment, g: Fragment)
    requires f.index.Some? && g.index == f.index
    ensures StreamProgress(TwoBatches(f, g)).emitted == [BatchFold(map[], [f]), BatchFold(map[], [g])]
    ensures AllFragments(TwoBatches(f, g)) == [f, g]
  {
    var c1 := [] + [Chunk("", [f], "")];
    var c2 := c1 + [CLOSE];
    var c3 := c2 + [Chunk("", [g], "")];
    ProgressAppend([], Chunk("", [f], ""));
    ProgressAppend(c1, CLOSE);
    ProgressAppend(c2, Chunk("", [g], ""));
    ProgressAppend(c3, CLOSE);
    FoldsAgree(map[], [f]);
    FoldsAgree(map[], [g]);
    BatchFoldKeys(map[], [f]);
    BatchFoldKeys(map[], [g]);
    assert c1 == [Chunk("", [f], "")];
  }

  /** When a second batch reuses an index, the stream has both calls and the batch reader merges them into one. */
  lemma {:induction false} SecondBatchMerges<A>(d: Decoder<A>, f: Fragment, g: Fragment, streamed: seq<Assembled<A>>,
                                                ks: seq<int>)
    requires f.index.Some? && g.index == f.index
    requires Collected(d, StreamProgress(TwoBatches(f, g)).emitted, streamed)
    requires SortedKeys(Merged(TwoBatches(f, g)), ks)
    ensures |streamed| == 2 && |BatchCalls(d, Merged(TwoBatches(f, g)), ks)| <= 1
  {
    var k := f.index.value;
    ProgressOfTwo(f, g);
    SingleMerged(f);
    SingleMerged(g);
    CollectedSizes(d, k, BatchFold(map[], [f]), BatchFold(map[], [g]), streamed);
    assert [f, g] == [f] + [g];
    BatchFoldConcat(map[], [f], [g]);
    assert [g][1..] == [];
    assert Merged(TwoBatches(f, g)).Keys == {k};
    SortedUnique(Merged(TwoBatches(f, g)), ks, [k]);
    assert BatchCalls(d, Merged(TwoBatches(f, g)), [k][1..]) == [];
  }

  lemma {:induction false} CollectedSizes<A>(d: Decoder<A>, k: int, first: map<int, Entry>, second: map<int, Entry>,
                          calls: seq<Assembled<A>>)
    requires first.Keys == {k} && second.Keys == {k} && Collected(d, [first, second], calls)
    ensures |calls| == 2
  {
    assert [first, second][..1] == [first];
    var n: nat, ks :| EmittedFrom(d, second, calls, n, ks) && Collected(d, [first, second][..1], calls[..n]);
    var ks' := CollectedSingle(d, first, calls[..n]);
    OneCall(d, k, second, ks);
    OneCall(d, k, first, ks');
  }

  lemma {:induction false} OneCall<A>(d: Decoder<A>, k: int, m: map<int, Entry>, ks: seq<int>)
    requires m.Keys == {k} && SortedKeys(m, ks)
    ensures |StreamCalls(d, m, ks)| == 1
  {
    SortedUnique(m, ks, [k]);
    assert StreamCalls(d, m, [k][1..]) == [];
  }

  lemma {:induction false} SingleMerged(f: Fragment)
    requires f.index.Some?
    ensures BatchFold(map[], [f]) == map[f.index.value := Entry(f.id, f.name, f.arguments)]
  {
    assert [f][1..] == [];
    assert "" + f.arguments == f.arguments;
    assert BatchFold(map[], [f]) == BatchFold(Absorb(map[], f.index.value, f), []);
  }

  /** Only the finish reason "tool_calls" brings out calls. */
  lemma {:induction false} NothingWithoutClosing(chunks: seq<Chunk>)
    requires forall i | 0 <= i < |chunks| :: chunks[i].finish != "tool_calls"
    ensures StreamProgress(chunks).emitted == []
  {
    if chunks != [] {
      var init := chunks[..|chunks| - 1];
      assert forall i | 0 <= i < |init| :: init[i] == chunks[i];
      NothingWithoutClosing(init);
    }
  }

  /** Fragments that are closed right away come out, whatever came before, and nothing is left of them. */
  lemma {:induction false} ClosingBringsOut(chunks: seq<Chunk>, c: Chunk)
    requires c.fragments == [] && c.finish == "tool_calls"
    ensures var p, q := StreamProgress(chunks), StreamProgress(chunks + [c]);
            q.buffer == map[] && q.emitted == if p.buffer == map[] then p.emitted else p.emitted + [p.buffer]
  {
    ProgressAppend(chunks, c);
  }

  /** The batch reader's text is all contents in order; the stream's leaves out those beside fragments. */
  lemma {:induction false} TextByChunk(chunks: seq<Chunk>, c: Chunk)
    ensures BatchText([]) == StreamText([]) == ""
    ensures BatchText(chunks + [c]) == BatchText(chunks) + c.content
    ensures StreamText(chunks + [c]) == StreamText(chunks) + if c.fragments == [] then c.content else ""
  {
    assert (chunks + [c])[..|chunks|] == chunks;
  }

  /** The two readers agree on the text exactly when no chunk carries fragments and text together. */
  lemma {:induction false} TextMatchesIff(chunks: seq<Chunk>)
    ensures |StreamText(chunks)| <= |BatchText(chunks)|
    ensures StreamText(chunks) == BatchText(chunks) <==>
            forall i | 0 <= i < |chunks| :: chunks[i].fragments == [] || chunks[i].content == ""
  {
    if chunks != [] {
      var init, c := chunks[..|chunks| - 1], chunks[|chunks| - 1];
      TextMatchesIff(init);
      assert forall i | 0 <= i < |init| :: init[i] == chunks[i];
      if c.fragments != [] {
        assert StreamText(chunks) == StreamText(init);
        if c.content == "" {
          assert BatchText(chunks) == BatchText(init);
        }
      } else if StreamText(chunks) == BatchText(chunks) {
        assert StreamText(init) == StreamText(chunks)[..|StreamText(init)|];
        assert BatchText(init) == BatchText(chunks)[..|BatchText(init)|];
      }
    }
  }
}
