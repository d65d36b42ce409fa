/** Sliding-window compression of the history (agent/context_mgmt/compressor.py, compressHistory and _groupMessages). */
module Compress {
  import opened Wrappers
  import opened Messages

  // ---------------------------------------------------------------------------
  // Grouping

  function LeadingTools(ms: seq<Message>): seq<Message> {
    if StartsWithTool(ms) then [ms[0]] + LeadingTools(ms[1..]) else []
  }

  function AfterTools(ms: seq<Message>): (rest: seq<Message>)
    ensures |rest| <= |ms|
  {
    if StartsWithTool(ms) then AfterTools(ms[1..]) else ms
  }

  /** Units of the history: a tool-calls message with its tool messages, or a single message. */
  function Grouped(ms: seq<Message>): seq<seq<Message>>
    decreases |ms|
  {
    if ms == [] then []
    else if IsCalls(ms[0]) then [[ms[0]] + LeadingTools(ms[1..])] + Grouped(AfterTools(ms[1..]))
    else [[ms[0]]] + Grouped(ms[1..])
  }

  function Flatten(units: seq<seq<Message>>): seq<Message> {
    if units == [] then [] else units[0] + Flatten(units[1..])
  }

  lemma {:induction false} ToolsSplit(ms: seq<Message>)
    ensures LeadingTools(ms) + AfterTools(ms) == ms
    ensures AllTools(LeadingTools(ms)) && !StartsWithTool(AfterTools(ms))
    decreases |ms|
  {
    if StartsWithTool(ms) {
      var rest := ms[1..];
      ToolsSplit(rest);
      assert LeadingTools(ms) == [ms[0]] + LeadingTools(rest) && AfterTools(ms) == AfterTools(rest);
      Assoc([ms[0]], LeadingTools(rest), AfterTools(rest));
      assert ms == [ms[0]] + rest;
    }
  }

  lemma {:induction false} ToolsStep(run: seq<Message>, rest: seq<Message>)
    requires AllTools(run)
    ensures LeadingTools(run + rest) == run + LeadingTools(rest)
    ensures AfterTools(run + rest) == AfterTools(rest)
    decreases |run|
  {
    if run == [] {
      assert run + rest == rest;
    } else {
      ToolsStep(run[1..], rest);
      assert (run + rest)[1..] == run[1..] + rest;
    }
  }

  /** The inner loop: the run of tool messages starting at `from`. */
  method CollectTools(messages: seq<Message>, from: nat) returns (run: seq<Message>, index: nat)
    requires from <= |messages|
    ensures from <= index <= |messages|
    ensures run == LeadingTools(messages[from..])
    ensures messages[index..] == AfterTools(messages[from..])
  {
    run, index := [], from;
    while index < |messages| && messages[index].Tool?
      invariant from <= index <= |messages|
      invariant AllTools(run) && run == messages[from..index]
    {
      run := run + [messages[index]];
      index := index + 1;
    }
    assert messages[from..] == run + messages[index..];
    ToolsStep(run, messages[index..]);
    assert !StartsWithTool(messages[index..]);
  }

  lemma {:induction false} GroupedStep(ms: seq<Message>)
    requires ms != []
    ensures Grouped(ms) == if IsCalls(ms[0])
                           then [[ms[0]] + LeadingTools(ms[1..])] + Grouped(AfterTools(ms[1..]))
                           else [[ms[0]]] + Grouped(ms[1..])
  {
  }

  method GroupMessages(messages: seq<Message>) returns (grouped: seq<seq<Message>>)
    ensures grouped == Grouped(messages)
  {
    grouped := [];
    var index := 0;
    ghost var goal := Grouped(messages);
    ghost var rest := goal;
    assert messages[0..] == messages;
    while index < |messages|
      invariant index <= |messages|
      invariant rest == Grouped(messages[index..])
      invariant goal == grouped + rest
    {
      var current := messages[index];
      assert messages[index..][0] == current && messages[index..][1..] == messages[index + 1..];
      GroupedStep(messages[index..]);
      var unit := [current];
      index := index + 1;
      if IsCalls(current) {
        var run: seq<Message>;
        run, index := CollectTools(messages, index);
        unit := unit + run;
      }
      rest := Grouped(messages[index..]);
      Assoc(grouped, [unit], rest);
      grouped := grouped + [unit];
    }
    assert messages[index..] == [];
  }

  /** Grouping only cuts: the units concatenate back to the history, and none is empty. */
  lemma {:induction false} GroupedFlattens(ms: seq<Message>)
    ensures Flatten(Grouped(ms)) == ms
    ensures forall i | 0 <= i < |Grouped(ms)| :: Grouped(ms)[i] != []
    decreases |ms|
  {
    if ms != [] {
      GroupedStep(ms);
      assert ms == [ms[0]] + ms[1..];
      if IsCalls(ms[0]) {
        GroupedFlattens(AfterTools(ms[1..]));
        FlattenBlock(ms[0], ms[1..]);
      } else {
        GroupedFlattens(ms[1..]);
        FlattenStep([ms[0]], Grouped(ms[1..]));
      }
    }
  }

  lemma {:induction false} FlattenBlock(m: Message, rest: seq<Message>)
    requires Flatten(Grouped(AfterTools(rest))) == AfterTools(rest)
    ensures Flatten([[m] + LeadingTools(rest)] + Grouped(AfterTools(rest))) == [m] + rest
  {
    ToolsSplit(rest);
    FlattenStep([m] + LeadingTools(rest), Grouped(AfterTools(rest)));
    Assoc([m], LeadingTools(rest), AfterTools(rest));
  }

  lemma {:induction false} FlattenStep(unit: seq<Message>, units: seq<seq<Message>>)
    ensures Flatten([unit] + units) == unit + Flatten(units)
  {
    assert ([unit] + units)[1..] == units;
  }

  /** A unit is a tool-calls message with tool messages, or one message of another kind. */
  ghost predicate IsUnit(unit: seq<Message>) {
    unit != [] && AllTools(unit[1..]) && (IsCalls(unit[0]) || |unit| == 1)
  }

  /** Units are as small and as complete as can be: no tool message that follows a tool-calls message is cut off it. */
  ghost predicate WellCut(units: seq<seq<Message>>) {
    units != [] ==>
      && IsUnit(units[0]) && WellCut(units[1..])
      && (IsCalls(units[0][0]) && |units| > 1 ==> !StartsWithTool(units[1]))
  }

  lemma {:induction false} UnitsShape(ms: seq<Message>)
    ensures WellCut(Grouped(ms))
    ensures ms != [] ==> Grouped(ms) != [] && Grouped(ms)[0] != [] && Grouped(ms)[0][0] == ms[0]
    decreases |ms|
  {
    if ms != [] {
      GroupedStep(ms);
      ToolsSplit(ms[1..]);
      if IsCalls(ms[0]) {
        var rest, unit := AfterTools(ms[1..]), [ms[0]] + LeadingTools(ms[1..]);
        UnitsShape(rest);
        assert unit[1..] == LeadingTools(ms[1..]);
        assert ([unit] + Grouped(rest))[1..] == Grouped(rest);
      } else {
        UnitsShape(ms[1..]);
        assert [ms[0]][1..] == [];
        assert ([[ms[0]]] + Grouped(ms[1..]))[1..] == Grouped(ms[1..]);
      }
    }
  }

  lemma {:induction false} FlattenConcat(a: seq<seq<Message>>, b: seq<seq<Message>>)
    ensures Flatten(a + b) == Flatten(a) + Flatten(b)
  {
    if a == [] {
      assert a + b == b;
    } else {
      FlattenConcat(a[1..], b);
      assert (a + b)[1..] == a[1..] + b;
      Assoc(a[0], Flatten(a[1..]), Flatten(b));
    }
  }

  lemma {:induction false} FlattenEmptyIff(units: seq<seq<Message>>)
    requires forall i | 0 <= i < |units| :: units[i] != []
    ensures Flatten(units) == [] <==> units == []
  {
  }

  /** Grouping again what starts on a unit boundary finds the same units. */
  lemma {:induction false} GroupedStable(ms: seq<Message>, k: nat)
    requires k <= |Grouped(ms)|
    ensures Grouped(Flatten(Grouped(ms)[k..])) == Grouped(ms)[k..]
    decreases k
  {
    if k == 0 {
      GroupedFlattens(ms);
    } else {
      var rest := if IsCalls(ms[0]) then AfterTools(ms[1..]) else ms[1..];
      assert Grouped(ms)[1..] == Grouped(rest);
      assert Grouped(ms)[k..] == Grouped(rest)[k - 1..];
      GroupedStable(rest, k - 1);
    }
  }

  // ---------------------------------------------------------------------------
  // Compression

  function Systems(ms: seq<Message>): seq<Message> {
    if ms == [] then []
    else if ms[0].System? then [ms[0]] + Systems(ms[1..])
    else Systems(ms[1..])
  }

  function Others(ms: seq<Message>): seq<Message> {
    if ms == [] then []
    else if ms[0].System? then Others(ms[1..])
    else [ms[0]] + Others(ms[1..])
  }

  /** Characters of `str(content)`; an absent assistant text prints as `None`. */
  function Size(m: Message): nat {
    match m
    case User(c) => |c|
    case System(c) => |c|
    case Tool(_, c) => |c|
    case Assistant(Some(t), _) => |t|
    case Assistant(None, _) => |"None"|
  }

  function TotalSize(ms: seq<Message>): nat {
    if ms == [] then 0 else Size(ms[0]) + TotalSize(ms[1..])
  }

  /** Where a Python slice with index `k` cuts a list of length `n`. */
  function SliceIndex(n: nat, k: int): nat {
    if k < 0 then (if n + k < 0 then 0 else n + k)
    else if k < n then k else n
  }

  predicate Triggers(ms: seq<Message>, thresholdTokens: int) {
    TotalSize(Others(ms)) / 2 > thresholdTokens
  }

  function Cut(ms: seq<Message>, maxRecent: int): nat {
    SliceIndex(|Grouped(Others(ms))|, -maxRecent)
  }

  function CompressHistory(ms: seq<Message>, maxRecent: int, thresholdTokens: int, summarise: seq<Message> -> string)
    : seq<Message>
  {
    if ms == [] || !Triggers(ms, thresholdTokens) then ms
    else
      var units := Grouped(Others(ms));
      var cut := Cut(ms, maxRecent);
      var older := Flatten(units[..cut]);
      var recent := Flatten(units[cut..]);
      if older != [] then Systems(ms) + [System(summarise(older))] + recent
      else Systems(ms) + recent
  }

  lemma {:induction false} SystemsConcat(a: seq<Message>, b: seq<Message>)
    ensures Systems(a + b) == Systems(a) + Systems(b)
  {
    if a == [] {
      assert a + b == b;
    } else {
      SystemsConcat(a[1..], b);
      assert (a + b)[1..] == a[1..] + b;
      Assoc([a[0]], Systems(a[1..]), Systems(b));
    }
  }

  lemma {:induction false} OthersConcat(a: seq<Message>, b: seq<Message>)
    ensures Others(a + b) == Others(a) + Others(b)
  {
    if a == [] {
      assert a + b == b;
    } else {
      OthersConcat(a[1..], b);
      assert (a + b)[1..] == a[1..] + b;
      Assoc([a[0]], Others(a[1..]), Others(b));
    }
  }

  predicate NoSystems(ms: seq<Message>) {
    forall i | 0 <= i < |ms| :: !ms[i].System?
  }

  predicate OnlySystems(ms: seq<Message>) {
    forall i | 0 <= i < |ms| :: ms[i].System?
  }

  /** What the two parts are made of, message by message. */
  lemma {:induction false} PartitionSingle(m: Message)
    ensures Systems([m]) == (if m.System? then [m] else []) && Others([m]) == (if m.System? then [] else [m])
  {
    assert [m][1..] == [];
  }

  lemma {:induction false} TotalSizeConcat(a: seq<Message>, b: seq<Message>)
    ensures TotalSize(a + b) == TotalSize(a) + TotalSize(b)
  {
    if a == [] {
      assert a + b == b;
    } else {
      TotalSizeConcat(a[1..], b);
      assert (a + b)[1..] == a[1..] + b;
    }
  }

  /** Every kind of message counts with the characters of its text, a missing text with four. */
  lemma {:induction false} TotalSizeSingle(id: string, text: string, calls: seq<Call>)
    ensures TotalSize([User(text)]) == TotalSize([Tool(id, text)]) == |text|
    ensures TotalSize([Assistant(Some(text), calls)]) == |text| && TotalSize([Assistant(None, calls)]) == 4
  {
    assert TotalSize([]) == 0;
    assert [User(text)][1..] == [] && [Tool(id, text)][1..] == [];
    assert [Assistant(Some(text), calls)][1..] == [] && [Assistant(None, calls)][1..] == [];
  }

  /** Compression sets in when more than two characters per token of the threshold are there, system texts aside. */
  lemma {:induction false} CompressesIff(ms: seq<Message>, maxRecent: int, thresholdTokens: int,
                                         summarise: seq<Message> -> string)
    ensures Triggers(ms, thresholdTokens) <==> TotalSize(Others(ms)) >= 2 * (thresholdTokens + 1)
    ensures !Triggers(ms, thresholdTokens) ==> CompressHistory(ms, maxRecent, thresholdTokens, summarise) == ms
  {
  }

  lemma {:induction false} PartitionKinds(ms: seq<Message>)
    ensures OnlySystems(Systems(ms)) && NoSystems(Others(ms))
  {
    if ms != [] {
      PartitionKinds(ms[1..]);
    }
  }

  lemma {:induction false} PartitionPure(ms: seq<Message>)
    ensures NoSystems(ms) ==> Systems(ms) == [] && Others(ms) == ms
    ensures OnlySystems(ms) ==> Systems(ms) == ms && Others(ms) == []
  {
    if ms != [] {
      PartitionPure(ms[1..]);
      assert ms == [ms[0]] + ms[1..];
    }
  }

  /** The older and the recent units split the non-system messages. */
  lemma {:induction false} CutSplits(ms: seq<Message>, cut: nat)
    requires cut <= |Grouped(Others(ms))|
    ensures var units := Grouped(Others(ms));
            && Others(ms) == Flatten(units[..cut]) + Flatten(units[cut..])
            && (Flatten(units[..cut]) == [] <==> cut == 0)
            && NoSystems(Flatten(units[cut..]))
  {
    var units := Grouped(Others(ms));
    GroupedFlattens(Others(ms));
    PartitionKinds(ms);
    assert Flatten(units) == Flatten(units[..cut]) + Flatten(units[cut..]) by {
      assert units == units[..cut] + units[cut..];
      FlattenConcat(units[..cut], units[cut..]);
    }
    FlattenEmptyIff(units[..cut]);
    NoSystemsSuffix(Flatten(units[..cut]), Flatten(units[cut..]));
  }

  lemma {:induction false} NoSystemsSuffix(a: seq<Message>, b: seq<Message>)
    requires NoSystems(a + b)
    ensures NoSystems(b)
  {
    assert forall i | 0 <= i < |b| :: b[i] == (a + b)[|a| + i];
  }

  lemma {:induction false} PartitionOfParts(head: seq<Message>, recent: seq<Message>)
    requires OnlySystems(head) && NoSystems(recent)
    ensures Systems(head + recent) == head && Others(head + recent) == recent
  {
    SystemsConcat(head, recent);
    OthersConcat(head, recent);
    PartitionPure(head);
    PartitionPure(recent);
  }

  /** What compression keeps: every system message in order, plus a unit-aligned suffix of at most `maxRecent` units. */
  lemma {:induction false} CompressedShape(ms: seq<Message>, maxRecent: int, thresholdTokens: int,
                                           summarise: seq<Message> -> string)
    requires ms != [] && Triggers(ms, thresholdTokens)
    ensures var r := CompressHistory(ms, maxRecent, thresholdTokens, summarise);
            var units := Grouped(Others(ms));
            var cut := Cut(ms, maxRecent);
            && Systems(r) == Systems(ms) + (if cut == 0 then [] else [System(summarise(Flatten(units[..cut])))])
            && r == Systems(r) + Others(r)
            && Others(r) == Flatten(units[cut..])
            && Others(ms) == Flatten(units[..cut]) + Others(r)
            && Grouped(Others(r)) == units[cut..]
            && |Grouped(Others(r))| ==
               (if maxRecent == 0 || |units| <= maxRecent then |units|
                else if maxRecent > 0 then maxRecent
                else if |units| <= -maxRecent then 0 else |units| + maxRecent)
  {
    var units := Grouped(Others(ms));
    var cut := Cut(ms, maxRecent);
    CutSplits(ms, cut);
    GroupedStable(Others(ms), cut);
    PartitionKinds(ms);
    var older, recent := Flatten(units[..cut]), Flatten(units[cut..]);
    if cut == 0 {
      PartitionOfParts(Systems(ms), recent);
    } else {
      PartitionOfParts(Systems(ms) + [System(summarise(older))], recent);
    }
  }

  /** Compressing twice with the same settings equals compressing once. */
  lemma {:induction false} CompressIdempotent(ms: seq<Message>, maxRecent: int, thresholdTokens: int,
                                              summarise: seq<Message> -> string)
    requires maxRecent >= 0
    ensures var r := CompressHistory(ms, maxRecent, thresholdTokens, summarise);
            CompressHistory(r, maxRecent, thresholdTokens, summarise) == r
  {
    if ms != [] && Triggers(ms, thresholdTokens) {
      var r := CompressHistory(ms, maxRecent, thresholdTokens, summarise);
      CompressedShape(ms, maxRecent, thresholdTokens, summarise);
      if r != [] && Triggers(r, thresholdTokens) {
        assert Cut(r, maxRecent) == 0;
        CompressedShape(r, maxRecent, thresholdTokens, summarise);
        CutSplits(r, 0);
        assert Grouped(Others(r))[..0] == [];
      }
    }
  }

  /** The units compression keeps, as messages. */
  function Recent(ms: seq<Message>, maxRecent: int): seq<Message> {
    Flatten(Grouped(Others(ms))[Cut(ms, maxRecent)..])
  }

  /**
   * For any setting: a second pass changes something exactly when a negative `maxRecent` makes the slice drop the
   * oldest units, some are left after that, and those left are still too long.
   */
  lemma {:induction false} CompressIdempotentIff(ms: seq<Message>, maxRecent: int, thresholdTokens: int,
                                                 summarise: seq<Message> -> string)
    ensures var r := CompressHistory(ms, maxRecent, thresholdTokens, summarise);
            CompressHistory(r, maxRecent, thresholdTokens, summarise) == r <==>
            || maxRecent >= 0
            || |Grouped(Others(ms))| <= -maxRecent
            || !Triggers(ms, thresholdTokens)
            || !Triggers(Recent(ms, maxRecent), thresholdTokens)
  {
    if maxRecent >= 0 {
      CompressIdempotent(ms, maxRecent, thresholdTokens, summarise);
    } else if ms != [] && Triggers(ms, thresholdTokens) {
      var r := CompressHistory(ms, maxRecent, thresholdTokens, summarise);
      CompressedShape(ms, maxRecent, thresholdTokens, summarise);
      CutSplits(ms, Cut(ms, maxRecent));
      PartitionPure(Recent(ms, maxRecent));
      if r != [] && Triggers(r, thresholdTokens) {
        CompressedShape(r, maxRecent, thresholdTokens, summarise);
        assert Cut(r, maxRecent) == 0 <==> |Grouped(Others(ms))| <= -maxRecent;
      }
    }
  }

  /** Three messages, one of them dropped by each pass. */
  lemma {:induction false} NegativeRecentExample(summarise: seq<Message> -> string)
    ensures var ms := [User("aaaa"), User("bbbb"), User("cccc")];
            var r := CompressHistory(ms, -1, 0, summarise);
            CompressHistory(r, -1, 0, summarise) != r
  {
    var ms := [User("aaaa"), User("bbbb"), User("cccc")];
    assert ms[1..] == [User("bbbb"), User("cccc")] && ms[1..][1..] == [User("cccc")] && ms[1..][1..][1..] == [];
    PartitionPure(ms);
    GroupedStep(ms);
    GroupedStep(ms[1..]);
    GroupedStep(ms[1..][1..]);
    assert Grouped(ms) == [[User("aaaa")], [User("bbbb")], [User("cccc")]];
    var units := Grouped(ms)[1..];
    assert units[1..][1..] == [];
    assert Recent(ms, -1) == ms[1..];
    PartitionPure(ms[1..]);
    CompressIdempotentIff(ms, -1, 0, summarise);
  }

  // ---------------------------------------------------------------------------
  // Pairing

  lemma {:induction false} OthersCovered(ms: seq<Message>)
    ensures AnsweredIds(ms) <= AnsweredIds(Others(ms))
    ensures Covered(ms) ==> Covered(Others(ms))
  {
    if ms != [] {
      OthersCovered(ms[1..]);
      if !ms[0].System? {
        assert Others(ms)[1..] == Others(ms[1..]);
      }
    }
  }

  /** Compression never separates a tool-calls message from its answers. */
  lemma {:induction false} CompressKeepsCovered(ms: seq<Message>, maxRecent: int, thresholdTokens: int,
                                                summarise: seq<Message> -> string)
    requires Covered(ms)
    ensures Covered(CompressHistory(ms, maxRecent, thresholdTokens, summarise))
  {
    if ms != [] && Triggers(ms, thresholdTokens) {
      var r := CompressHistory(ms, maxRecent, thresholdTokens, summarise);
      CompressedShape(ms, maxRecent, thresholdTokens, summarise);
      OthersCovered(ms);
      CoveredConcat(Flatten(Grouped(Others(ms))[..Cut(ms, maxRecent)]), Others(r));
      PartitionKinds(r);
      NoCallsCovered(Systems(r));
      CoveredConcat(Systems(r), Others(r));
    }
  }

  lemma {:induction false} OthersOwned(ids: set<string>, ms: seq<Message>)
    requires Owned(ids, ms)
    ensures Owned(ids, Others(ms))
    decreases |ms|
  {
    if ms != [] {
      OthersOwned(if ms[0].Tool? then ids else Asks(ms[0]), ms[1..]);
      if ms[0].System? {
        OwnedGrows({}, ids, Others(ms[1..]));
      } else {
        assert Others(ms)[1..] == Others(ms[1..]);
      }
    }
  }

  /** Where every tool message has its call, a suffix of units starts with no tool message and keeps it so. */
  lemma {:induction false} UnitsOwned(ms: seq<Message>, k: nat)
    requires Owned({}, ms) && k <= |Grouped(ms)|
    ensures var rest := Flatten(Grouped(ms)[k..]); Owned({}, rest) && !StartsWithTool(rest)
    decreases k
  {
    if k == 0 {
      GroupedFlattens(ms);
      assert Grouped(ms)[0..] == Grouped(ms);
    } else {
      GroupedStep(ms);
      var rest := if IsCalls(ms[0]) then AfterTools(ms[1..]) else ms[1..];
      assert Grouped(ms)[k..] == Grouped(rest)[k - 1..];
      if IsCalls(ms[0]) {
        ToolsSplit(ms[1..]);
        OwnedConcat(Asks(ms[0]), LeadingTools(ms[1..]), rest);
      }
      UnitsOwned(rest, k - 1);
    }
  }

  lemma {:induction false} NoToolsOwned(ids: set<string>, ms: seq<Message>)
    requires forall m | m in ms :: !m.Tool?
    ensures Owned(ids, ms)
    decreases |ms|
  {
    if ms != [] {
      NoToolsOwned(Asks(ms[0]), ms[1..]);
    }
  }

  /** Compression leaves no tool message without its call. */
  lemma {:induction false} CompressKeepsOwned(ms: seq<Message>, maxRecent: int, thresholdTokens: int,
                                              summarise: seq<Message> -> string)
    requires Owned({}, ms)
    ensures Owned({}, CompressHistory(ms, maxRecent, thresholdTokens, summarise))
  {
    if ms != [] && Triggers(ms, thresholdTokens) {
      var r := CompressHistory(ms, maxRecent, thresholdTokens, summarise);
      CompressedShape(ms, maxRecent, thresholdTokens, summarise);
      OthersOwned({}, ms);
      UnitsOwned(Others(ms), Cut(ms, maxRecent));
      PartitionKinds(r);
      NoToolsOwned({}, Systems(r));
      OwnedConcat({}, Systems(r), Others(r));
    }
  }
}
