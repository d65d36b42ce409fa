/** Removal of orphan tool-calls messages from a history (agent/context_mgmt/compressor.py, closeOrphanToolCalls). */
module Repair {
  import opened Wrappers
  import opened Messages

  /** The ids the repair loop waits for; blank ids are not tracked. */
  function TrackedIds(m: Message): set<string>
    requires m.Assistant?
  {
    set c | c in m.calls && c.id != "" :: c.id
  }

  function Responded(got: set<string>, id: string): set<string> {
    if id == "" then got else got + {id}
  }

  /** Scanning the leading tool messages, the responded ids equal the (non-empty) tracked ids at some point. */
  predicate Completes(ids: set<string>, got: set<string>, ms: seq<Message>)
    decreases ms
  {
    && StartsWithTool(ms)
    && var now := Responded(got, ms[0].id);
       (ids != {} && now == ids) || Completes(ids, now, ms[1..])
  }

  /** The tool-calls message a list starts with gets its answers. */
  predicate HeadAnswered(ms: seq<Message>)
    requires StartsWithCalls(ms)
  {
    Completes(TrackedIds(ms[0]), {}, ms[1..])
  }

  /** The first message that is not a tool message is a tool-calls message. */
  predicate CallsNext(ms: seq<Message>) {
    ms != [] && (IsCalls(ms[0]) || (ms[0].Tool? && CallsNext(ms[1..])))
  }

  /** A list starts with an unanswered tool-calls message, overlapped by another one or exposed to something else. */
  predicate OverlappedHead(ms: seq<Message>) {
    StartsWithCalls(ms) && !HeadAnswered(ms) && CallsNext(ms[1..])
  }

  predicate ExposedHead(ms: seq<Message>) {
    StartsWithCalls(ms) && !HeadAnswered(ms) && !CallsNext(ms[1..])
  }

  /** The first message that is not a tool message is an exposed orphan. */
  predicate ExposedNext(ms: seq<Message>) {
    ms != [] && (ExposedHead(ms) || (ms[0].Tool? && ExposedNext(ms[1..])))
  }

  predicate AllAnswered(ms: seq<Message>) {
    ms != [] ==> (IsCalls(ms[0]) ==> HeadAnswered(ms)) && AllAnswered(ms[1..])
  }

  predicate Overlap(ms: seq<Message>) {
    ms != [] && (OverlappedHead(ms) || Overlap(ms[1..]))
  }

  predicate Exposed(ms: seq<Message>) {
    ms != [] && (ExposedHead(ms) || Exposed(ms[1..]))
  }

  /** Some overlapped orphan is overlapped by an exposed one. */
  predicate OrphanChain(ms: seq<Message>) {
    ms != [] && ((OverlappedHead(ms) && ExposedNext(ms[1..])) || OrphanChain(ms[1..]))
  }

  /**
   * Message-wise description of the result: an exposed orphan goes together with the tool messages
   * after it (`dropping`), everything else stays.
   */
  function Filtered(ms: seq<Message>, dropping: bool): seq<Message> {
    if ms == [] then []
    else if ExposedHead(ms) || (ms[0].Tool? && dropping) then Filtered(ms[1..], true)
    else [ms[0]] + Filtered(ms[1..], false)
  }

  function Repaired(ms: seq<Message>): seq<Message> {
    Filtered(ms, false)
  }

  // ---------------------------------------------------------------------------
  // The loop

  /** No block is open: `result` is final and `rest` is still to be repaired. */
  ghost predicate Settled(goal: seq<Message>, result: seq<Message>, rest: seq<Message>) {
    goal == result + Repaired(rest)
  }

  /** `block` is an open tool-calls message with its tool messages so far; what follows decides whether it stays. */
  ghost predicate Open(goal: seq<Message>, before: seq<Message>, block: seq<Message>, rest: seq<Message>,
                       ids: set<string>, got: set<string>) {
    if Completes(ids, got, rest) || CallsNext(rest)
    then goal == before + block + Filtered(rest, false)
    else goal == before + Filtered(rest, true)
  }

  lemma {:induction false} OpenBlock(goal: seq<Message>, result: seq<Message>, m: Message, rest: seq<Message>)
    requires Settled(goal, result, [m] + rest) && IsCalls(m)
    ensures Open(goal, result, [m], rest, TrackedIds(m), {})
  {
    assert ([m] + rest)[1..] == rest;
    assert result + ([m] + Filtered(rest, false)) == result + [m] + Filtered(rest, false);
  }

  lemma {:induction false} ExtendBlock(goal: seq<Message>, before: seq<Message>, block: seq<Message>, t: Message,
                                       rest: seq<Message>, ids: set<string>, got: set<string>)
    requires Open(goal, before, block, [t] + rest, ids, got) && t.Tool?
    ensures var now := Responded(got, t.id);
            if ids != {} && ids == now then Settled(goal, before + (block + [t]), rest)
            else Open(goal, before, block + [t], rest, ids, now)
  {
    assert ([t] + rest)[1..] == rest;
    assert before + block + ([t] + Filtered(rest, false)) == before + (block + [t]) + Filtered(rest, false);
  }

  lemma {:induction false} KeepMessage(goal: seq<Message>, result: seq<Message>, m: Message, rest: seq<Message>)
    requires Settled(goal, result, [m] + rest) && !IsCalls(m)
    ensures Settled(goal, result + [m], rest)
  {
    assert ([m] + rest)[1..] == rest;
    assert result + ([m] + Filtered(rest, false)) == result + [m] + Filtered(rest, false);
  }

  method CloseOrphanToolCalls(messages: seq<Message>) returns (result: seq<Message>)
    ensures result == Repaired(messages)
  {
    result := [];
    var pending := false;
    var tcIds: set<string> := {};
    var respondedIds: set<string> := {};
    var orphan: Option<nat> := None;
    ghost var goal := Repaired(messages);
    ghost var before, block: seq<Message> := [], [];
    assert messages[0..] == messages;
    for i := 0 to |messages|
      invariant pending ==> result == before + block && orphan == Some(|before|)
      invariant pending ==> Open(goal, before, block, messages[i..], tcIds, respondedIds)
      invariant !pending ==> Settled(goal, result, messages[i..])
    {
      var msg := messages[i];
      ghost var rest := messages[i + 1..];
      assert messages[i..] == [msg] + rest;
      if IsCalls(msg) {
        assert Settled(goal, result, messages[i..]);
        OpenBlock(goal, result, msg, rest);
        before, block := result, [msg];
        pending := true;
        result := result + [msg];
        orphan := Some(|result| - 1);
        tcIds := set c | c in msg.calls && c.id != "" :: c.id;
        respondedIds := {};
      } else if msg.Tool? && pending {
        ExtendBlock(goal, before, block, msg, rest, tcIds, respondedIds);
        if msg.id != "" {
          respondedIds := respondedIds + {msg.id};
        }
        result := result + [msg];
        block := block + [msg];
        assert result == before + block;
        if tcIds != {} && tcIds == respondedIds {
          pending := false;
          orphan := None;
        }
      } else if pending {
        result := result[..orphan.value];
        assert result == before;
        assert Settled(goal, result, messages[i..]);
        orphan := None;
        pending := false;
        tcIds := {};
        respondedIds := {};
        KeepMessage(goal, result, msg, rest);
        result := result + [msg];
      } else {
        KeepMessage(goal, result, msg, rest);
        result := result + [msg];
      }
    }
    assert messages[|messages|..] == [];
    if pending {
      result := result[..orphan.value];
      assert result == before;
    }
  }

  // ---------------------------------------------------------------------------
  // What the repair achieves

  lemma {:induction false} DroppedStart(ms: seq<Message>)
    ensures !StartsWithTool(Filtered(ms, true))
    ensures !CallsNext(ms) ==> !CallsNext(Filtered(ms, true))
  {
    if ms != [] && (ExposedHead(ms) || ms[0].Tool?) {
      DroppedStart(ms[1..]);
    }
  }

  /** Repairing what follows a kept tool-calls message does not touch its answers. */
  lemma {:induction false} CompletesFiltered(ids: set<string>, got: set<string>, ms: seq<Message>)
    ensures Completes(ids, got, Repaired(ms)) == Completes(ids, got, ms)
    decreases ms
  {
    if StartsWithTool(ms) {
      CompletesFiltered(ids, Responded(got, ms[0].id), ms[1..]);
      assert Repaired(ms)[1..] == Repaired(ms[1..]);
    } else if ms != [] && ExposedHead(ms) {
      DroppedStart(ms[1..]);
    }
  }

  lemma {:induction false} CallsNextFiltered(ms: seq<Message>)
    ensures CallsNext(Repaired(ms)) == (CallsNext(ms) && !ExposedNext(ms))
  {
    if ms == [] {
    } else if ExposedHead(ms) {
      DroppedStart(ms[1..]);
    } else {
      CallsNextFiltered(ms[1..]);
      assert Repaired(ms)[1..] == Repaired(ms[1..]);
    }
  }

  lemma {:induction false} FilteredComplete(ms: seq<Message>, dropping: bool)
    ensures AllAnswered(Filtered(ms, dropping)) <==> !Overlap(ms)
    decreases ms
  {
    if ms == [] {
    } else if ExposedHead(ms) || (ms[0].Tool? && dropping) {
      FilteredComplete(ms[1..], true);
    } else {
      FilteredComplete(ms[1..], false);
      var kept := Filtered(ms, dropping);
      assert kept[1..] == Repaired(ms[1..]);
      if IsCalls(ms[0]) {
        CompletesFiltered(TrackedIds(ms[0]), {}, ms[1..]);
      }
    }
  }

  /** Every kept tool-calls message ends up answered exactly when no orphan is overlapped by a later one. */
  lemma {:induction false} RepairCompleteIff(ms: seq<Message>)
    ensures AllAnswered(Repaired(ms)) <==> !Overlap(ms)
  {
    FilteredComplete(ms, false);
  }

  lemma {:induction false} FilteredLength(ms: seq<Message>, dropping: bool)
    ensures |Filtered(ms, dropping)| <= |ms|
    decreases ms
  {
    if ms != [] {
      FilteredLength(ms[1..], true);
      FilteredLength(ms[1..], false);
    }
  }

  /** Repair changes nothing exactly when no orphan is exposed; a fully answered history is such a one. */
  lemma {:induction false} RepairUnchangedIff(ms: seq<Message>)
    ensures Repaired(ms) == ms <==> !Exposed(ms)
    ensures AllAnswered(ms) ==> !Exposed(ms)
  {
    if ms != [] {
      RepairUnchangedIff(ms[1..]);
      if ExposedHead(ms) {
        FilteredLength(ms[1..], true);
      } else {
        assert Repaired(ms)[1..] == Repaired(ms[1..]);
        assert ms == [ms[0]] + ms[1..];
      }
    }
  }

  /** The first `n` tool messages answer, blank ids aside, exactly the ids together with those got before. */
  ghost predicate CompleteAt(ids: set<string>, got: set<string>, ms: seq<Message>, n: nat) {
    0 < n <= |ms| && AllTools(ms[..n]) && got + (AnsweredIds(ms[..n]) - {""}) == ids
  }

  lemma {:induction false} CompleteAtStep(ids: set<string>, got: set<string>, ms: seq<Message>, n: nat)
    requires StartsWithTool(ms) && n > 0
    ensures var now := got + ({ms[0].id} - {""});
            CompleteAt(ids, got, ms, n) <==> if n == 1 then now == ids else CompleteAt(ids, now, ms[1..], n - 1)
  {
    if n <= |ms| {
      var part := ms[..n];
      assert part[0] == ms[0] && part[1..] == ms[1..][..n - 1];
      assert AllTools(part) <==> AllTools(part[1..]) by {
        assert forall i | 0 < i < |part| :: part[i] == part[1..][i - 1];
      }
      assert AnsweredIds(part) == {ms[0].id} + AnsweredIds(part[1..]);
      if n == 1 {
        assert part[1..] == [];
      }
    }
  }

  /** Scanning tool messages completes the ids exactly when some first part of them answers these ids and no others. */
  lemma {:induction false} CompletesMeaning(ids: set<string>, got: set<string>, ms: seq<Message>)
    ensures Completes(ids, got, ms) <==> ids != {} && exists n: nat :: CompleteAt(ids, got, ms, n)
    decreases |ms|
  {
    if StartsWithTool(ms) {
      var now := got + ({ms[0].id} - {""});
      assert now == Responded(got, ms[0].id);
      CompletesMeaning(ids, now, ms[1..]);
      if Completes(ids, got, ms) {
        if now == ids {
          CompleteAtStep(ids, got, ms, 1);
        } else {
          var n: nat :| CompleteAt(ids, now, ms[1..], n);
          CompleteAtStep(ids, got, ms, n + 1);
        }
      }
      if exists n: nat :: CompleteAt(ids, got, ms, n) {
        var n: nat :| CompleteAt(ids, got, ms, n);
        CompleteAtStep(ids, got, ms, n);
      }
    } else {
      forall n: nat ensures !CompleteAt(ids, got, ms, n) {
        assert 0 < n <= |ms| ==> ms[..n][0] == ms[0];
      }
    }
  }

  /** A tool-calls message is answered exactly when some first part of the tool messages after it answers its ids. */
  lemma {:induction false} HeadAnsweredMeaning(ms: seq<Message>)
    requires StartsWithCalls(ms)
    ensures HeadAnswered(ms) <==>
            CallIds(ms[0]) - {""} != {} && exists n: nat :: CompleteAt(CallIds(ms[0]) - {""}, {}, ms[1..], n)
  {
    assert TrackedIds(ms[0]) == CallIds(ms[0]) - {""};
    CompletesMeaning(TrackedIds(ms[0]), {}, ms[1..]);
  }

  lemma {:induction false} OwnAnswersComplete(ids: set<string>, got: set<string>, ms: seq<Message>)
    requires got < ids && "" !in ids && Owned(ids, ms) && ids <= got + AnsweredIds(ms)
    ensures Completes(ids, got, ms)
    decreases |ms|
  {
    assert StartsWithTool(ms);
    var now := got + {ms[0].id};
    if now != ids {
      OwnAnswersComplete(ids, now, ms[1..]);
    }
  }

  lemma {:induction false} CoveredIsAnswered(asked: set<string>, ms: seq<Message>)
    requires Covered(ms) && Owned(asked, ms) && NoBlankIds(ms)
    ensures AllAnswered(ms)
    decreases |ms|
  {
    if ms != [] {
      CoveredIsAnswered(if ms[0].Tool? then asked else Asks(ms[0]), ms[1..]);
      if IsCalls(ms[0]) {
        assert ms[0] in ms && ms[0].calls[0] in ms[0].calls;
        assert ms[0].calls[0].id in CallIds(ms[0]);
        assert TrackedIds(ms[0]) == CallIds(ms[0]);
        OwnAnswersComplete(CallIds(ms[0]), {}, ms[1..]);
      }
    }
  }

  /** A history in which every call is answered and every answer has its call is left alone. */
  lemma {:induction false} PairedHistoryStays(ms: seq<Message>)
    requires Covered(ms) && Owned({}, ms) && NoBlankIds(ms)
    ensures Repaired(ms) == ms
  {
    CoveredIsAnswered({}, ms);
    RepairUnchangedIff(ms);
  }

  lemma {:induction false} ExposedAfterRepair(ms: seq<Message>, dropping: bool)
    ensures Exposed(Filtered(ms, dropping)) <==> OrphanChain(ms)
    decreases ms
  {
    if ms == [] {
    } else if ExposedHead(ms) || (ms[0].Tool? && dropping) {
      ExposedAfterRepair(ms[1..], true);
    } else {
      ExposedAfterRepair(ms[1..], false);
      var kept := Filtered(ms, dropping);
      assert kept[1..] == Repaired(ms[1..]);
      if IsCalls(ms[0]) {
        CompletesFiltered(TrackedIds(ms[0]), {}, ms[1..]);
        CallsNextFiltered(ms[1..]);
      }
    }
  }

  /** A second repair changes nothing exactly when no orphan is overlapped by an exposed orphan. */
  lemma {:induction false} RepairIdempotentIff(ms: seq<Message>)
    ensures Repaired(Repaired(ms)) == Repaired(ms) <==> !OrphanChain(ms)
  {
    RepairUnchangedIff(Repaired(ms));
    ExposedAfterRepair(ms, false);
  }

  /** Two tool-calls messages back to back: the first orphan survives, and only a second repair removes it. */
  lemma {:induction false} OverlapCounterexample()
    ensures var a := Assistant(None, [Call("a", "ls", "{}")]);
            var b := Assistant(None, [Call("b", "ls", "{}")]);
            var ms := [a, b, User("hi")];
            && Repaired(ms) == [a, User("hi")]
            && !Covered(Repaired(ms))
            && Repaired(Repaired(ms)) == [User("hi")]
  {
    var a := Assistant(None, [Call("a", "ls", "{}")]);
    var b := Assistant(None, [Call("b", "ls", "{}")]);
    var u := User("hi");
    assert [a, b, u][1..] == [b, u] && [b, u][1..] == [u] && [a, u][1..] == [u] && [u][1..] == [];
    assert Filtered([u], false) == [u] && Filtered([u], true) == [u];
    assert Filtered([b, u], false) == [u];
    assert Call("a", "ls", "{}") in a.calls;
    assert "a" in CallIds(a);
  }

  // ---------------------------------------------------------------------------
  // What the repair keeps

  function Conversation(ms: seq<Message>): seq<Message> {
    if ms == [] then []
    else (if ms[0].Tool? || IsCalls(ms[0]) then [] else [ms[0]]) + Conversation(ms[1..])
  }

  ghost predicate Subsequence(a: seq<Message>, b: seq<Message>) {
    || a == []
    || (b != [] && ((a[0] == b[0] && Subsequence(a[1..], b[1..])) || Subsequence(a, b[1..])))
  }

  lemma {:induction false} FilteredKeeps(ms: seq<Message>, dropping: bool)
    ensures Subsequence(Filtered(ms, dropping), ms)
    ensures Conversation(Filtered(ms, dropping)) == Conversation(ms)
    decreases ms
  {
    if ms == [] {
    } else if ExposedHead(ms) || (ms[0].Tool? && dropping) {
      FilteredKeeps(ms[1..], true);
    } else {
      FilteredKeeps(ms[1..], false);
      assert Filtered(ms, dropping)[1..] == Filtered(ms[1..], false);
    }
  }

  /** For every history: nothing is added or reordered, and no user, system or plain assistant message is lost. */
  lemma {:induction false} RepairKeepsConversation(ms: seq<Message>)
    ensures Subsequence(Repaired(ms), ms)
    ensures Conversation(Repaired(ms)) == Conversation(ms)
  {
    FilteredKeeps(ms, false);
  }

  // ---------------------------------------------------------------------------
  // Link to the pairing rule

  predicate NoBlankIds(ms: seq<Message>) {
    forall m | m in ms && m.Assistant? :: forall c | c in m.calls :: c.id != ""
  }

  lemma {:induction false} CompletesCovers(ids: set<string>, got: set<string>, ms: seq<Message>)
    requires Completes(ids, got, ms)
    ensures ids <= got + AnsweredIds(ms)
    decreases ms
  {
    var now := Responded(got, ms[0].id);
    if !(ids != {} && now == ids) {
      CompletesCovers(ids, now, ms[1..]);
    }
  }

  lemma {:induction false} AnsweredImpliesCovered(ms: seq<Message>)
    requires AllAnswered(ms) && NoBlankIds(ms)
    ensures Covered(ms)
  {
    if ms != [] {
      AnsweredImpliesCovered(ms[1..]);
      if IsCalls(ms[0]) {
        CompletesCovers(TrackedIds(ms[0]), {}, ms[1..]);
        assert TrackedIds(ms[0]) == CallIds(ms[0]);
      }
    }
  }

  lemma {:induction false} SubsequenceMembers(a: seq<Message>, b: seq<Message>)
    requires Subsequence(a, b)
    ensures forall m | m in a :: m in b
  {
    if a != [] {
      if a[0] == b[0] && Subsequence(a[1..], b[1..]) {
        SubsequenceMembers(a[1..], b[1..]);
        assert a == [a[0]] + a[1..];
      } else {
        SubsequenceMembers(a, b[1..]);
      }
    }
  }

  /** Each tool-calls message that repair keeps is covered by the tool messages after it. */
  predicate KeptCovered(ms: seq<Message>) {
    ms != [] ==>
      && (StartsWithCalls(ms) && !ExposedHead(ms) ==> CallIds(ms[0]) <= AnsweredIds(ms[1..]))
      && KeptCovered(ms[1..])
  }

  lemma {:induction false} FilteredCovered(ms: seq<Message>, dropping: bool)
    ensures Covered(Filtered(ms, dropping)) <==> KeptCovered(ms)
    ensures !dropping ==> AnsweredIds(Filtered(ms, dropping)) == AnsweredIds(ms)
  {
    if ms != [] {
      FilteredCovered(ms[1..], true);
      FilteredCovered(ms[1..], false);
      DroppedStart(ms[1..]);
      assert ([ms[0]] + Filtered(ms[1..], false))[1..] == Filtered(ms[1..], false);
    }
  }

  /** A repaired history is protocol-correct exactly when the tool-calls messages that stay were covered. */
  lemma {:induction false} RepairCoversIff(ms: seq<Message>)
    ensures Covered(Repaired(ms)) <==> KeptCovered(ms)
  {
    FilteredCovered(ms, false);
  }

  /** A history without overlapping orphans and blank ids is always such a one. */
  lemma {:induction false} RepairCovers(ms: seq<Message>)
    requires !Overlap(ms) && NoBlankIds(ms)
    ensures Covered(Repaired(ms)) && KeptCovered(ms)
  {
    RepairCompleteIff(ms);
    RepairKeepsConversation(ms);
    SubsequenceMembers(Repaired(ms), ms);
    AnsweredImpliesCovered(Repaired(ms));
    RepairCoversIff(ms);
  }

  lemma {:induction false} FilteredOwned(ids: set<string>, ms: seq<Message>)
    requires Owned(ids, ms)
    ensures Owned(ids, Filtered(ms, false)) && Owned({}, Filtered(ms, true))
    decreases |ms|
  {
    if ms != [] {
      FilteredOwned(if ms[0].Tool? then ids else Asks(ms[0]), ms[1..]);
      OwnedGrows({}, ids, Filtered(ms[1..], true));
      assert ([ms[0]] + Filtered(ms[1..], false))[1..] == Filtered(ms[1..], false);
    }
  }

  /** Repair takes the answers of a removed orphan with it: no tool message is left without its call. */
  lemma {:induction false} RepairKeepsOwned(ms: seq<Message>)
    requires Owned({}, ms)
    ensures Owned({}, Repaired(ms))
  {
    FilteredOwned({}, ms);
  }

  // ---------------------------------------------------------------------------
  // What a stored history needs

  /** A tool-calls message with another one right after its tool messages is covered. */
  predicate NextCallsCovered(ms: seq<Message>) {
    ms != [] ==>
      && (StartsWithCalls(ms) && CallsNext(ms[1..]) ==> CallIds(ms[0]) <= AnsweredIds(ms[1..]))
      && NextCallsCovered(ms[1..])
  }

  /** Any other unanswered message is exposed and removed, so these are all that matter. */
  lemma {:induction false} KeptCoveredIff(ms: seq<Message>)
    requires NoBlankIds(ms)
    ensures KeptCovered(ms) <==> NextCallsCovered(ms)
  {
    if ms != [] {
      KeptCoveredIff(ms[1..]);
      if StartsWithCalls(ms) && HeadAnswered(ms) {
        CompletesCovers(TrackedIds(ms[0]), {}, ms[1..]);
        assert ms[0] in ms;
        assert CallIds(ms[0]) == TrackedIds(ms[0]);
      }
    }
  }

  lemma {:induction false} CallsNextConcat(a: seq<Message>, b: seq<Message>)
    requires !StartsWithTool(b) && !StartsWithCalls(b)
    ensures CallsNext(a + b) <==> CallsNext(a)
  {
    if a == [] {
      assert a + b == b;
    } else {
      CallsNextConcat(a[1..], b);
      assert (a + b)[1..] == a[1..] + b;
    }
  }

  /** Histories joined by a message that is no tool and no tool-calls message do not affect each other. */
  lemma {:induction false} NextCallsConcat(a: seq<Message>, b: seq<Message>)
    requires !StartsWithTool(b) && !StartsWithCalls(b)
    ensures NextCallsCovered(a + b) <==> NextCallsCovered(a) && NextCallsCovered(b)
  {
    if a == [] {
      assert a + b == b;
    } else {
      NextCallsConcat(a[1..], b);
      CallsNextConcat(a[1..], b);
      AnsweredIdsConcat(a[1..], b);
      assert (a + b)[1..] == a[1..] + b;
    }
  }
}
