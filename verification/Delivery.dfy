/**
 * Delivery of buffered events to a WebSocket across reconnects (gateway/service/AgentGatewayService.py,
 * handleWebSocket and _streamEvents). One buffer, one connection and one stream task at a time; a send either
 * returns, and the cursor moves before the task yields again, or it fails and the connection closes.
 */
module Delivery {
  import opened Wrappers
  import opened EventBuffer

  ghost predicate Increasing(ns: seq<nat>) {
    forall i, j | 0 <= i < j < |ns| :: ns[i] < ns[j]
  }

  // ---------------------------------------------------------------------------
  // Backlog de-duplication

  predicate IsRequest(e: Event) {
    e.payload.kind.ApprovalRequired? || e.payload.kind.ChoiceRequired?
  }

  /** Event `k` is a request followed by another request of its kind before `upto`. */
  predicate Superseded(log: seq<Event>, k: nat, upto: nat)
    requires k < upto <= |log|
  {
    IsRequest(log[k]) && exists j :: k < j < upto && log[j].payload.kind == log[k].payload.kind
  }

  /** Requests give way to later ones of their kind; everything else never does. */
  lemma {:induction false} SupersededMeaning(log: seq<Event>, k: nat, upto: nat)
    requires k < upto <= |log|
    ensures var kind := log[k].payload.kind;
            && (kind == Other ==> !Superseded(log, k, upto))
            && (kind != Other ==>
                  (Superseded(log, k, upto) <==> exists j :: k < j < upto && log[j].payload.kind == kind))
  {
  }

  /** The events of a backlog log[..upto] that go out, from number `k` on. */
  function KeptFrom(log: seq<Event>, k: nat, upto: nat): seq<nat>
    requires k <= upto <= |log|
    decreases upto - k
  {
    if k == upto then []
    else if Superseded(log, k, upto) then KeptFrom(log, k + 1, upto)
    else [k] + KeptFrom(log, k + 1, upto)
  }

  lemma {:induction false} KeptFromMeaning(log: seq<Event>, k: nat, upto: nat)
    requires k <= upto <= |log|
    ensures forall j: nat :: j in KeptFrom(log, k, upto) <==> k <= j < upto && !Superseded(log, j, upto)
    decreases upto - k
  {
    if k < upto {
      KeptFromMeaning(log, k + 1, upto);
    }
  }

  lemma {:induction false} KeptFromIncreasing(log: seq<Event>, k: nat, upto: nat)
    requires k <= upto <= |log|
    ensures Increasing(KeptFrom(log, k, upto))
    ensures forall i | 0 <= i < |KeptFrom(log, k, upto)| :: KeptFrom(log, k, upto)[i] >= k
    decreases upto - k
  {
    if k < upto {
      KeptFromIncreasing(log, k + 1, upto);
    }
  }

  /** The two passes over a backlog: find the last request of each kind, then keep everything but earlier ones. */
  method Deduplicate(backlog: seq<Event>) returns (kept: seq<nat>)
    ensures kept == KeptFrom(backlog, 0, |backlog|)
    ensures Increasing(kept)
    ensures forall k: nat :: k in kept <==> k < |backlog| && !Superseded(backlog, k, |backlog|)
  {
    var lastApproval, lastChoice := -1, -1;
    for i := 0 to |backlog|
      invariant -1 <= lastApproval < i && -1 <= lastChoice < i
      invariant forall k | 0 <= k < i && backlog[k].payload.kind.ApprovalRequired? :: k <= lastApproval
      invariant forall k | 0 <= k < i && backlog[k].payload.kind.ChoiceRequired? :: k <= lastChoice
      invariant lastApproval >= 0 ==> backlog[lastApproval].payload.kind.ApprovalRequired?
      invariant lastChoice >= 0 ==> backlog[lastChoice].payload.kind.ChoiceRequired?
    {
      if backlog[i].payload.kind.ApprovalRequired? {
        lastApproval := i;
      }
      if backlog[i].payload.kind.ChoiceRequired? {
        lastChoice := i;
      }
    }
    kept := [];
    ghost var goal := KeptFrom(backlog, 0, |backlog|);
    ghost var rest := goal;
    for i := 0 to |backlog|
      invariant rest == KeptFrom(backlog, i, |backlog|)
      invariant goal == kept + rest
    {
      var kind := backlog[i].payload.kind;
      assert kind.ApprovalRequired? && i != lastApproval ==> backlog[lastApproval].payload.kind == kind;
      assert kind.ChoiceRequired? && i != lastChoice ==> backlog[lastChoice].payload.kind == kind;
      rest := KeptFrom(backlog, i + 1, |backlog|);
      if !((kind.ApprovalRequired? && i != lastApproval) || (kind.ChoiceRequired? && i != lastChoice)) {
        Assoc(kept, [i], rest);
        kept := kept + [i];
      }
    }
    KeptFromMeaning(backlog, 0, |backlog|);
    KeptFromIncreasing(backlog, 0, |backlog|);
  }

  // ---------------------------------------------------------------------------
  // The protocol

  /**
   * Where the connection stands. `Replaying` walks the backlog log[from..upto]; the others belong to the stream
   * task, which remembers whether it saw `done` when it last read the state.
   */
  datatype Phase =
    | Offline
    | Replaying(next: nat, upto: nat)
    | Online
    | Sleeping
    | Draining(sawDone: bool)
    | Sending(number: nat, sawDone: bool)
    | Finishing

  datatype State = State(
    maxSize: nat,
    log: seq<Event>,
    done: bool,
    taken: nat,
    cursor: int,
    phase: Phase,
    sent: seq<nat>,
    /** Requests passed over in a backlog, each with where that backlog ended. */
    skipped: map<nat, nat>,
    lost: set<nat>)

  datatype Action =
    | Push(payload: Payload) | MarkDone | ResetForNewRound
    | Connect | Disconnect
    | Replay(ok: bool) | StartStream | ReadState | Drain | SendReturns(ok: bool) | SendDone(ok: bool)

  function Init(maxSize: nat): State {
    State(maxSize, [], false, 0, -1, Offline, [], map[], {})
  }

  predicate Beyond(cursor: int, n: nat) {
    n > cursor
  }

  /** Undelivered events the buffer no longer holds. */
  function Missed(s: State): set<nat> {
    set n: nat | n < Oldest(|s.log|, s.maxSize) && Beyond(s.cursor, n)
  }

  function Deliver(s: State, n: nat, phase: Phase): State {
    s.(sent := s.sent + [n], cursor := if n > s.cursor then n else s.cursor, phase := phase)
  }

  /** The next event of a backlog: skipped, sent, or lost with the connection. */
  function ReplayNext(s: State, k: nat, upto: nat, ok: bool): State {
    if !(k < upto <= |s.log|) then s.(phase := Online)
    else if Superseded(s.log, k, upto) then s.(skipped := s.skipped[k := upto], phase := Replaying(k + 1, upto))
    else if ok then Deliver(s, k, Replaying(k + 1, upto))
    else s.(phase := Offline)
  }

  /** One atomic step between awaits; a step that is not enabled changes nothing. */
  function Step(s: State, a: Action): State {
    match a
    case Push(p) => s.(log := s.log + [Event(|s.log|, p)])
    case MarkDone => s.(done := true)
    case ResetForNewRound => s.(done := false)
    case Disconnect => s.(phase := Offline)
    case Connect =>
      if s.phase.Offline? then
        s.(phase := Replaying(ReadFrom(|s.log|, s.maxSize, s.cursor), |s.log|), lost := s.lost + Missed(s))
      else s
    case Replay(ok) => if s.phase.Replaying? then ReplayNext(s, s.phase.next, s.phase.upto, ok) else s
    case StartStream => if s.phase.Online? then s.(phase := Sleeping) else s
    case ReadState => if s.phase.Sleeping? then s.(phase := Draining(s.done)) else s
    case Drain =>
      if !s.phase.Draining? then s
      else if s.taken >= |s.log| then
        s.(phase := if s.phase.sawDone then Finishing else Sleeping)
      else if s.log[s.taken].number <= s.cursor then s.(taken := s.taken + 1)
      else s.(taken := s.taken + 1, phase := Sending(s.log[s.taken].number, s.phase.sawDone))
    case SendReturns(ok) =>
      if !s.phase.Sending? then s
      else if ok then Deliver(s, s.phase.number, Draining(s.phase.sawDone))
      else s.(phase := Offline)
    case SendDone(ok) => if s.phase.Finishing? then s.(phase := if ok then Online else Offline) else s
  }

  function Run(s: State, actions: seq<Action>): State {
    if actions == [] then s else Step(Run(s, actions[..|actions| - 1]), actions[|actions| - 1])
  }

  // ---------------------------------------------------------------------------
  // The invariant

  /** Passed over for a reason: superseded in a backlog, or gone from the buffer when a backlog was read. */
  function Excused(s: State): set<nat> {
    s.skipped.Keys + s.lost
  }

  /** Everything between the cursor and the bound was excused. */
  ghost predicate Accounted(excused: set<nat>, cursor: int, bound: int) {
    forall n: nat | cursor < n < bound :: n in excused
  }

  ghost predicate PhaseInv(s: State) {
    match s.phase
    case Offline => true
    case Replaying(next, upto) =>
      s.cursor < next <= upto <= |s.log| && s.taken <= upto && Accounted(Excused(s), s.cursor, next)
    case Sending(n, _) => s.cursor < n && n + 1 == s.taken && Accounted(Excused(s), s.cursor, n)
    case _ => Accounted(Excused(s), s.cursor, s.taken)
  }

  ghost predicate Inv(s: State) {
    && Numbered(s.log) && s.taken <= |s.log|
    && -1 <= s.cursor < |s.log|
    && Increasing(s.sent)
    && (if s.sent == [] then s.cursor == -1 else s.cursor == s.sent[|s.sent| - 1])
    && (forall n: nat | n <= s.cursor :: n in s.sent || n in Excused(s))
    && (forall n | n in s.lost :: n < Oldest(|s.log|, s.maxSize))
    && (forall n | n in s.skipped :: n < s.skipped[n] <= |s.log| && Superseded(s.log, n, s.skipped[n]))
    && PhaseInv(s)
  }

  lemma {:induction false} SupersededGrows(log: seq<Event>, more: seq<Event>, k: nat, upto: nat, upto': nat)
    requires k < upto <= |log| && upto <= upto' && upto' <= |log + more|
    requires Superseded(log, k, upto)
    ensures Superseded(log + more, k, upto')
  {
    var j :| k < j < upto && log[j].payload.kind == log[k].payload.kind;
    assert (log + more)[j] == log[j] && (log + more)[k] == log[k];
  }

  lemma {:induction false} PushKeepsInv(s: State, p: Payload)
    requires Inv(s)
    ensures Inv(Step(s, Push(p)))
  {
    var s' := Step(s, Push(p));
    forall n | n in s'.skipped
      ensures n < s'.skipped[n] <= |s'.log| && Superseded(s'.log, n, s'.skipped[n])
    {
      SupersededGrows(s.log, [Event(|s.log|, p)], n, s.skipped[n], s.skipped[n]);
    }
  }

  lemma {:induction false} DeliverKeepsInv(s: State, n: nat, phase: Phase)
    requires Inv(s.(phase := Offline)) && s.cursor < n < |s.log| && Accounted(Excused(s), s.cursor, n)
    requires phase.Replaying? ==> n + 1 == phase.next <= phase.upto <= |s.log| && s.taken <= phase.upto
    requires phase.Draining? ==> s.taken == n + 1
    requires phase.Replaying? || phase.Draining?
    ensures Inv(Deliver(s, n, phase))
  {
    var s' := Deliver(s, n, phase);
    assert s'.sent[|s'.sent| - 1] == n;
    forall m: nat | m <= s'.cursor
      ensures m in s'.sent || m in Excused(s')
    {
      if m <= s.cursor {
        assert m in s.sent || m in Excused(s);
      } else if m < n {
        assert m in Excused(s);
      }
    }
  }

  lemma {:induction false} PhaseKeepsInv(s: State, phase: Phase)
    requires Inv(s) && PhaseInv(s.(phase := phase))
    ensures Inv(s.(phase := phase))
  {
  }

  lemma {:induction false} ConnectKeepsInv(s: State)
    requires Inv(s) && s.phase.Offline?
    ensures Inv(Step(s, Connect))
  {
    var s' := Step(s, Connect);
    forall n: nat | s'.cursor < n < s'.phase.next
      ensures n in Excused(s')
    {
      assert n in Missed(s);
    }
  }

  lemma {:induction false} SkipKeepsInv(s: State, k: nat, upto: nat)
    requires Inv(s) && s.phase == Replaying(k, upto) && k < upto && Superseded(s.log, k, upto)
    ensures Inv(s.(skipped := s.skipped[k := upto], phase := Replaying(k + 1, upto)))
  {
    var s' := s.(skipped := s.skipped[k := upto], phase := Replaying(k + 1, upto));
    assert Excused(s) + {k} == Excused(s');
  }

  lemma {:induction false} ReplaySendKeepsInv(s: State, k: nat, upto: nat)
    requires Inv(s) && s.phase == Replaying(k, upto) && k < upto
    ensures Inv(Deliver(s, k, Replaying(k + 1, upto)))
  {
    PhaseKeepsInv(s, Offline);
    DeliverKeepsInv(s, k, Replaying(k + 1, upto));
  }

  lemma {:induction false} ReplayKeepsInv(s: State, k: nat, upto: nat, ok: bool)
    requires Inv(s) && s.phase == Replaying(k, upto)
    ensures Inv(ReplayNext(s, k, upto, ok))
  {
    var s' := ReplayNext(s, k, upto, ok);
    if k == upto {
      PhaseKeepsInv(s, Online);
      assert s' == s.(phase := Online);
    } else if Superseded(s.log, k, upto) {
      SkipKeepsInv(s, k, upto);
      assert s' == s.(skipped := s.skipped[k := upto], phase := Replaying(k + 1, upto));
    } else if ok {
      ReplaySendKeepsInv(s, k, upto);
      assert s' == Deliver(s, k, Replaying(k + 1, upto));
    } else {
      PhaseKeepsInv(s, Offline);
      assert s' == s.(phase := Offline);
    }
  }

  lemma {:induction false} DrainKeepsInv(s: State)
    requires Inv(s) && s.phase.Draining?
    ensures Inv(Step(s, Drain))
  {
  }

  lemma {:induction false} SendKeepsInv(s: State, ok: bool)
    requires Inv(s) && s.phase.Sending?
    ensures Inv(Step(s, SendReturns(ok)))
  {
    if ok {
      DeliverKeepsInv(s, s.phase.number, Draining(s.phase.sawDone));
    }
  }

  lemma {:induction false} MarkKeepsInv(s: State, done: bool)
    requires Inv(s)
    ensures Inv(s.(done := done))
  {
  }

  lemma {:induction false} SendDoneKeepsInv(s: State, ok: bool)
    requires Inv(s) && s.phase.Finishing?
    ensures Inv(Step(s, SendDone(ok)))
  {
    PhaseKeepsInv(s, if ok then Online else Offline);
  }

  /** Every step keeps the invariant. */
  lemma {:induction false} StepKeepsInv(s: State, a: Action)
    requires Inv(s)
    ensures Inv(Step(s, a))
  {
    match a
    case Push(p) => PushKeepsInv(s, p);
    case Connect => if s.phase.Offline? { ConnectKeepsInv(s); }
    case Replay(ok) => if s.phase.Replaying? { ReplayKeepsInv(s, s.phase.next, s.phase.upto, ok); }
    case Drain => if s.phase.Draining? { DrainKeepsInv(s); }
    case SendReturns(ok) => if s.phase.Sending? { SendKeepsInv(s, ok); }
    case MarkDone => MarkKeepsInv(s, true);
    case ResetForNewRound => MarkKeepsInv(s, false);
    case Disconnect => PhaseKeepsInv(s, Offline);
    case StartStream => if s.phase.Online? { PhaseKeepsInv(s, Sleeping); }
    case ReadState => if s.phase.Sleeping? { PhaseKeepsInv(s, Draining(s.done)); }
    case SendDone(ok) => if s.phase.Finishing? { SendDoneKeepsInv(s, ok); }
  }

  /** What every step keeps, every run keeps. */
  lemma {:induction false} RunKeeps(holds: State -> bool, s: State, actions: seq<Action>)
    requires holds(s) && forall t, a | holds(t) :: holds(Step(t, a))
    ensures holds(Run(s, actions))
    decreases |actions|
  {
    if actions != [] {
      RunKeeps(holds, s, actions[..|actions| - 1]);
    }
  }

  lemma {:induction false} StepKeepsSize(s: State, a: Action)
    ensures Step(s, a).maxSize == s.maxSize
  {
  }

  lemma {:induction false} RunKeepsInv(s: State, actions: seq<Action>)
    requires Inv(s)
    ensures Inv(Run(s, actions)) && Run(s, actions).maxSize == s.maxSize
  {
    var holds := (t: State) => Inv(t) && t.maxSize == s.maxSize;
    forall t, a | holds(t) ensures holds(Step(t, a)) {
      StepKeepsInv(t, a);
      StepKeepsSize(t, a);
    }
    RunKeeps(holds, s, actions);
  }

  // ---------------------------------------------------------------------------
  // Whole runs

  /**
   * Sequence numbers went out strictly increasing, so no event went out twice, and event `n`, if the cursor has
   * reached it, was sent, superseded by a later request of its kind, or evicted from the buffer.
   */
  ghost predicate DeliveredSoFar(s: State, n: nat) {
    && Increasing(s.sent)
    && (n <= s.cursor ==> n in s.sent || n in s.skipped || n in s.lost)
    && (n in s.skipped ==> n < s.skipped[n] <= |s.log| && Superseded(s.log, n, s.skipped[n]))
    && (n in s.lost ==> n < Oldest(|s.log|, s.maxSize))
  }

  /** In every interleaving, over any number of reconnects, delivery is as promised. */
  lemma {:induction false} DeliveryAcrossReconnects(maxSize: nat, actions: seq<Action>, n: nat)
    ensures var s := Run(Init(maxSize), actions); s.maxSize == maxSize && DeliveredSoFar(s, n)
  {
    RunKeepsInv(Init(maxSize), actions);
  }

  /** An event the cursor has passed and that no later request of its kind follows was sent or evicted. */
  lemma {:induction false} LatestRequestGetsThrough(maxSize: nat, actions: seq<Action>, n: nat)
    ensures var s := Run(Init(maxSize), actions);
            n <= s.cursor ==>
              n < |s.log| && (Superseded(s.log, n, |s.log|) || n in s.sent || n < Oldest(|s.log|, maxSize))
  {
    RunKeepsInv(Init(maxSize), actions);
    var s := Run(Init(maxSize), actions);
    if n in s.skipped {
      assert s.log + [] == s.log;
      SupersededGrows(s.log, [], n, s.skipped[n], |s.log|);
    }
  }

  /** At every reconnect of the run at most `maxSize` events were undelivered. */
  ghost predicate CalmReconnects(s: State, actions: seq<Action>) {
    actions != [] ==>
      var before := Run(s, actions[..|actions| - 1]);
      && CalmReconnects(s, actions[..|actions| - 1])
      && (actions[|actions| - 1].Connect? ==> |before.log| - (before.cursor + 1) <= before.maxSize)
  }

  lemma {:induction false} CalmStep(s: State, a: Action)
    requires Inv(s) && s.lost == {}
    requires a.Connect? ==> |s.log| - (s.cursor + 1) <= s.maxSize
    ensures Step(s, a).lost == {}
  {
    if a.Connect? && s.phase.Offline? {
      forall n: nat
        ensures n !in Missed(s)
      {
        assert n < Oldest(|s.log|, s.maxSize) ==> !Beyond(s.cursor, n);
      }
    }
  }

  lemma {:induction false} CalmLosesNothing(maxSize: nat, actions: seq<Action>)
    requires CalmReconnects(Init(maxSize), actions)
    ensures Run(Init(maxSize), actions).lost == {}
  {
    if actions != [] {
      CalmLosesNothing(maxSize, actions[..|actions| - 1]);
      var before := Run(Init(maxSize), actions[..|actions| - 1]);
      RunKeepsInv(Init(maxSize), actions[..|actions| - 1]);
      CalmStep(before, actions[|actions| - 1]);
    }
  }

  /** A reconnect loses events exactly when more than `maxSize` of them are undelivered. */
  lemma {:induction false} ReconnectLosesIff(s: State)
    requires Inv(s) && s.phase.Offline?
    ensures Missed(s) != {} <==> |s.log| - (s.cursor + 1) > s.maxSize
  {
    var oldest := Oldest(|s.log|, s.maxSize);
    if |s.log| - (s.cursor + 1) > s.maxSize {
      assert oldest - 1 in Missed(s);
    }
  }

  /** When reconnects are calm, every event up to the cursor was sent or superseded. */
  lemma {:induction false} CalmDelivery(maxSize: nat, actions: seq<Action>, n: nat)
    requires CalmReconnects(Init(maxSize), actions)
    requires n <= Run(Init(maxSize), actions).cursor
    ensures var s := Run(Init(maxSize), actions); n in s.sent || n in s.skipped
  {
    CalmLosesNothing(maxSize, actions);
    RunKeepsInv(Init(maxSize), actions);
  }

  /**
   * The final `done` goes out last: the step that leads to sending it finds the live queue empty, the end seen, and
   * every event pushed so far sent, superseded or evicted, which then stays so until `done` is out. While the end has
   * been seen, a step of draining leads to `done` exactly if the queue is empty.
   */
  lemma {:induction false} DoneComesLast(maxSize: nat, actions: seq<Action>, a: Action, n: nat)
    ensures var s := Run(Init(maxSize), actions);
            !s.phase.Finishing? && Step(s, a).phase.Finishing? ==>
              && s.phase.Draining? && s.phase.sawDone && s.taken == |s.log|
              && (n < |s.log| ==> n in s.sent || n in s.skipped || n in s.lost)
    ensures var s := Run(Init(maxSize), actions);
            && (s.phase.Draining? && s.phase.sawDone ==> (Step(s, Drain).phase.Finishing? <==> s.taken == |s.log|))
            && (s.phase.Finishing? && n < s.taken ==> n in s.sent || n in s.skipped || n in s.lost)
  {
    RunKeepsInv(Init(maxSize), actions);
    var s := Run(Init(maxSize), actions);
    assert (s.phase.Draining? || s.phase.Finishing?) && n < s.taken && n > s.cursor ==> n in Excused(s);
  }

  /** Some step of the run marked the end, and no later one reset it. */
  ghost predicate Marked(actions: seq<Action>) {
    actions != [] &&
      var last := |actions| - 1;
      actions[last].MarkDone? || (!actions[last].ResetForNewRound? && Marked(actions[..last]))
  }

  ghost predicate EverMarked(actions: seq<Action>) {
    exists i | 0 <= i < |actions| :: actions[i].MarkDone?
  }

  lemma {:induction false} DoneStep(s: State, a: Action)
    ensures Step(s, a).done <==> a.MarkDone? || (s.done && !a.ResetForNewRound?)
  {
  }

  /** The buffer is done exactly if the run marked it so. */
  lemma {:induction false} DoneIffMarked(s: State, actions: seq<Action>)
    requires !s.done
    ensures Run(s, actions).done <==> Marked(actions)
  {
    if actions != [] {
      var last := |actions| - 1;
      DoneIffMarked(s, actions[..last]);
      DoneStep(Run(s, actions[..last]), actions[last]);
    }
  }

  /** The stream task has seen the end, or is about to tell it. */
  predicate SeesEnd(s: State) {
    ((s.phase.Draining? || s.phase.Sending?) && s.phase.sawDone) || s.phase.Finishing?
  }

  lemma {:induction false} SeesEndStep(s: State, a: Action)
    ensures SeesEnd(Step(s, a)) ==> SeesEnd(s) || s.done
  {
  }

  lemma {:induction false} MarkedSomewhere(actions: seq<Action>)
    requires Marked(actions)
    ensures EverMarked(actions)
  {
    var last := |actions| - 1;
    if !actions[last].MarkDone? {
      MarkedSomewhere(actions[..last]);
      EverMarkedGrows(actions);
    }
  }

  lemma {:induction false} EverMarkedGrows(actions: seq<Action>)
    requires actions != [] && EverMarked(actions[..|actions| - 1])
    ensures EverMarked(actions)
  {
    var init := actions[..|actions| - 1];
    var i :| 0 <= i < |init| && init[i].MarkDone?;
    assert actions[i].MarkDone?;
  }

  /** No end is seen or told that was never marked. */
  lemma {:induction false} NoEndWithoutMark(s: State, actions: seq<Action>)
    requires !s.done && !SeesEnd(s)
    ensures SeesEnd(Run(s, actions)) ==> EverMarked(actions)
  {
    if actions != [] {
      var init := actions[..|actions| - 1];
      NoEndWithoutMark(s, init);
      SeesEndStep(Run(s, init), actions[|actions| - 1]);
      DoneIffMarked(s, init);
      if Marked(init) {
        MarkedSomewhere(init);
      }
      if EverMarked(init) {
        EverMarkedGrows(actions);
      }
    }
  }

  /** The stream task's own steps, with every send returning. */
  predicate StreamSteps(actions: seq<Action>) {
    forall a | a in actions :: a in {ReadState, Drain, SendReturns(true), SendDone(true)}
  }

  /** `t` comes from `s` by taking and sending events up to number `upto`. */
  ghost predicate Drained(s: State, t: State, upto: nat) {
    && t.log == s.log && t.done == s.done && t.phase == s.phase && t.taken == upto && s.sent <= t.sent
    && (forall n: nat | s.taken <= n < upto && n > s.cursor :: n in t.sent)
    && t.cursor == if upto - 1 > s.cursor && upto > s.taken then upto - 1 else s.cursor
  }

  lemma {:induction false} DrainedMore(s: State, t: State)
    requires s.taken <= t.taken && Drained(s, t, t.taken) && t.taken > t.cursor
    ensures Drained(s, Deliver(t.(taken := t.taken + 1), t.taken, t.phase), t.taken + 1)
  {
    var t' := Deliver(t.(taken := t.taken + 1), t.taken, t.phase);
    forall n: nat | s.taken <= n < t.taken + 1 && n > s.cursor ensures n in t'.sent {
      if n < t.taken {
        assert n in t.sent;
      } else {
        assert t'.sent[|t.sent|] == n;
      }
    }
  }

  lemma {:induction false} DrainOne(s: State, t: State) returns (actions: seq<Action>)
    requires Numbered(s.log) && s.phase.Draining? && s.taken <= t.taken < |s.log| && Drained(s, t, t.taken)
    ensures StreamSteps(actions) && Drained(s, Run(t, actions), t.taken + 1)
  {
    DrainTakes(t);
    if t.taken <= t.cursor {
      actions := [Drain];
    } else {
      actions := [Drain] + [SendReturns(true)];
      DrainedMore(s, t);
    }
  }

  lemma {:induction false} DrainTakes(t: State)
    requires Numbered(t.log) && t.phase.Draining? && t.taken < |t.log|
    ensures var next := t.(taken := t.taken + 1);
            if t.taken <= t.cursor then Run(t, [Drain]) == next
            else Run(t, [Drain] + [SendReturns(true)]) == Deliver(next, t.taken, t.phase)
  {
    RunAppend(t, [], Drain);
    assert [] + [Drain] == [Drain];
    RunAppend(t, [Drain], SendReturns(true));
  }

  lemma {:induction false} DrainUpTo(s: State, upto: nat) returns (actions: seq<Action>)
    requires Numbered(s.log) && s.phase.Draining? && s.taken <= upto <= |s.log|
    ensures StreamSteps(actions) && Drained(s, Run(s, actions), upto)
    decreases upto
  {
    if upto == s.taken {
      actions := [];
    } else {
      var first := DrainUpTo(s, upto - 1);
      var more := DrainOne(s, Run(s, first));
      RunConcat(s, first, more);
      actions := first + more;
    }
  }

  /**
   * However many events a finished buffer still holds, the stream task's own steps bring it to its end: everything
   * pushed has then been sent, superseded or evicted, and `done` has gone out.
   */
  lemma {:induction false} FinishedStreamEnds(s: State) returns (actions: seq<Action>, t: State)
    requires Inv(s) && s.phase.Sleeping? && s.done
    ensures StreamSteps(actions) && t == Run(s, actions) && t.log == s.log && t.taken == |s.log|
    ensures Run(s, actions + [Drain]).phase.Finishing? && Run(s, actions + [Drain] + [SendDone(true)]).phase.Online?
    ensures forall n: nat | n < |s.log| :: n in t.sent || n in t.skipped || n in t.lost
  {
    RunAppend(s, [], ReadState);
    assert [] + [ReadState] == [ReadState];
    var reading := Step(s, ReadState);
    var rest := DrainUpTo(reading, |s.log|);
    actions := [ReadState] + rest;
    RunConcat(s, [ReadState], rest);
    t := Run(s, actions);
    RunAppend(s, actions, Drain);
    RunAppend(s, actions + [Drain], SendDone(true));
    RunKeepsInv(s, actions);
  }

  /** A send that fails delivers nothing, closes the connection and changes nothing else. */
  lemma {:induction false} FailedSend(s: State)
    ensures s.phase.Sending? ==> Step(s, SendReturns(false)) == s.(phase := Offline)
    ensures s.phase.Finishing? ==> Step(s, SendDone(false)) == s.(phase := Offline)
    ensures s.phase.Replaying? && s.phase.next < s.phase.upto <= |s.log| ==>
              !Superseded(s.log, s.phase.next, s.phase.upto) ==> Step(s, Replay(false)) == s.(phase := Offline)
  {
  }

  // ---------------------------------------------------------------------------
  // Replaying a backlog

  function Shifted(ns: seq<nat>, offset: nat): seq<nat> {
    seq(|ns|, i requires 0 <= i < |ns| => ns[i] + offset)
  }

  lemma {:induction false} ShiftedStep(n: nat, ns: seq<nat>, offset: nat)
    ensures Shifted([n] + ns, offset) == [n + offset] + Shifted(ns, offset)
  {
  }

  lemma {:induction false} SupersededShift(log: seq<Event>, from: nat, upto: nat, backlog: seq<Event>, k: nat)
    requires from <= upto <= |log| && backlog == log[from..upto] && k < |backlog|
    ensures Superseded(backlog, k, |backlog|) <==> Superseded(log, from + k, upto)
  {
    if Superseded(log, from + k, upto) {
      var j :| from + k < j < upto && log[j].payload.kind == log[from + k].payload.kind;
      assert backlog[j - from] == log[j];
    }
  }

  lemma {:induction false} KeptShift(log: seq<Event>, from: nat, upto: nat, backlog: seq<Event>, k: nat)
    requires from <= upto <= |log| && backlog == log[from..upto] && k <= |backlog|
    ensures KeptFrom(log, from + k, upto) == Shifted(KeptFrom(backlog, k, |backlog|), from)
    decreases |backlog| - k
  {
    if k < |backlog| {
      SupersededShift(log, from, upto, backlog, k);
      KeptShift(log, from, upto, backlog, k + 1);
      ShiftedStep(k, KeptFrom(backlog, k + 1, |backlog|), from);
    }
  }

  function Replays(count: nat): seq<Action> {
    if count == 0 then [] else Replays(count - 1) + [Replay(true)]
  }

  /** The replay stands at `next`, and what it sent and will send is the goal. */
  ghost predicate OnTrack(goal: seq<nat>, s: State, log: seq<Event>, next: nat, upto: nat) {
    && s.log == log && s.phase == Replaying(next, upto) && next <= upto <= |log|
    && goal == s.sent + KeptFrom(log, next, upto)
  }

  lemma {:induction false} ReplayOnce(goal: seq<nat>, s: State, log: seq<Event>, next: nat, upto: nat)
    requires OnTrack(goal, s, log, next, upto) && next < upto
    ensures OnTrack(goal, Step(s, Replay(true)), log, next + 1, upto)
  {
    Assoc(s.sent, [next], KeptFrom(log, next + 1, upto));
  }

  lemma {:induction false} RunAppend(s: State, actions: seq<Action>, a: Action)
    ensures Run(s, actions + [a]) == Step(Run(s, actions), a)
  {
    assert (actions + [a])[..|actions|] == actions;
  }

  /** What each successful replay step keeps, number by number, holds after any number of them. */
  lemma {:induction false} ReplaysKeep(holds: (State, nat) -> bool, s: State, next: nat, count: nat)
    requires holds(s, next)
    requires forall t, k: nat | next <= k < next + count && holds(t, k) :: holds(Step(t, Replay(true)), k + 1)
    ensures holds(Run(s, Replays(count)), next + count)
    decreases count
  {
    if count > 0 {
      ReplaysKeep(holds, s, next, count - 1);
      RunAppend(s, Replays(count - 1), Replay(true));
    }
  }

  lemma {:induction false} ReplayProgress(goal: seq<nat>, s: State, log: seq<Event>, next: nat, upto: nat)
    requires OnTrack(goal, s, log, next, upto)
    ensures OnTrack(goal, Run(s, Replays(upto - next)), log, upto, upto)
  {
    var holds := (t: State, k: nat) => OnTrack(goal, t, log, k, upto);
    forall t, k: nat | next <= k < upto && holds(t, k) ensures holds(Step(t, Replay(true)), k + 1) {
      ReplayOnce(goal, t, log, k, upto);
    }
    ReplaysKeep(holds, s, next, upto - next);
  }

  /** An undisturbed replay sends, in order, exactly what the two passes over its backlog keep. */
  lemma {:induction false} ReplayMatchesDeduplicate(s: State, kept: seq<nat>)
    requires s.phase.Replaying? && s.phase.next <= s.phase.upto <= |s.log|
    requires var backlog := s.log[s.phase.next..s.phase.upto]; kept == KeptFrom(backlog, 0, |backlog|)
    ensures Run(s, Replays(s.phase.upto - s.phase.next)).sent == s.sent + Shifted(kept, s.phase.next)
  {
    var from, upto := s.phase.next, s.phase.upto;
    var goal := s.sent + KeptFrom(s.log, from, upto);
    ReplayProgress(goal, s, s.log, from, upto);
    KeptShift(s.log, from, upto, s.log[from..upto], 0);
    assert KeptFrom(s.log, upto, upto) == [];
  }

  /** Whatever the connection was doing when it broke, a new one first stands at the undelivered events. */
  lemma {:induction false} ReconnectStands(s: State)
    requires Inv(s)
    ensures var t := Run(s, [Disconnect, Connect]);
            var from := ReadFrom(|s.log|, s.maxSize, s.cursor);
            from <= |s.log| && OnTrack(s.sent + KeptFrom(s.log, from, |s.log|), t, s.log, from, |s.log|)
  {
    RunAppend(s, [], Disconnect);
    RunAppend(s, [Disconnect], Connect);
    assert [] + [Disconnect] == [Disconnect] && [Disconnect] + [Connect] == [Disconnect, Connect];
  }

  lemma {:induction false} ReplayFinishes(goal: seq<nat>, s: State, log: seq<Event>, next: nat, upto: nat)
    returns (actions: seq<Action>)
    requires OnTrack(goal, s, log, next, upto)
    ensures var t := Run(s, actions); t.log == log && t.sent == goal && t.phase.Sleeping?
  {
    var replays := Replays(upto - next);
    var replayed := Run(s, replays);
    ReplayProgress(goal, s, log, next, upto);
    ReplayEnds(goal, replayed, log, upto);
    actions := replays + [Replay(true)] + [StartStream];
    assert Run(s, actions) == Step(Step(replayed, Replay(true)), StartStream) by {
      RunAppend(s, replays, Replay(true));
      RunAppend(s, replays + [Replay(true)], StartStream);
    }
  }

  lemma {:induction false} ReplayEnds(goal: seq<nat>, s: State, log: seq<Event>, upto: nat)
    requires OnTrack(goal, s, log, upto, upto)
    ensures var t := Step(Step(s, Replay(true)), StartStream);
            t.log == log && t.sent == goal && t.phase.Sleeping?
  {
    assert KeptFrom(log, upto, upto) == [];
  }

  lemma {:induction false} KeptBeyond(s: State, from: nat)
    requires Inv(s) && from == ReadFrom(|s.log|, s.maxSize, s.cursor) && from <= |s.log|
    ensures Increasing(KeptFrom(s.log, from, |s.log|))
    ensures forall n: nat :: n in KeptFrom(s.log, from, |s.log|) <==>
              && s.cursor < n && Oldest(|s.log|, s.maxSize) <= n < |s.log|
              && !Superseded(s.log, n, |s.log|)
  {
    KeptFromMeaning(s.log, from, |s.log|);
    KeptFromIncreasing(s.log, from, |s.log|);
  }

  /**
   * A reconnect from any state whose sends all return brings out, after what was sent before and in order, the events
   * the buffer still holds beyond the cursor that no later request of their kind follows; a stream task started then
   * goes on from there.
   */
  lemma {:induction false} ReconnectDelivers(s: State) returns (actions: seq<Action>, t: State)
    requires Inv(s)
    ensures t == Run(s, [Disconnect, Connect] + actions)
    ensures t.log == s.log && t.phase.Sleeping? && s.sent <= t.sent && Increasing(t.sent[|s.sent|..])
    ensures forall n: nat :: n in t.sent[|s.sent|..] <==>
              && s.cursor < n && Oldest(|s.log|, s.maxSize) <= n < |s.log|
              && !Superseded(s.log, n, |s.log|)
  {
    ReconnectStands(s);
    var from := ReadFrom(|s.log|, s.maxSize, s.cursor);
    var kept := KeptFrom(s.log, from, |s.log|);
    KeptBeyond(s, from);
    var standing := Run(s, [Disconnect, Connect]);
    actions := ReplayFinishes(s.sent + kept, standing, s.log, from, |s.log|);
    t := Run(standing, actions);
    RunConcat(s, [Disconnect, Connect], actions);
    assert t.sent == s.sent + kept && t.sent[|s.sent|..] == kept;
  }

  // ---------------------------------------------------------------------------
  // New buffer generations

  /**
   * A new buffer, numbering from 0 again, on a connection that is up. `regenerate` also resets the cursor, to -1;
   * after `cleanSession` it stays where the old generation left it.
   */
  function NextGeneration(maxSize: nat, cursor: int): State {
    Init(maxSize).(cursor := cursor, phase := Online)
  }

  /** Nothing at or below the bound went out or is on its way. */
  ghost predicate OnlyAbove(s: State, bound: int) {
    && Numbered(s.log) && s.taken <= |s.log| && bound <= s.cursor
    && (forall n | n in s.sent :: n > bound)
    && (s.phase.Replaying? ==> s.phase.next > bound || s.phase.next >= s.phase.upto)
    && (s.phase.Sending? ==> s.phase.number > bound)
  }

  lemma {:induction false} StepStaysAbove(s: State, a: Action, bound: int)
    requires OnlyAbove(s, bound)
    ensures OnlyAbove(Step(s, a), bound)
  {
  }

  /** In every run of the new generation, of any length, only numbers beyond the cursor it started with go out. */
  lemma {:induction false} StaleCursorSilences(maxSize: nat, cursor: int, actions: seq<Action>)
    ensures OnlyAbove(Run(NextGeneration(maxSize, cursor), actions), cursor)
  {
    if actions != [] {
      StaleCursorSilences(maxSize, cursor, actions[..|actions| - 1]);
      StepStaysAbove(Run(NextGeneration(maxSize, cursor), actions[..|actions| - 1]), actions[|actions| - 1], cursor);
    }
  }

  /** The stream task waits and has taken everything; the cursor is at the last event or still where it started. */
  ghost predicate CaughtUp(s: State, cursor: int, count: nat) {
    && s.phase.Sleeping? && !s.done && Numbered(s.log) && |s.log| == s.taken == count
    && s.cursor == (if cursor < count - 1 then count - 1 else cursor)
    && (forall n: nat | cursor < n < count :: n in s.sent)
  }

  /** One more event, pushed and taken from the live queue. */
  lemma {:induction false} OneMoreEvent(s: State, cursor: int, count: nat) returns (actions: seq<Action>)
    requires CaughtUp(s, cursor, count) && cursor >= -1
    ensures CaughtUp(Run(s, actions), cursor, count + 1)
  {
    var push := Push(Payload(Other, ""));
    actions := if count <= cursor then [push, ReadState, Drain, Drain]
               else [push, ReadState, Drain, SendReturns(true), Drain];
    var s1 := Step(s, push);
    var s2 := Step(s1, ReadState);
    var s3 := Step(s2, Drain);
    assert Run(s, actions[..0]) == s;
    assert actions[..1][..0] == actions[..0] && Run(s, actions[..1]) == s1;
    assert actions[..2][..1] == actions[..1] && Run(s, actions[..2]) == s2;
    assert actions[..3][..2] == actions[..2] && Run(s, actions[..3]) == s3;
    assert actions[..4][..3] == actions[..3] && Run(s, actions[..4]) == Step(s3, actions[3]);
    assert actions[..|actions|] == actions;
    if count > cursor {
      assert actions[..4] == actions[..|actions| - 1];
    }
  }

  lemma {:induction false} RunConcat(s: State, a: seq<Action>, b: seq<Action>)
    ensures Run(s, a + b) == Run(Run(s, a), b)
  {
    if b == [] {
      assert a + b == a;
    } else {
      RunConcat(s, a, b[..|b| - 1]);
      assert (a + b)[..|a + b| - 1] == a + b[..|b| - 1];
    }
  }

  lemma {:induction false} ManyEvents(maxSize: nat, cursor: int, count: nat) returns (actions: seq<Action>)
    requires cursor >= -1
    ensures CaughtUp(Run(NextGeneration(maxSize, cursor), actions), cursor, count)
  {
    if count == 0 {
      actions := [StartStream];
      RunAppend(NextGeneration(maxSize, cursor), [], StartStream);
      assert [] + [StartStream] == [StartStream];
    } else {
      var first := ManyEvents(maxSize, cursor, count - 1);
      var more := OneMoreEvent(Run(NextGeneration(maxSize, cursor), first), cursor, count - 1);
      RunConcat(NextGeneration(maxSize, cursor), first, more);
      actions := first + more;
    }
  }

  /** Event `n` of the new generation can be sent at all exactly when it lies beyond the cursor. */
  lemma {:induction false} CanBeSentIff(maxSize: nat, cursor: int, n: nat)
    requires cursor >= -1
    ensures (exists actions :: n in Run(NextGeneration(maxSize, cursor), actions).sent) <==> n > cursor
  {
    if n > cursor {
      var actions := ManyEvents(maxSize, cursor, n + 1);
      assert n in Run(NextGeneration(maxSize, cursor), actions).sent;
    } else {
      forall actions ensures n !in Run(NextGeneration(maxSize, cursor), actions).sent {
        StaleCursorSilences(maxSize, cursor, actions);
      }
    }
  }

  /** The new generation delivers as promised in every run exactly when the cursor was reset with the buffer. */
  lemma {:induction false} NextGenerationDeliversIff(maxSize: nat, cursor: int)
    requires cursor >= -1
    ensures (forall actions, n: nat | n < |Run(NextGeneration(maxSize, cursor), actions).log| ::
               DeliveredSoFar(Run(NextGeneration(maxSize, cursor), actions), n)) <==> cursor == -1
  {
    var start := NextGeneration(maxSize, cursor);
    if cursor == -1 {
      forall actions, n: nat ensures DeliveredSoFar(Run(start, actions), n) {
        RunKeepsInv(start, actions);
      }
    } else {
      var actions, n: nat := [Push(Payload(Other, ""))], 0;
      RunAppend(start, [], actions[0]);
      assert [] + actions == actions;
      assert n < |Run(NextGeneration(maxSize, cursor), actions).log|;
      assert !DeliveredSoFar(Run(NextGeneration(maxSize, cursor), actions), n);
    }
  }

  /** Whatever is pushed first, the same steps consume it unsent after a stale cursor and send it after a reset one. */
  lemma {:induction false} StaleCursorExample(maxSize: nat, p: Payload)
    ensures var s := Run(NextGeneration(maxSize, 0), [StartStream] + [Push(p), ReadState, Drain, Drain]);
            s.sent == [] && s.taken == |s.log| == 1 && s.phase.Sleeping?
    ensures var s := Run(NextGeneration(maxSize, -1), [StartStream] + [Push(p), ReadState, Drain, SendReturns(true)]);
            s.sent == [0]
  {
    StartThenFour(NextGeneration(maxSize, 0), Push(p), ReadState, Drain, Drain);
    StartThenFour(NextGeneration(maxSize, -1), Push(p), ReadState, Drain, SendReturns(true));
  }

  lemma {:induction false} StartThenFour(s: State, a: Action, b: Action, c: Action, d: Action)
    ensures Run(s, [StartStream] + [a, b, c, d]) == Step(Step(Step(Step(Step(s, StartStream), a), b), c), d)
  {
    RunAppend(s, [], StartStream);
    assert [] + [StartStream] == [StartStream];
    RunConcat(s, [StartStream], [a, b, c, d]);
    FourSteps(Step(s, StartStream), a, b, c, d);
  }

  lemma {:induction false} FourSteps(s: State, a: Action, b: Action, c: Action, d: Action)
    ensures Run(s, [a, b, c, d]) == Step(Step(Step(Step(s, a), b), c), d)
  {
    assert [a, b, c, d][..3] == [a, b, c] && [a, b, c][..2] == [a, b] && [a, b][..1] == [a] && [a][..0] == [];
    assert Run(s, [a]) == Step(s, a);
    assert Run(s, [a, b]) == Step(Step(s, a), b);
    assert Run(s, [a, b, c]) == Step(Step(Step(s, a), b), c);
  }
}
