/**
 * The background runner of one session (gateway/service/AgentBackgroundRunner.py, submit and _runAgentLoop) as a
 * state machine over its atomic steps. The runner lock is held across the await that resets the event buffer, so
 * `submit` and the `finally` block take two steps each; taking the next message at the end of a round needs no lock.
 */
module Runner {

  type Text = string

  /** A loop is in a round, or has left its while loop and is on its way to the lock of its `finally` block. */
  datatype LoopPhase = InRound | Exiting

  datatype Lock = Free | Submitting | Finalising(id: nat)

  datatype State = State(
    running: bool,
    queue: seq<Text>,
    loops: map<nat, LoopPhase>,
    nextId: nat,
    lock: Lock,
    submitted: seq<Text>,
    started: seq<Text>)

  datatype Action =
    | SubmitBegin(message: Text) | SubmitEnd
    | RoundEnds(id: nat) | RoundFails(id: nat)
    | FinallyBegin(id: nat) | FinallyEnd
    | Cancel

  const INIT := State(false, [], map[], 0, Free, [], [])

  function Spawn(s: State): State {
    s.(loops := s.loops[s.nextId := InRound], nextId := s.nextId + 1, lock := Free)
  }

  function StartQueued(s: State): State
    requires s.queue != []
  {
    s.(started := s.started + [s.queue[0]], queue := s.queue[1..])
  }

  /** A step that is not enabled changes nothing. */
  function Step(s: State, a: Action): State {
    match a
    case SubmitBegin(m) =>
      if !s.lock.Free? then s
      else if s.running then s.(queue := s.queue + [m], submitted := s.submitted + [m])
      else s.(running := true, submitted := s.submitted + [m], started := s.started + [m], lock := Submitting)
    case SubmitEnd => if s.lock.Submitting? then Spawn(s) else s
    case RoundEnds(id) =>
      if !(id in s.loops && s.loops[id].InRound?) then s
      else if s.queue != [] then StartQueued(s)
      else s.(loops := s.loops[id := Exiting])
    case RoundFails(id) =>
      if id in s.loops && s.loops[id].InRound? then s.(loops := s.loops[id := Exiting]) else s
    case FinallyBegin(id) =>
      if !(s.lock.Free? && id in s.loops && s.loops[id].Exiting?) then s
      else if s.queue == [] then s.(running := false, loops := s.loops - {id})
      else StartQueued(s).(running := true, lock := Finalising(id))
    case FinallyEnd => if s.lock.Finalising? then Spawn(s.(loops := s.loops - {s.lock.id})) else s
    case Cancel => if s.lock.Free? then s.(queue := [], running := false) else s
  }

  function Run(s: State, actions: seq<Action>): State
    decreases |actions|
  {
    if actions == [] then s else Run(Step(s, actions[0]), actions[1..])
  }

  ghost predicate NoCancel(actions: seq<Action>) {
    forall i | 0 <= i < |actions| :: !actions[i].Cancel?
  }

  /** Every cancel of the run comes while the session is not reported as running. */
  ghost predicate CancelsIdle(s: State, actions: seq<Action>)
    decreases |actions|
  {
    actions != [] ==>
      && (actions[0].Cancel? && s.lock.Free? ==> !s.running)
      && CancelsIdle(Step(s, actions[0]), actions[1..])
  }

  ghost predicate AtMostOneLoop(s: State) {
    forall a, b | a in s.loops && b in s.loops :: a == b
  }

  ghost predicate Inv(s: State) {
    && s.submitted == s.started + s.queue
    && AtMostOneLoop(s)
    && (forall id | id in s.loops :: id < s.nextId)
    && (s.queue != [] ==> s.running)
    && match s.lock
       case Free => s.running <==> s.loops != map[]
       case Submitting => s.running && s.loops == map[]
       case Finalising(id) => s.running && id in s.loops && s.loops[id].Exiting?
  }

  lemma {:induction false} StartKeepsOrder(s: State)
    requires s.queue != [] && s.submitted == s.started + s.queue
    ensures var s' := StartQueued(s); s'.submitted == s'.started + s'.queue
  {
    assert s.queue == [s.queue[0]] + s.queue[1..];
  }

  lemma {:induction false} RemovedOnly(s: State, id: nat)
    requires AtMostOneLoop(s) && id in s.loops
    ensures s.loops - {id} == map[]
  {
    forall k
      ensures k !in s.loops - {id}
    {
    }
  }

  lemma {:induction false} StepKeepsInv(s: State, a: Action)
    requires Inv(s) && (a.Cancel? && s.lock.Free? ==> !s.running)
    ensures Inv(Step(s, a))
  {
    if s.queue != [] {
      StartKeepsOrder(s);
    }
    match a
    case FinallyBegin(id) =>
      if id in s.loops {
        RemovedOnly(s, id);
      }
    case FinallyEnd =>
      if s.lock.Finalising? {
        RemovedOnly(s, s.lock.id);
        assert s.nextId in Step(s, a).loops;
      }
    case RoundEnds(id) => assert id in s.loops ==> id in Step(s, a).loops;
    case RoundFails(id) => assert id in s.loops ==> id in Step(s, a).loops;
    case SubmitBegin(m) =>
      assert s.started + s.queue + [m] == s.started + (s.queue + [m]);
      assert s.queue == [] ==> s.started + s.queue + [m] == s.started + [m] + [];
    case SubmitEnd => assert s.lock.Submitting? ==> s.nextId in Step(s, a).loops;
    case Cancel =>
  }

  lemma {:induction false} RunKeepsInv(s: State, actions: seq<Action>)
    requires Inv(s) && CancelsIdle(s, actions)
    ensures Inv(Run(s, actions))
    decreases |actions|
  {
    if actions != [] {
      StepKeepsInv(s, actions[0]);
      RunKeepsInv(Step(s, actions[0]), actions[1..]);
    }
  }

  lemma {:induction false} NoCancelIsIdle(s: State, actions: seq<Action>)
    requires NoCancel(actions)
    ensures CancelsIdle(s, actions)
    decreases |actions|
  {
    if actions != [] {
      NoCancelIsIdle(Step(s, actions[0]), actions[1..]);
    }
  }

  /**
   * In every interleaving whose cancels find the session idle: messages start in submission order, each once, with the
   * queue holding the rest; one loop at most is live; and when no loop is left and the lock is free, no message is
   * stranded.
   */
  lemma {:induction false} RunnerOrder(actions: seq<Action>)
    requires CancelsIdle(INIT, actions)
    ensures var s := Run(INIT, actions);
            && HandedIn(INIT, actions) == s.submitted == s.started + s.queue
            && AtMostOneLoop(s)
            && (s.queue != [] ==> s.running)
            && (s.lock.Free? && s.loops == map[] ==> !s.running && s.started == s.submitted)
  {
    RunKeepsInv(INIT, actions);
    SubmittedIsHandedIn(INIT, actions);
    var s := Run(INIT, actions);
    if s.queue == [] {
      assert s.started + s.queue == s.started;
    }
  }

  /** The messages handed in during the run: a submit waits for the lock, so it counts while the lock is free. */
  function HandedIn(s: State, actions: seq<Action>): seq<Text>
    decreases |actions|
  {
    if actions == [] then []
    else
      (if actions[0].SubmitBegin? && s.lock.Free? then [actions[0].message] else [])
      + HandedIn(Step(s, actions[0]), actions[1..])
  }

  /** No message handed in is dropped or added, with or without cancels. */
  lemma {:induction false} SubmittedIsHandedIn(s: State, actions: seq<Action>)
    ensures Run(s, actions).submitted == s.submitted + HandedIn(s, actions)
    decreases |actions|
  {
    if actions != [] {
      var s' := Step(s, actions[0]);
      SubmittedIsHandedIn(s', actions[1..]);
      assert s.submitted + HandedIn(s, actions) == s'.submitted + HandedIn(s', actions[1..]);
    }
  }

  lemma {:induction false} RunConcat(s: State, a: seq<Action>, b: seq<Action>)
    ensures Run(s, a + b) == Run(Run(s, a), b)
    decreases |a|
  {
    if a == [] {
      assert a + b == b;
    } else {
      RunConcat(Step(s, a[0]), a[1..], b);
      assert (a + b)[0] == a[0] && (a + b)[1..] == a[1..] + b;
    }
  }

  ghost predicate RunnerStepsOnly(actions: seq<Action>) {
    forall i | 0 <= i < |actions| :: !actions[i].SubmitBegin? && !actions[i].Cancel?
  }

  /** From a state with queued messages, one or two steps of the runner itself start the next one. */
  lemma {:induction false} NextStart(s: State) returns (actions: seq<Action>)
    requires Inv(s) && s.queue != []
    ensures RunnerStepsOnly(actions)
    ensures var s' := Run(s, actions); s'.started == s.started + [s.queue[0]] && s'.queue == s.queue[1..]
  {
    match s.lock
    case Submitting =>
      actions := [SubmitEnd, RoundEnds(s.nextId)];
      RunTwo(s, SubmitEnd, RoundEnds(s.nextId));
    case Finalising(id) =>
      actions := [FinallyEnd, RoundEnds(s.nextId)];
      RunTwo(s, FinallyEnd, RoundEnds(s.nextId));
    case Free =>
      var id :| id in s.loops;
      var a := if s.loops[id].InRound? then RoundEnds(id) else FinallyBegin(id);
      actions := [a];
      assert actions[1..] == [];
      assert Run(s, actions) == Step(s, a);
  }

  /** No message is ever stuck: from every reachable state the runner's own steps can start everything submitted. */
  lemma {:induction false} EverythingCanStart(s: State) returns (actions: seq<Action>)
    requires Inv(s)
    ensures RunnerStepsOnly(actions)
    ensures Run(s, actions).started == s.submitted && Run(s, actions).queue == []
    decreases |s.queue|
  {
    if s.queue == [] {
      actions := [];
      assert s.started + s.queue == s.started;
    } else {
      var first := NextStart(s);
      NoCancelIsIdle(s, first);
      RunKeepsInv(s, first);
      var s' := Run(s, first);
      var rest := EverythingCanStart(s');
      RunConcat(s, first, rest);
      actions := first + rest;
      assert s'.started + s'.queue == s.started + s.queue by {
        assert s.queue == [s.queue[0]] + s.queue[1..];
      }
    }
  }

  /** A cancel drops what is queued and reports the session idle; what was started and what runs is not touched. */
  lemma {:induction false} CancelEffect(s: State)
    requires s.lock.Free?
    ensures var s' := Step(s, Cancel);
            s'.queue == [] && !s'.running && s'.started == s.started && s'.loops == s.loops
  {
  }

  /** A second loop can come up after a cancel exactly when the session was running, that is, had a live loop. */
  lemma {:induction false} CancelSafeIff(s: State)
    requires Inv(s) && s.lock.Free?
    ensures s.running <==> s.loops != map[]
    ensures Inv(Step(s, Cancel)) <==> !s.running
    ensures (exists later :: NoCancel(later) && !AtMostOneLoop(Run(Step(s, Cancel), later))) <==> s.running
  {
    var s' := Step(s, Cancel);
    if s.loops == map[] {
      forall later | NoCancel(later)
        ensures AtMostOneLoop(Run(s', later))
      {
        NoCancelIsIdle(s', later);
        RunKeepsInv(s', later);
      }
    } else {
      var later := [SubmitBegin("a"), SubmitEnd];
      RunTwo(s', SubmitBegin("a"), SubmitEnd);
      var id :| id in s.loops;
      assert id in Run(s', later).loops && s.nextId in Run(s', later).loops;
      assert NoCancel(later) && !AtMostOneLoop(Run(s', later));
    }
  }

  const TWO_SUBMITS := [SubmitBegin("a"), SubmitEnd, Cancel, SubmitBegin("b"), SubmitEnd]

  /**
   * `cancel` clears `running` while the old loop is still live, so the next submit starts a second one, and the old
   * one's `finally` then reports the session idle.
   */
  lemma {:induction false} CancelCounterexample()
    ensures !AtMostOneLoop(Run(INIT, TWO_SUBMITS))
    ensures var s := Run(INIT, TWO_SUBMITS + [RoundFails(0), FinallyBegin(0)]);
            !s.running && s.loops == map[1 := InRound]
  {
    var s1 := Step(INIT, SubmitBegin("a"));
    var s2 := Step(s1, SubmitEnd);
    var s3 := Step(s2, Cancel);
    var s4 := Step(s3, SubmitBegin("b"));
    var s5 := Step(s4, SubmitEnd);
    var s6 := Step(s5, RoundFails(0));
    var s7 := Step(s6, FinallyBegin(0));
    assert s5.loops == map[0 := InRound, 1 := InRound];
    assert 0 in s5.loops && 1 in s5.loops;
    assert s7.loops == map[1 := InRound];
    assert TWO_SUBMITS == [SubmitBegin("a"), SubmitEnd] + [Cancel, SubmitBegin("b"), SubmitEnd];
    RunConcat(INIT, [SubmitBegin("a"), SubmitEnd], [Cancel, SubmitBegin("b"), SubmitEnd]);
    RunTwo(INIT, SubmitBegin("a"), SubmitEnd);
    assert [Cancel, SubmitBegin("b"), SubmitEnd][1..] == [SubmitBegin("b"), SubmitEnd];
    RunTwo(s3, SubmitBegin("b"), SubmitEnd);
    RunConcat(INIT, TWO_SUBMITS, [RoundFails(0), FinallyBegin(0)]);
    RunTwo(s5, RoundFails(0), FinallyBegin(0));
  }

  lemma {:induction false} RunTwo(s: State, a: Action, b: Action)
    ensures Run(s, [a, b]) == Step(Step(s, a), b)
  {
    assert [a, b][1..] == [b] && [b][1..] == [];
    assert Run(Step(s, a), [b]) == Run(Step(Step(s, a), b), []);
  }
}
