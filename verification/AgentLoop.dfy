/** The agent's THINKING / EXECUTING / PLAN_REVIEW loop (agent/agent_core/agent_loop.py, AgentCore). */
module AgentLoop {
  import opened Wrappers
  import opened Messages
  import opened Repair
  import opened Compress
  import opened ModePrompt
  import opened Anthropic
  import opened Pipeline
  import opened Safety
  import opened ToolOutput

  datatype LoopState = Thinking | Executing | PlanReview | Done

  /** Texts the loop writes into the conversation on its own. */
  datatype Notice =
    | BadPlan | PlanSubmitted | Skipped | MissingReason | Blocked | Unauthorised | ApprovalTimedOut | UserRejected
    | PlanTimeout | PlanTimeoutSystem | PlanAccepted | PlanText | PlanGo | PlanRefused | PlanFeedback | CanaryStop

  /** What the loop reads from registries, parsers and prompt files. */
  datatype World = World(
    policy: Policy,
    riskOf: string -> Risk,
    reasonOf: Call -> string,
    valuesOf: Call -> seq<string>,
    validPlan: Call -> bool,
    notice: (Notice, Call) -> string,
    modePrompt: Mode -> string,
    guidance: string,
    summarise: seq<Message> -> string)

  datatype Config = Config(maxRounds: int, thresholdTokens: int, maxToolCallsPerRound: int, unattended: bool)

  /** An `approve` or `reject` arriving from outside. */
  datatype Resolution = Resolution(actionId: string, approved: bool)

  /** Everything the outside contributes while one call is handled. */
  datatype CallInput = CallInput(
    freshId: string,
    modeSwitch: Option<Mode>,
    choiceOutput: string,
    preAuthorised: bool,
    actionId: string,
    resolutions: seq<Resolution>,
    timedOut: bool,
    toolOutput: string,
    replacement: Option<string>)

  datatype PendingPlan = PendingPlan(call: Call, callId: string)

  datatype PlanOutcome = PlanTimedOut | PlanApproved | PlanRejected

  /** Everything the outside contributes to one iteration of the loop. */
  datatype RoundInput = RoundInput(
    expired: bool,
    leaked: bool,
    text: string,
    preamble: Option<string>,
    calls: seq<Call>,
    handling: nat -> CallInput,
    plan: PlanOutcome)

  /** A tool that really ran: in which round, for which call of the batch, under which mode and inputs. */
  datatype Execution = Execution(round: nat, index: nat, call: Call, mode: Mode, input: CallInput)

  // ---------------------------------------------------------------------------
  // When a tool runs

  /** The decision standing for an action when the waiting task resumes. */
  function LastDecision(resolutions: seq<Resolution>, actionId: string): Option<bool> {
    if resolutions == [] then None
    else
      var last := resolutions[|resolutions| - 1];
      if last.actionId == actionId then Some(last.approved)
      else LastDecision(resolutions[..|resolutions| - 1], actionId)
  }

  predicate ApprovedInTime(input: CallInput) {
    !input.timedOut && LastDecision(input.resolutions, input.actionId) == Some(true)
  }

  predicate IsPlan(world: World, call: Call) {
    call.name == "submitPlan" && world.validPlan(call)
  }

  predicate IsIntercepted(call: Call) {
    call.name == "ask_choice" || call.name == "submitPlan"
  }

  predicate OverLimit(config: Config, index: nat) {
    config.maxToolCallsPerRound > 0 && index >= config.maxToolCallsPerRound
  }

  function CallVerdict(world: World, call: Call, mode: Mode): Verdict {
    VerdictFor(world.policy, world.riskOf(call.name), world.valuesOf(call), mode)
  }

  /** The permission a tool needs: an ALLOW verdict, or a REQUIRE_CONFIRM one that this very call got confirmed. */
  predicate Permitted(world: World, config: Config, call: Call, mode: Mode, input: CallInput) {
    match CallVerdict(world, call, mode)
    case Allow => true
    case Block => false
    case RequireConfirm => if config.unattended then input.preAuthorised else ApprovedInTime(input)
  }

  predicate Runs(world: World, config: Config, index: nat, call: Call, mode: Mode, input: CallInput) {
    && !IsIntercepted(call)
    && !OverLimit(config, index)
    && (!world.riskOf(call.name).ReadOnly? ==> world.reasonOf(call) != "")
    && Permitted(world, config, call, mode, input)
  }

  /** Plan submissions and skipped calls are answered at full length, without charging the round's budget. */
  predicate Charges(config: Config, index: nat, call: Call) {
    call.name == "ask_choice" || (call.name != "submitPlan" && !OverLimit(config, index))
  }

  /** What a call is answered with: the tool's output exactly when it runs, otherwise the notice that says why not. */
  function Reply(world: World, config: Config, index: nat, call: Call, mode: Mode, input: CallInput): string {
    if call.name == "ask_choice" then input.choiceOutput
    else if Runs(world, config, index, call, mode, input) then input.toolOutput
    else
      var notice :=
        if call.name == "submitPlan" then if world.validPlan(call) then PlanSubmitted else BadPlan
        else if OverLimit(config, index) then Skipped
        else if !world.riskOf(call.name).ReadOnly? && world.reasonOf(call) == "" then MissingReason
        else if CallVerdict(world, call, mode).Block? then Blocked
        else if config.unattended then Unauthorised
        else if input.timedOut then ApprovalTimedOut
        else UserRejected;
      world.notice(notice, call)
  }

  /** The text sent for a reply: replaced, fitted into what the earlier calls left of the budget, or unfitted. */
  function SentText(config: Config, index: nat, call: Call, input: CallInput, reply: string, total: nat): string {
    if input.replacement.Some? then input.replacement.value
    else if Charges(config, index, call) then Fit(reply, PER_TOOL, PER_ROUND - total)
    else reply
  }

  /** What a reply adds to the round's counter. */
  function ChargeFor(config: Config, index: nat, call: Call, reply: string, total: nat): nat {
    if Charges(config, index, call) then |Fit(reply, PER_TOOL, PER_ROUND - total)| else 0
  }

  /** The run of a tool, if it runs. */
  function Ran(world: World, config: Config, e: Execution): seq<Execution> {
    if Runs(world, config, e.index, e.call, e.mode, e.input) then [e] else []
  }

  function Switched(mode: Mode, input: CallInput): Mode {
    if input.modeSwitch.Some? then input.modeSwitch.value else mode
  }

  /** No write or dangerous tool runs in a read-only or planning mode, or without a stated reason. */
  lemma {:induction false} RunsNeedsModeAndReason(world: World, config: Config, e: Execution)
    requires Runs(world, config, e.index, e.call, e.mode, e.input)
    requires !world.riskOf(e.call.name).ReadOnly?
    ensures !e.mode.ReadOnlyMode? && !e.mode.PlanMode?
    ensures world.reasonOf(e.call) != ""
    ensures world.riskOf(e.call.name).Dangerous? && !e.mode.BreakGlass? ==>
              if config.unattended then e.input.preAuthorised else ApprovedInTime(e.input)
  {
  }

  /** Exactly when a tool runs, in terms of the call, the mode, the policy and the confirmations. */
  lemma {:induction false} RunsExactly(world: World, config: Config, index: nat, call: Call, mode: Mode,
                                       input: CallInput)
    ensures var risk, max := world.riskOf(call.name), config.maxToolCallsPerRound;
            var sensitive := || Flagged(world.policy, world.valuesOf(call)) || risk == Dangerous
                             || (risk == Write && world.policy.allWrite);
            Runs(world, config, index, call, mode, input) <==>
              && call.name != "ask_choice" && call.name != "submitPlan" && (max <= 0 || index < max)
              && (risk == ReadOnly || (world.reasonOf(call) != "" && mode != ReadOnlyMode && mode != PlanMode))
              && (sensitive && mode != BreakGlass ==>
                    if config.unattended then input.preAuthorised
                    else !input.timedOut && LastDecision(input.resolutions, input.actionId) == Some(true))
  {
    VerdictTable(world.policy, world.riskOf(call.name), world.valuesOf(call), mode);
  }

  /** The decision that counts is the last one made about this very action. */
  lemma {:induction false} LastDecisionMeaning(resolutions: seq<Resolution>, actionId: string, approved: bool)
    ensures LastDecision(resolutions, actionId) == Some(approved) <==>
            exists i ::
              && 0 <= i < |resolutions| && resolutions[i] == Resolution(actionId, approved)
              && forall j | i < j < |resolutions| :: resolutions[j].actionId != actionId
  {
    if resolutions != [] {
      var n := |resolutions| - 1;
      var init := resolutions[..n];
      LastDecisionMeaning(init, actionId, approved);
      assert forall i | 0 <= i < n :: init[i] == resolutions[i];
      if resolutions[n].actionId == actionId {
        assert resolutions[n] == Resolution(actionId, resolutions[n].approved);
      } else if LastDecision(resolutions, actionId) == Some(approved) {
        var i :| && 0 <= i < |init| && init[i] == Resolution(actionId, approved)
                 && forall j | i < j < |init| :: init[j].actionId != actionId;
        assert resolutions[i] == Resolution(actionId, approved);
      }
    }
  }

  /** Which calls are answered without touching the budget. */
  lemma {:induction false} UnchargedExactly(config: Config, index: nat, call: Call)
    ensures var max := config.maxToolCallsPerRound;
            !Charges(config, index, call) <==>
              call.name == "submitPlan" || (call.name != "ask_choice" && max > 0 && index >= max)
  {
  }

  /** What each kind of call is answered with. */
  lemma {:induction false} ReplyTells(world: World, config: Config, index: nat, call: Call, mode: Mode,
                                      input: CallInput)
    ensures var reply, max := Reply(world, config, index, call, mode, input), config.maxToolCallsPerRound;
            var readOnly, verdict := world.riskOf(call.name) == ReadOnly, CallVerdict(world, call, mode);
            var ordinary := call.name != "ask_choice" && call.name != "submitPlan";
            var checked := ordinary && (max <= 0 || index < max) && (readOnly || world.reasonOf(call) != "");
            && (call.name == "ask_choice" ==> reply == input.choiceOutput)
            && (call.name == "submitPlan" ==>
                  reply == world.notice(if world.validPlan(call) then PlanSubmitted else BadPlan, call))
            && (ordinary && max > 0 && index >= max ==> reply == world.notice(Skipped, call))
            && (ordinary && (max <= 0 || index < max) && !readOnly && world.reasonOf(call) == "" ==>
                  reply == world.notice(MissingReason, call))
            && (checked && verdict == Block ==> reply == world.notice(Blocked, call))
            && (checked && verdict == Allow ==> reply == input.toolOutput)
            && (checked && verdict == RequireConfirm && config.unattended ==>
                  reply == if input.preAuthorised then input.toolOutput else world.notice(Unauthorised, call))
            && (checked && verdict == RequireConfirm && !config.unattended ==>
                  reply == if input.timedOut then world.notice(ApprovalTimedOut, call)
                           else if LastDecision(input.resolutions, input.actionId) == Some(true) then input.toolOutput
                           else world.notice(UserRejected, call))
  {
  }

  ghost predicate Before(e: Execution, f: Execution) {
    e.round < f.round || (e.round == f.round && e.index < f.index)
  }

  /** Runs of tools are all permitted, and no call of any round runs twice. */
  ghost predicate Gated(world: World, config: Config, executions: seq<Execution>) {
    && (forall i | 0 <= i < |executions| ::
          var e := executions[i]; Runs(world, config, e.index, e.call, e.mode, e.input))
    && (forall i, j | 0 <= i < j < |executions| :: Before(executions[i], executions[j]))
  }

  ghost predicate UpTo(executions: seq<Execution>, round: nat, index: nat) {
    forall i | 0 <= i < |executions| ::
      executions[i].round < round || (executions[i].round == round && executions[i].index < index)
  }

  lemma {:induction false} NextRound(executions: seq<Execution>, round: nat, index: nat)
    requires UpTo(executions, round, index)
    ensures UpTo(executions, round + 1, 0)
  {
  }

  lemma {:induction false} GateExtended(world: World, config: Config, ran: seq<Execution>, round: nat, index: nat,
                                        e: Execution)
    requires Gated(world, config, ran) && UpTo(ran, round, index)
    requires e.round == round && e.index == index && Runs(world, config, index, e.call, e.mode, e.input)
    ensures Gated(world, config, ran + [e]) && UpTo(ran + [e], round, index + 1)
  {
  }

  // ---------------------------------------------------------------------------
  // When a batch is answered

  /** How many calls of a batch are handled: all of them, or up to and including the first valid plan. */
  function Handled(world: World, calls: seq<Call>): (n: nat)
    ensures n <= |calls|
  {
    if calls == [] then 0
    else if IsPlan(world, calls[0]) then 1
    else 1 + Handled(world, calls[1..])
  }

  predicate HasPlan(world: World, calls: seq<Call>) {
    calls != [] && (IsPlan(world, calls[0]) || HasPlan(world, calls[1..]))
  }

  /** Calls are handled up to and including the first valid plan, or all of them. */
  lemma {:induction false} HandledMeaning(world: World, calls: seq<Call>)
    ensures var n := Handled(world, calls);
            && (forall k | 0 <= k < n - 1 :: !IsPlan(world, calls[k]))
            && (n < |calls| ==> n > 0 && IsPlan(world, calls[n - 1]))
            && (HasPlan(world, calls) <==> exists k :: 0 <= k < |calls| && IsPlan(world, calls[k]))
  {
    if calls != [] {
      var rest := calls[1..];
      HandledMeaning(world, rest);
      assert forall k | 0 <= k < |rest| :: rest[k] == calls[k + 1];
      if exists k :: 0 <= k < |calls| && IsPlan(world, calls[k]) {
        var k :| 0 <= k < |calls| && IsPlan(world, calls[k]);
        assert k > 0 ==> IsPlan(world, rest[k - 1]);
      }
    }
  }

  function AnswerId(call: Call, input: CallInput): string {
    if call.id != "" then call.id else input.freshId
  }

  /** The batch leaves no call without an answer: no blank id, and nothing new after the first valid plan. */
  ghost predicate Answerable(world: World, calls: seq<Call>) {
    && (forall k | 0 <= k < |calls| :: calls[k].id != "")
    && (forall k | Handled(world, calls) <= k < |calls| ::
          exists j :: 0 <= j < Handled(world, calls) && calls[j].id == calls[k].id)
  }

  ghost predicate Answers(world: World, calls: seq<Call>, handling: nat -> CallInput, answers: seq<Message>) {
    |answers| == Handled(world, calls) && AnswersSoFar(calls, handling, answers)
  }

  ghost predicate AnswersSoFar(calls: seq<Call>, handling: nat -> CallInput, answers: seq<Message>) {
    && |answers| <= |calls|
    && forall k: nat | k < |answers| :: answers[k].Tool? && answers[k].id == AnswerId(calls[k], handling(k))
  }

  lemma {:induction false} ToolIds(ms: seq<Message>)
    requires AllTools(ms)
    ensures forall id :: id in AnsweredIds(ms) <==> exists k :: 0 <= k < |ms| && ms[k].id == id
  {
    if ms != [] {
      ToolIds(ms[1..]);
      forall id
        ensures id in AnsweredIds(ms) <==> exists k :: 0 <= k < |ms| && ms[k].id == id
      {
        if id in AnsweredIds(ms[1..]) {
          var k :| 0 <= k < |ms[1..]| && ms[1..][k].id == id;
          assert ms[k + 1].id == id;
        }
        if exists k :: 0 <= k < |ms| && ms[k].id == id {
          var k :| 0 <= k < |ms| && ms[k].id == id;
          assert k > 0 ==> ms[1..][k - 1].id == id;
        }
      }
    }
  }

  predicate CoverBatch(calls: seq<Call>, answers: seq<Message>) {
    forall c | c in calls :: c.id in AnsweredIds(answers)
  }

  lemma {:induction false} CoverImpliesAnswerable(world: World, calls: seq<Call>, handling: nat -> CallInput,
                                                  answers: seq<Message>, k: nat)
    requires Answers(world, calls, handling, answers) && AllTools(answers)
    requires forall i: nat :: handling(i).freshId != ""
    requires CoverBatch(calls, answers) && k < |calls|
    ensures calls[k].id != ""
    ensures exists j :: 0 <= j < Handled(world, calls) && calls[j].id == calls[k].id
  {
    ToolIds(answers);
    assert calls[k] in calls;
    var j: nat :| j < |answers| && answers[j].id == calls[k].id;
    assert answers[j].id == AnswerId(calls[j], handling(j)) != "";
    assert forall i: nat | i < |answers| :: answers[i].id == AnswerId(calls[i], handling(i)) != "";
    assert calls[j] in calls;
  }

  lemma {:induction false} AnswerableImpliesCover(world: World, calls: seq<Call>, handling: nat -> CallInput,
                                                  answers: seq<Message>)
    requires Answers(world, calls, handling, answers) && AllTools(answers)
    requires Answerable(world, calls)
    ensures CoverBatch(calls, answers)
  {
    ToolIds(answers);
    forall c | c in calls
      ensures c.id in AnsweredIds(answers)
    {
      var k: nat :| k < |calls| && calls[k] == c;
      if k < |answers| {
        assert answers[k].id == c.id;
      } else {
        var j: nat :| j < Handled(world, calls) && calls[j].id == calls[k].id;
        assert answers[j].id == c.id;
      }
    }
  }

  /** The step's answers cover the batch exactly when the batch is answerable. */
  lemma {:induction false} AnswersCoverIff(world: World, calls: seq<Call>, handling: nat -> CallInput,
                                           answers: seq<Message>)
    requires Answers(world, calls, handling, answers)
    requires forall i: nat :: handling(i).freshId != ""
    ensures AllTools(answers)
    ensures CoverBatch(calls, answers) <==> Answerable(world, calls)
  {
    if CoverBatch(calls, answers) {
      forall k: nat | k < |calls|
        ensures calls[k].id != ""
        ensures exists j :: 0 <= j < Handled(world, calls) && calls[j].id == calls[k].id
      {
        CoverImpliesAnswerable(world, calls, handling, answers, k);
      }
    }
    if Answerable(world, calls) {
      AnswerableImpliesCover(world, calls, handling, answers);
    }
  }

  /** A valid plan that is not the last call leaves the later calls unanswered. */
  lemma {:induction false} EarlyPlanCounterexample(world: World, handling: nat -> CallInput, answers: seq<Message>)
    requires world.validPlan(Call("p", "submitPlan", "{}"))
    requires forall k: nat :: handling(k).freshId != ""
    requires Answers(world, [Call("p", "submitPlan", "{}"), Call("q", "ls", "{}")], handling, answers)
    ensures !Covered([Assistant(None, [Call("p", "submitPlan", "{}"), Call("q", "ls", "{}")])] + answers)
  {
    var calls := [Call("p", "submitPlan", "{}"), Call("q", "ls", "{}")];
    assert IsPlan(world, calls[0]);
    AnswersCoverIff(world, calls, handling, answers);
    assert Handled(world, calls) == 1;
    assert calls[1].id == "q";
    var ms := [Assistant(None, calls)] + answers;
    assert ms[1..] == answers;
    var bad :| bad in calls && bad.id !in AnsweredIds(answers);
    assert bad.id in CallIds(ms[0]);
  }

  /** `n` calls were handled so far, the last of them a valid plan or none of them. */
  ghost predicate Handling(world: World, calls: seq<Call>, n: nat, planned: bool)
    requires n <= |calls|
  {
    if planned then n > 0 && Handled(world, calls) == n && HasPlan(world, calls)
    else
      && Handled(world, calls) == n + Handled(world, calls[n..])
      && (HasPlan(world, calls) <==> HasPlan(world, calls[n..]))
  }

  lemma {:induction false} HandlingStep(world: World, calls: seq<Call>, n: nat)
    requires n < |calls| && Handling(world, calls, n, false)
    ensures Handling(world, calls, n + 1, IsPlan(world, calls[n]))
  {
    assert calls[n..][0] == calls[n] && calls[n..][1..] == calls[n + 1..];
  }

  lemma {:induction false} HandlingDone(world: World, calls: seq<Call>, n: nat, planned: bool)
    requires n <= |calls| && Handling(world, calls, n, planned) && (planned || n == |calls|)
    ensures Handled(world, calls) == n && HasPlan(world, calls) == planned
  {
    assert calls[|calls|..] == [];
  }

  // ---------------------------------------------------------------------------
  // A whole batch

  /** The calls of one EXECUTING step with everything that decides how they are handled. */
  datatype Batch = Batch(world: World, config: Config, calls: seq<Call>, mode: Mode, handling: nat -> CallInput)

  /** The mode once `n` calls were handled; call `k` is judged under the mode at k + 1. */
  function ModeAt(b: Batch, n: nat): Mode {
    if n == 0 then b.mode else Switched(ModeAt(b, n - 1), b.handling(n - 1))
  }

  function ReplyTo(b: Batch, k: nat): string
    requires k < |b.calls|
  {
    Reply(b.world, b.config, k, b.calls[k], ModeAt(b, k + 1), b.handling(k))
  }

  /** The texts of the first `n` calls that are charged to the round's budget. */
  function ChargedTexts(b: Batch, n: nat): seq<string>
    requires n <= |b.calls|
  {
    if n == 0 then []
    else if Charges(b.config, n - 1, b.calls[n - 1]) then ChargedTexts(b, n - 1) + [ReplyTo(b, n - 1)]
    else ChargedTexts(b, n - 1)
  }

  /** The text the model gets for call `k`. */
  function Content(b: Batch, k: nat): string
    requires k < |b.calls|
  {
    SentText(b.config, k, b.calls[k], b.handling(k), ReplyTo(b, k), Counter(b, k))
  }

  /** The round's counter after `n` calls. */
  function Counter(b: Batch, n: nat): nat
    requires n <= |b.calls|
  {
    Charged(ChargedTexts(b, n))
  }

  function AnswerAt(b: Batch, k: nat): Message
    requires k < |b.calls|
  {
    Tool(AnswerId(b.calls[k], b.handling(k)), Content(b, k))
  }

  function AnswersTo(b: Batch, n: nat): (answers: seq<Message>)
    requires n <= |b.calls|
    ensures |answers| == n
  {
    if n == 0 then []
    else AnswersTo(b, n - 1) + [AnswerAt(b, n - 1)]
  }

  predicate EndsWithAnswer(ms: seq<Message>, callId: string) {
    |ms| > 0 && ms[|ms| - 1].Tool? && ms[|ms| - 1].id == callId
  }

  /** What is remembered of a plan submitted as call `k`. */
  function PlanAt(b: Batch, k: nat): PendingPlan
    requires k < |b.calls|
  {
    PendingPlan(b.calls[k], AnswerId(b.calls[k], b.handling(k)))
  }

  /** The tools that run for the first `n` calls. */
  function RunsOf(b: Batch, round: nat, n: nat): seq<Execution>
    requires n <= |b.calls|
  {
    if n == 0 then [] else RunsOf(b, round, n - 1) + Ran(b.world, b.config, ExecutionAt(b, round, n - 1))
  }

  function ExecutionAt(b: Batch, round: nat, k: nat): Execution
    requires k < |b.calls|
  {
    Execution(round, k, b.calls[k], ModeAt(b, k + 1), b.handling(k))
  }

  lemma {:induction false} NothingYet(b: Batch, start: seq<Message>, ran: seq<Execution>, round: nat)
    ensures start == start + AnswersTo(b, 0) && ran == ran + RunsOf(b, round, 0)
    ensures ModeAt(b, 0) == b.mode && Counter(b, 0) == 0
  {
  }

  /** What one more call adds. */
  lemma {:induction false} NextCall(b: Batch, start: seq<Message>, ran: seq<Execution>, round: nat, k: nat)
    requires k < |b.calls|
    ensures start + AnswersTo(b, k + 1) == start + AnswersTo(b, k) + [AnswerAt(b, k)]
    ensures ran + RunsOf(b, round, k + 1) ==
            ran + RunsOf(b, round, k) + Ran(b.world, b.config, ExecutionAt(b, round, k))
    ensures Counter(b, k + 1) == Counter(b, k) + ChargeFor(b.config, k, b.calls[k], ReplyTo(b, k), Counter(b, k))
  {
    Assoc(start, AnswersTo(b, k), [AnswerAt(b, k)]);
    Assoc(ran, RunsOf(b, round, k), Ran(b.world, b.config, ExecutionAt(b, round, k)));
    NextCounter(b, k);
  }

  lemma {:induction false} NextCounter(b: Batch, k: nat)
    requires k < |b.calls|
    ensures Counter(b, k + 1) == Counter(b, k) + ChargeFor(b.config, k, b.calls[k], ReplyTo(b, k), Counter(b, k))
  {
    ChargedAppend(ChargedTexts(b, k), ReplyTo(b, k));
  }

  lemma {:induction false} AnswersByPosition(b: Batch, n: nat, k: nat)
    requires k < n <= |b.calls|
    ensures AnswersTo(b, n)[k] == AnswerAt(b, k)
    decreases n
  {
    var answers := AnswersTo(b, n - 1);
    assert AnswersTo(b, n) == answers + [AnswerAt(b, n - 1)];
    if k < n - 1 {
      AnswersByPosition(b, n - 1, k);
      assert AnswersTo(b, n)[k] == answers[k];
    }
  }

  /** Answer by answer: the id of the call, and the text sent for it. */
  lemma {:induction false} AnswersToMeaning(b: Batch, n: nat)
    requires n <= |b.calls|
    ensures forall k: nat | k < n :: AnswersTo(b, n)[k] == AnswerAt(b, k)
  {
    forall k: nat | k < n ensures AnswersTo(b, n)[k] == AnswerAt(b, k) {
      AnswersByPosition(b, n, k);
    }
  }

  lemma {:induction false} AnswersToIds(b: Batch, n: nat)
    requires n <= |b.calls|
    ensures AnswersSoFar(b.calls, b.handling, AnswersTo(b, n))
  {
    var answers := AnswersTo(b, n);
    forall k: nat | k < n ensures answers[k].Tool? && answers[k].id == AnswerId(b.calls[k], b.handling(k)) {
      AnswersByPosition(b, n, k);
    }
  }

  /** What a tool-output screening puts in place of an answer is what the model sees. */
  lemma {:induction false} ReplacedAnswer(b: Batch, k: nat, text: string)
    requires k < |b.calls| && b.handling(k).replacement == Some(text)
    ensures Content(b, k) == text
  {
  }

  /** The mode after `n` calls is the one switched to last, or the one the batch started with. */
  lemma {:induction false} ModeAtMeaning(b: Batch, n: nat)
    ensures (forall j: nat | j < n :: b.handling(j).modeSwitch.None?) ==> ModeAt(b, n) == b.mode
    ensures forall i: nat | i < n && b.handling(i).modeSwitch.Some? ::
              (forall j: nat | i < j < n :: b.handling(j).modeSwitch.None?) ==>
                ModeAt(b, n) == b.handling(i).modeSwitch.value
    decreases n
  {
    if n > 0 {
      ModeAtMeaning(b, n - 1);
    }
  }

  /** The executions of the first `n` calls are exactly those that may run, each in the mode its own call left. */
  lemma {:induction false} RunsOfMeaning(b: Batch, round: nat, n: nat, e: Execution)
    requires n <= |b.calls|
    ensures e in RunsOf(b, round, n) <==>
              && e.index < n && e.round == round
              && e.call == b.calls[e.index] && e.mode == ModeAt(b, e.index + 1) && e.input == b.handling(e.index)
              && Runs(b.world, b.config, e.index, e.call, e.mode, e.input)
    decreases n
  {
    if n > 0 {
      RunsOfMeaning(b, round, n - 1, e);
    }
  }

  /** A switch to a read-only or planning mode holds from the very call it comes with. */
  lemma {:induction false} SwitchAppliesAtOnce(b: Batch, round: nat, n: nat, e: Execution)
    requires n <= |b.calls| && e in RunsOf(b, round, n)
    requires b.handling(e.index).modeSwitch in {Some(ReadOnlyMode), Some(PlanMode)}
    ensures b.world.riskOf(e.call.name) == ReadOnly
  {
    RunsOfMeaning(b, round, n, e);
    ModeAtMeaning(b, e.index + 1);
    if !b.world.riskOf(e.call.name).ReadOnly? {
      RunsNeedsModeAndReason(b.world, b.config, e);
    }
  }

  lemma {:induction false} RunsGated(b: Batch, before: seq<Execution>, round: nat, n: nat)
    requires n <= |b.calls| && Gated(b.world, b.config, before) && UpTo(before, round, 0)
    ensures Gated(b.world, b.config, before + RunsOf(b, round, n)) && UpTo(before + RunsOf(b, round, n), round, n)
    decreases n
  {
    if n == 0 {
      assert before + [] == before;
    } else {
      RunsGated(b, before, round, n - 1);
      var earlier, e := RunsOf(b, round, n - 1), ExecutionAt(b, round, n - 1);
      Assoc(before, earlier, Ran(b.world, b.config, e));
      if Runs(b.world, b.config, e.index, e.call, e.mode, e.input) {
        GateExtended(b.world, b.config, before + earlier, round, n - 1, e);
      } else {
        assert before + earlier + [] == before + earlier;
      }
    }
  }

  /** The length of answer `k` if it was charged and the screening left it alone. */
  function ChargedShare(b: Batch, k: nat): nat
    requires k < |b.calls|
  {
    if Charges(b.config, k, b.calls[k]) && b.handling(k).replacement.None? then |Content(b, k)| else 0
  }

  function ChargedLength(b: Batch, n: nat): nat
    requires n <= |b.calls|
  {
    if n == 0 then 0 else ChargedLength(b, n - 1) + ChargedShare(b, n - 1)
  }

  lemma {:induction false} CounterStep(b: Batch, k: nat)
    requires k < |b.calls|
    ensures Counter(b, k) + ChargedShare(b, k) <= Counter(b, k + 1)
  {
    ChargedAppend(ChargedTexts(b, k), ReplyTo(b, k));
  }

  lemma {:induction false} ChargedLengthWithin(b: Batch, n: nat)
    requires n <= |b.calls|
    ensures ChargedLength(b, n) <= Counter(b, n)
    decreases n
  {
    if n > 0 {
      ChargedLengthWithin(b, n - 1);
      CounterStep(b, n - 1);
    }
  }

  /** The charged answers add up to at most the budget, one overshoot and one notice for each late call. */
  ghost predicate WithinBudget(b: Batch, n: nat)
    requires n <= |b.calls|
  {
    Short(ChargedTexts(b, n)) ==> ChargedLength(b, n) <= PER_ROUND + 13 + 27 * Late(ChargedTexts(b, n))
  }

  lemma {:induction false} AnswersWithinBudget(b: Batch, n: nat)
    requires n <= |b.calls|
    ensures WithinBudget(b, n)
  {
    ChargedLengthWithin(b, n);
    if Short(ChargedTexts(b, n)) {
      ChargedBound(ChargedTexts(b, n));
    }
  }

  /** Each single answer to a tool call stays within the limit of one tool. */
  lemma {:induction false} AnswerWithinLimit(b: Batch, k: nat)
    requires k < |b.calls| && Charges(b.config, k, b.calls[k]) && b.handling(k).replacement.None?
    requires |ReplyTo(b, k)| < Pow10(LONGEST)
    ensures |Content(b, k)| <= 1200
  {
    FitLength(ReplyTo(b, k), PER_TOOL, PER_ROUND - Charged(ChargedTexts(b, k)));
  }

  /** A reply that fits what is left, or is not charged, reaches the model as it is. */
  lemma {:induction false} ShortReplySent(b: Batch, k: nat)
    requires k < |b.calls| && b.handling(k).replacement.None?
    requires Charges(b.config, k, b.calls[k]) ==>
               |ReplyTo(b, k)| <= 1200 && |ReplyTo(b, k)| <= 6000 - Counter(b, k) && Counter(b, k) < 6000
    ensures Content(b, k) == ReplyTo(b, k)
  {
    if Charges(b.config, k, b.calls[k]) {
      ShortTextPasses(ReplyTo(b, k), PER_TOOL, PER_ROUND - Counter(b, k));
    }
  }

  // ---------------------------------------------------------------------------
  // Rewriting a tool response

  function Updated(ms: seq<Message>, callId: string, content: string): seq<Message> {
    if ms == [] then []
    else if ms[0].Tool? && ms[0].id == callId then [Tool(callId, content)] + ms[1..]
    else [ms[0]] + Updated(ms[1..], callId, content)
  }

  lemma {:induction false} UpdateKeepsCovered(ms: seq<Message>, callId: string, content: string)
    ensures AnsweredIds(Updated(ms, callId, content)) == AnsweredIds(ms)
    ensures Covered(Updated(ms, callId, content)) <==> Covered(ms)
    decreases |ms|
  {
    if ms != [] {
      var r := Updated(ms, callId, content);
      if ms[0].Tool? && ms[0].id == callId {
        assert r[1..] == ms[1..];
      } else {
        UpdateKeepsCovered(ms[1..], callId, content);
        assert r[1..] == Updated(ms[1..], callId, content);
      }
    }
  }

  lemma {:induction false} UpdateKeepsOwned(ids: set<string>, ms: seq<Message>, callId: string, content: string)
    ensures Owned(ids, Updated(ms, callId, content)) <==> Owned(ids, ms)
    decreases |ms|
  {
    if ms != [] {
      var r := Updated(ms, callId, content);
      if ms[0].Tool? && ms[0].id == callId {
        assert r[1..] == ms[1..];
      } else {
        UpdateKeepsOwned(if ms[0].Tool? then ids else Asks(ms[0]), ms[1..], callId, content);
        assert r[1..] == Updated(ms[1..], callId, content);
      }
    }
  }

  method UpdateToolResponse(ms: seq<Message>, callId: string, content: string) returns (r: seq<Message>)
    ensures r == Updated(ms, callId, content)
  {
    r := ms;
    ghost var goal := Updated(ms, callId, content);
    ghost var rest := goal;
    assert ms[0..] == ms;
    for i := 0 to |ms|
      invariant r == ms
      invariant rest == Updated(ms[i..], callId, content)
      invariant goal == ms[..i] + rest
    {
      assert ms[i..][0] == ms[i] && ms[i..][1..] == ms[i + 1..];
      if ms[i].Tool? && ms[i].id == callId {
        Assoc(ms[..i], [Tool(callId, content)], ms[i + 1..]);
        r := ms[..i] + [Tool(callId, content)] + ms[i + 1..];
        return;
      }
      rest := Updated(ms[i + 1..], callId, content);
      Assoc(ms[..i], [ms[i]], rest);
      assert ms[..i + 1] == ms[..i] + [ms[i]];
    }
    assert ms[|ms|..] == [];
  }

  /** No tool message but the last has the id. */
  predicate FirstUse(ms: seq<Message>, callId: string) {
    forall i | 0 <= i < |ms| - 1 :: !(ms[i].Tool? && ms[i].id == callId)
  }

  lemma {:induction false} FirstUseCons(ms: seq<Message>, callId: string)
    requires |ms| > 1
    ensures FirstUse(ms, callId) <==> !(ms[0].Tool? && ms[0].id == callId) && FirstUse(ms[1..], callId)
  {
    var rest := ms[1..];
    assert forall i | 0 <= i < |rest| :: rest[i] == ms[i + 1];
    if !(ms[0].Tool? && ms[0].id == callId) && FirstUse(rest, callId) {
      forall i | 0 <= i < |ms| - 1 ensures !(ms[i].Tool? && ms[i].id == callId) {
        assert i > 0 ==> ms[i] == rest[i - 1];
      }
    }
  }

  lemma {:induction false} SameTail<T>(x: T, a: seq<T>, b: seq<T>)
    ensures [x] + a == [x] + b <==> a == b
  {
    assert ([x] + a)[1..] == a && ([x] + b)[1..] == b;
  }

  /** The last answer is the one rewritten exactly when its id was not used before. */
  lemma {:induction false} LastRewrittenIff(ms: seq<Message>, callId: string, was: string, content: string)
    requires ms != [] && ms[|ms| - 1] == Tool(callId, was) && was != content
    ensures Updated(ms, callId, content) == ms[..|ms| - 1] + [Tool(callId, content)] <==> FirstUse(ms, callId)
    decreases |ms|
  {
    var own, rest := ms[..|ms| - 1] + [Tool(callId, content)], ms[1..];
    if |ms| == 1 {
      assert own == [Tool(callId, content)] + rest;
    } else if ms[0].Tool? && ms[0].id == callId {
      FirstUseCons(ms, callId);
      var r := Updated(ms, callId, content);
      assert r == [Tool(callId, content)] + rest;
      assert r[|r| - 1] == rest[|rest| - 1] == ms[|ms| - 1];
      assert own[|own| - 1] == Tool(callId, content) && |r| == |own|;
    } else {
      var ownRest := rest[..|rest| - 1] + [Tool(callId, content)];
      FirstUseCons(ms, callId);
      LastRewrittenIff(rest, callId, was, content);
      assert own == [ms[0]] + ownRest;
      SameTail(ms[0], Updated(rest, callId, content), ownRest);
    }
  }

  /** A plan submitted under an id the model used before: the old answer is overwritten, the plan's own one stays. */
  lemma {:induction false} ReusedIdExample(text: string, submitted: string, outcome: string)
    ensures var first := Assistant(None, [Call("a", "ls", "{}")]);
            var second := Assistant(None, [Call("a", "submitPlan", "{}")]);
            Updated([first, Tool("a", text), second, Tool("a", submitted)], "a", outcome) ==
            [first, Tool("a", outcome), second, Tool("a", submitted)]
  {
  }

  // ---------------------------------------------------------------------------
  // The end of a plan review

  /** What the submitted plan's tool message is rewritten to. */
  function PlanAnswer(world: World, outcome: PlanOutcome, call: Call): string {
    match outcome
    case PlanTimedOut => world.notice(PlanTimeout, call)
    case PlanApproved => world.notice(PlanAccepted, call)
    case PlanRejected => world.notice(PlanRefused, call)
  }

  function PlanFollowUp(world: World, outcome: PlanOutcome, call: Call): seq<Message> {
    match outcome
    case PlanTimedOut => [System(world.notice(PlanTimeoutSystem, call))]
    case PlanApproved => [System(world.notice(PlanText, call)), User(world.notice(PlanGo, call))]
    case PlanRejected => [User(world.notice(PlanFeedback, call))]
  }

  lemma {:induction false} PlanReviewKeepsPairing(pairing: Pairing, ms: seq<Message>, callId: string, world: World,
                                                  outcome: PlanOutcome, call: Call)
    requires Meets(pairing, ms)
    ensures Meets(pairing, Updated(ms, callId, PlanAnswer(world, outcome, call)) + PlanFollowUp(world, outcome, call))
  {
    var updated, more := Updated(ms, callId, PlanAnswer(world, outcome, call)), PlanFollowUp(world, outcome, call);
    UpdateKeepsCovered(ms, callId, PlanAnswer(world, outcome, call));
    UpdateKeepsOwned({}, ms, callId, PlanAnswer(world, outcome, call));
    NoCallsCovered(more);
    CoveredConcat(updated, more);
    NoToolsOwned({}, more);
    OwnedConcat({}, updated, more);
  }

  // ---------------------------------------------------------------------------
  // The engine

  /** Every batch the model may produce is answerable, and generated ids are not blank. */
  ghost predicate Tame(world: World, env: nat -> RoundInput) {
    forall r: nat :: Answerable(world, env(r).calls) && forall k: nat :: env(r).handling(k).freshId != ""
  }

  ghost predicate AllRequestsMeet(pairing: Pairing, requests: seq<seq<Message>>) {
    forall i | 0 <= i < |requests| :: Meets(pairing, requests[i]) && ProviderMeets(pairing, Converted(requests[i]))
  }

  lemma {:induction false} OneMoreRequest(pairing: Pairing, requests: seq<seq<Message>>, request: seq<Message>)
    requires AllRequestsMeet(pairing, requests)
    requires Meets(pairing, request) && ProviderMeets(pairing, Converted(request))
    ensures AllRequestsMeet(pairing, requests + [request])
  {
  }

  /** What the loop keeps, and what it has sent and run. */
  datatype Snapshot = Snapshot(
    msgs: seq<Message>, mode: Mode, state: LoopState, round: nat, response: seq<Call>, plan: Option<PendingPlan>,
    requests: seq<seq<Message>>, executions: seq<Execution>)

  const RECENT := 6

  function FullPrompt(world: World, mode: Mode): string {
    if world.guidance == "" then world.modePrompt(mode) else world.modePrompt(mode) + "\n\n" + world.guidance
  }

  function Compressed(world: World, config: Config, ms: seq<Message>): seq<Message> {
    CompressHistory(ms, RECENT, config.thresholdTokens, world.summarise)
  }

  function RequestFor(world: World, config: Config, ms: seq<Message>, mode: Mode): seq<Message> {
    Request(ms, RECENT, config.thresholdTokens, world.summarise, FullPrompt(world, mode))
  }

  /** THINKING: one request goes out, and the model's answer decides what comes next. */
  function AfterThinking(world: World, config: Config, s: Snapshot, input: RoundInput): Snapshot {
    var ms := Compressed(world, config, s.msgs);
    var sent := s.(requests := s.requests + [RequestFor(world, config, s.msgs, s.mode)]);
    if input.leaked then sent.(msgs := ms + [System(world.notice(CanaryStop, Call("", "", "")))], state := Done)
    else if input.calls == [] then sent.(msgs := ms, state := Done)
    else sent.(msgs := ms + [Assistant(input.preamble, input.calls)], response := input.calls, state := Executing)
  }

  /** EXECUTING: the batch is answered, up to the first valid plan. */
  function AfterExecuting(world: World, config: Config, s: Snapshot, input: RoundInput): Snapshot {
    var b, n := Batch(world, config, s.response, s.mode, input.handling), Handled(world, s.response);
    var done := s.(msgs := s.msgs + AnswersTo(b, n), mode := ModeAt(b, n),
                   executions := s.executions + RunsOf(b, s.round, n));
    if HasPlan(world, s.response) then done.(state := PlanReview, plan := Some(PlanAt(b, n - 1)))
    else done.(state := Thinking)
  }

  /** PLAN_REVIEW: the outcome is written into the conversation. */
  function AfterReview(world: World, s: Snapshot, outcome: PlanOutcome): Snapshot {
    if s.plan.None? then s.(state := Thinking)
    else
      var plan := s.plan.value;
      s.(msgs := Updated(s.msgs, plan.callId, PlanAnswer(world, outcome, plan.call))
                   + PlanFollowUp(world, outcome, plan.call),
         mode := if outcome.PlanRejected? then s.mode else AgentMode, state := Thinking, plan := None)
  }

  function Next(world: World, config: Config, s: Snapshot, input: RoundInput): (s': Snapshot)
    ensures s'.round == s.round
  {
    match s.state
    case Thinking => AfterThinking(world, config, s, input)
    case Executing => AfterExecuting(world, config, s, input)
    case PlanReview => AfterReview(world, s, input.plan)
    case Done => s
  }

  /** One round: the counter goes up, and a run whose time is used up takes no further step. */
  function Round(world: World, config: Config, env: nat -> RoundInput, s: Snapshot): (s': Snapshot)
    ensures s'.round == s.round + 1
  {
    var t := s.(round := s.round + 1);
    if env(s.round).expired then t else Next(world, config, t, env(s.round))
  }

  /** The run stops when it is done, at the round limit, at the horizon, or after a round that found no time left. */
  predicate Stops(config: Config, env: nat -> RoundInput, horizon: nat, s: Snapshot) {
    || s.state.Done? || (config.maxRounds != 0 && s.round >= config.maxRounds) || s.round >= horizon
    || (s.round > 0 && env(s.round - 1).expired)
  }

  function Rounds(world: World, config: Config, env: nat -> RoundInput): Snapshot -> Snapshot {
    s => Round(world, config, env, s)
  }

  function StopsIn(config: Config, env: nat -> RoundInput, horizon: nat): Snapshot -> bool {
    s => Stops(config, env, horizon, s)
  }

  function Iterate(step: Snapshot -> Snapshot, stops: Snapshot -> bool, s: Snapshot, n: nat): Snapshot
    decreases n
  {
    if n == 0 || stops(s) then s else Iterate(step, stops, step(s), n - 1)
  }

  function RunFrom(world: World, config: Config, s: Snapshot, env: nat -> RoundInput, horizon: nat): Snapshot {
    Iterate(Rounds(world, config, env), StopsIn(config, env, horizon), s, horizon)
  }

  /** The end of a run seen from a state on its way. */
  function Remaining(world: World, config: Config, env: nat -> RoundInput, horizon: nat, s: Snapshot): Snapshot {
    var left := if s.round < horizon then horizon - s.round else 0;
    Iterate(Rounds(world, config, env), StopsIn(config, env, horizon), s, left)
  }

  lemma {:induction false} RemainingStep(world: World, config: Config, env: nat -> RoundInput, horizon: nat,
                                         s: Snapshot)
    ensures Stops(config, env, horizon, s) ==> Remaining(world, config, env, horizon, s) == s
    ensures !Stops(config, env, horizon, s) ==>
              Remaining(world, config, env, horizon, s) ==
              Remaining(world, config, env, horizon, Round(world, config, env, s))
  {
  }

  /** `end` gives for each state on the way the one the run ends in. */
  ghost predicate Leads(world: World, config: Config, env: nat -> RoundInput, horizon: nat, end: Snapshot -> Snapshot) {
    && (forall t: Snapshot {:trigger end(t)} | Stops(config, env, horizon, t) :: end(t) == t)
    && (forall t: Snapshot {:trigger Round(world, config, env, t)} | !Stops(config, env, horizon, t) ::
          end(Round(world, config, env, t)) == end(t))
  }

  ghost function EndOf(world: World, config: Config, env: nat -> RoundInput, horizon: nat): Snapshot -> Snapshot {
    t => Remaining(world, config, env, horizon, t)
  }

  lemma {:induction false} EndOfLeads(world: World, config: Config, env: nat -> RoundInput, horizon: nat)
    ensures Leads(world, config, env, horizon, EndOf(world, config, env, horizon))
  {
    var end := EndOf(world, config, env, horizon);
    forall t: Snapshot
      ensures Stops(config, env, horizon, t) ==> end(t) == t
      ensures !Stops(config, env, horizon, t) ==> end(Round(world, config, env, t)) == end(t)
    {
      RemainingStep(world, config, env, horizon, t);
    }
  }

  lemma {:induction false} EndOfStart(world: World, config: Config, env: nat -> RoundInput, horizon: nat, s: Snapshot)
    requires s.round == 0
    ensures EndOf(world, config, env, horizon)(s) == RunFrom(world, config, s, env, horizon)
  {
  }

  function StartOf(built: seq<Message>, mode: Mode, plan: Option<PendingPlan>): Snapshot {
    Snapshot(Repaired(built), mode, Thinking, 0, [], plan, [], [])
  }

  // ---------------------------------------------------------------------------
  // What runs keep

  /** The pairing invariant at every program point of the loop. */
  ghost predicate Paired(world: World, pairing: Pairing, s: Snapshot) {
    match s.state
    case Thinking => Meets(pairing, s.msgs)
    case PlanReview => Meets(pairing, s.msgs)
    case Executing =>
      && s.response != []
      && |s.msgs| > 0 && Meets(pairing, s.msgs[..|s.msgs| - 1])
      && s.msgs[|s.msgs| - 1].Assistant? && s.msgs[|s.msgs| - 1].calls == s.response
      && (!pairing.Unknown? ==> Answerable(world, s.response))
    case Done => true
  }

  /** Requests went out at most every other round, and the plan under review is answered by the last message. */
  ghost predicate Paced(s: Snapshot, rounds: int) {
    && 2 * |s.requests| <= rounds + (if s.state.Thinking? || s.state.PlanReview? then 0 else 1)
    && (s.state.PlanReview? ==> s.plan.Some? && EndsWithAnswer(s.msgs, s.plan.value.callId))
  }

  /** Between two rounds. */
  ghost predicate LoopInv(world: World, config: Config, pairing: Pairing, s: Snapshot) {
    && Gated(world, config, s.executions) && UpTo(s.executions, s.round + 1, 0)
    && Paced(s, s.round) && Paired(world, pairing, s) && AllRequestsMeet(pairing, s.requests)
  }

  /** Within a round, once the counter was raised. */
  ghost predicate Ready(world: World, config: Config, pairing: Pairing, s: Snapshot) {
    && Gated(world, config, s.executions) && UpTo(s.executions, s.round, 0)
    && Paced(s, s.round - 1) && Paired(world, pairing, s) && AllRequestsMeet(pairing, s.requests)
  }

  ghost predicate TameInput(world: World, pairing: Pairing, input: RoundInput) {
    !pairing.Unknown? ==> Answerable(world, input.calls) && forall k: nat :: input.handling(k).freshId != ""
  }

  lemma {:induction false} RequestKeeps(world: World, config: Config, pairing: Pairing, s: Snapshot)
    requires Meets(pairing, s.msgs) && AllRequestsMeet(pairing, s.requests)
    ensures Meets(pairing, Compressed(world, config, s.msgs))
    ensures AllRequestsMeet(pairing, s.requests + [RequestFor(world, config, s.msgs, s.mode)])
  {
    PipelineKeepsPairing(pairing, s.msgs, RECENT, config.thresholdTokens, world.summarise, FullPrompt(world, s.mode));
    CompressKeepsPairing(pairing, s.msgs, RECENT, config.thresholdTokens, world.summarise);
    OneMoreRequest(pairing, s.requests, RequestFor(world, config, s.msgs, s.mode));
  }

  lemma {:induction false} CallsKeepPaired(world: World, config: Config, pairing: Pairing, s: Snapshot,
                                           input: RoundInput)
    requires Meets(pairing, Compressed(world, config, s.msgs)) && TameInput(world, pairing, input)
    ensures var t := AfterThinking(world, config, s, input); !t.state.Thinking? && Paired(world, pairing, t)
  {
    var t := AfterThinking(world, config, s, input);
    if t.state.Executing? {
      assert t.msgs[..|t.msgs| - 1] == Compressed(world, config, s.msgs);
    }
  }

  lemma {:induction false} ThinkingKeeps(world: World, config: Config, pairing: Pairing, s: Snapshot, input: RoundInput)
    requires s.state.Thinking? && Ready(world, config, pairing, s) && TameInput(world, pairing, input)
    ensures LoopInv(world, config, pairing, AfterThinking(world, config, s, input))
  {
    RequestKeeps(world, config, pairing, s);
    CallsKeepPaired(world, config, pairing, s, input);
    NextRound(s.executions, s.round, 0);
  }

  lemma {:induction false} ExecutingKeeps(world: World, config: Config, pairing: Pairing, s: Snapshot,
                                          input: RoundInput)
    requires s.state.Executing? && Ready(world, config, pairing, s) && TameInput(world, pairing, input)
    ensures LoopInv(world, config, pairing, AfterExecuting(world, config, s, input))
  {
    var b := Batch(world, config, s.response, s.mode, input.handling);
    AfterBatch(pairing, s.msgs, s.executions, s.round, b);
  }

  lemma {:induction false} ReviewKeeps(world: World, config: Config, pairing: Pairing, s: Snapshot,
                                       outcome: PlanOutcome)
    requires s.state.PlanReview? && Ready(world, config, pairing, s)
    ensures LoopInv(world, config, pairing, AfterReview(world, s, outcome))
  {
    NextRound(s.executions, s.round, 0);
    PlanReviewKeepsPairing(pairing, s.msgs, s.plan.value.callId, world, outcome, s.plan.value.call);
  }

  /** Every iteration keeps the loop invariant, and THINKING never follows THINKING. */
  lemma {:induction false} NextKeeps(world: World, config: Config, pairing: Pairing, s: Snapshot, input: RoundInput)
    requires !s.state.Done? && Ready(world, config, pairing, s) && TameInput(world, pairing, input)
    ensures LoopInv(world, config, pairing, Next(world, config, s, input))
    ensures s.state.Thinking? ==> !Next(world, config, s, input).state.Thinking?
  {
    match s.state
    case Thinking => ThinkingKeeps(world, config, pairing, s, input);
    case Executing => ExecutingKeeps(world, config, pairing, s, input);
    case PlanReview => ReviewKeeps(world, config, pairing, s, input.plan);
  }

  /** What every round keeps holds at the end. */
  lemma {:induction false} IterateKeeps(step: Snapshot -> Snapshot, stops: Snapshot -> bool, keeps: Snapshot -> bool,
                                        s: Snapshot, n: nat)
    requires keeps(s) && forall t | keeps(t) && !stops(t) :: keeps(step(t))
    ensures keeps(Iterate(step, stops, s, n))
    decreases n
  {
    if n > 0 && !stops(s) {
      IterateKeeps(step, stops, keeps, step(s), n - 1);
    }
  }

  /** With a step for every round up to the horizon, the iteration ends only where it stops. */
  lemma {:induction false} IterateStops(step: Snapshot -> Snapshot, stops: Snapshot -> bool, s: Snapshot, n: nat,
                                        horizon: nat)
    requires s.round + n >= horizon && (forall t :: step(t).round == t.round + 1)
    requires forall t: Snapshot | t.round >= horizon :: stops(t)
    ensures stops(Iterate(step, stops, s, n))
    decreases n
  {
    if n > 0 && !stops(s) {
      IterateStops(step, stops, step(s), n - 1, horizon);
    }
  }

  ghost predicate WithinLimit(config: Config, s: Snapshot) {
    config.maxRounds > 0 ==> s.round <= config.maxRounds
  }

  lemma {:induction false} RoundKeeps(world: World, config: Config, pairing: Pairing, env: nat -> RoundInput,
                                      s: Snapshot)
    requires LoopInv(world, config, pairing, s) && !s.state.Done? && (!pairing.Unknown? ==> Tame(world, env))
    ensures LoopInv(world, config, pairing, Round(world, config, env, s))
  {
    var input, t := env(s.round), s.(round := s.round + 1);
    NextRound(t.executions, s.round + 1, 0);
    if !input.expired {
      NextKeeps(world, config, pairing, t, input);
    }
  }

  lemma {:induction false} RunKeeps(world: World, config: Config, pairing: Pairing, s: Snapshot, env: nat -> RoundInput,
                                    horizon: nat)
    requires LoopInv(world, config, pairing, s) && WithinLimit(config, s) && (!pairing.Unknown? ==> Tame(world, env))
    ensures var s' := RunFrom(world, config, s, env, horizon);
            LoopInv(world, config, pairing, s') && WithinLimit(config, s')
  {
    var keeps := (t: Snapshot) => LoopInv(world, config, pairing, t) && WithinLimit(config, t);
    var step, stops := Rounds(world, config, env), StopsIn(config, env, horizon);
    forall t: Snapshot | keeps(t) && !stops(t) ensures keeps(step(t)) {
      RoundKeeps(world, config, pairing, env, t);
    }
    IterateKeeps(step, stops, keeps, s, horizon);
  }

  /** The run ends only where it stops. */
  lemma {:induction false} RunEnds(world: World, config: Config, s: Snapshot, env: nat -> RoundInput, horizon: nat)
    ensures Stops(config, env, horizon, RunFrom(world, config, s, env, horizon))
  {
    IterateStops(Rounds(world, config, env), StopsIn(config, env, horizon), s, horizon, horizon);
  }

  /** Rounds in which nothing ends the run: no leak, no lapse of time, always calls, never a plan. */
  ghost predicate Steady(world: World, env: nat -> RoundInput) {
    forall r: nat :: !env(r).leaked && !env(r).expired && env(r).calls != [] && !HasPlan(world, env(r).calls)
  }

  /** Thinking in even rounds, executing in odd ones, with a request sent in every second round. */
  ghost predicate Alternates(world: World, base: nat, s: Snapshot) {
    if s.round % 2 == 0 then s.state.Thinking? && 2 * |s.requests| == 2 * base + s.round
    else s.state.Executing? && !HasPlan(world, s.response) && 2 * |s.requests| == 2 * base + s.round + 1
  }

  lemma {:induction false} SteadyThinking(world: World, config: Config, env: nat -> RoundInput, s: Snapshot)
    requires Steady(world, env) && s.state.Thinking?
    ensures var t := Round(world, config, env, s);
            t.state.Executing? && !HasPlan(world, t.response) && |t.requests| == |s.requests| + 1
  {
  }

  lemma {:induction false} SteadyExecuting(world: World, config: Config, env: nat -> RoundInput, s: Snapshot)
    requires Steady(world, env) && s.state.Executing? && !HasPlan(world, s.response)
    ensures var t := Round(world, config, env, s); t.state.Thinking? && t.requests == s.requests
  {
  }

  lemma {:induction false} RoundAlternates(world: World, config: Config, env: nat -> RoundInput, base: nat, s: Snapshot)
    requires Steady(world, env) && Alternates(world, base, s)
    ensures Alternates(world, base, Round(world, config, env, s))
  {
    if s.round % 2 == 0 {
      SteadyThinking(world, config, env, s);
    } else {
      SteadyExecuting(world, config, env, s);
    }
  }

  /** In such rounds thinking and executing alternate: every second round one more request goes out. */
  lemma {:induction false} SteadyRun(world: World, config: Config, s: Snapshot, env: nat -> RoundInput, horizon: nat)
    requires s.state.Thinking? && s.round == 0 && Steady(world, env)
    requires config.maxRounds == 0 || horizon <= config.maxRounds
    ensures var s' := RunFrom(world, config, s, env, horizon);
            s'.round == horizon && |s'.requests| == |s.requests| + (horizon + 1) / 2
  {
    var step, stops := Rounds(world, config, env), StopsIn(config, env, horizon);
    var keeps := (t: Snapshot) => Alternates(world, |s.requests|, t) && t.round <= horizon;
    forall t: Snapshot | keeps(t) && !stops(t) ensures keeps(step(t)) {
      RoundAlternates(world, config, env, |s.requests|, t);
    }
    IterateKeeps(step, stops, keeps, s, horizon);
    RunEnds(world, config, s, env, horizon);
  }

  /** The request of a round is built from at most six recent units and the instruction of the mode. */
  lemma {:induction false} RequestOfRound(world: World, config: Config, ms: seq<Message>, mode: Mode)
    ensures var request := RequestFor(world, config, ms, mode);
            && (world.guidance == "" ==> System(world.modePrompt(mode)) in request)
            && (world.guidance != "" ==> System(world.modePrompt(mode) + "\n\n" + world.guidance) in request)
            && (ms != [] && Triggers(ms, config.thresholdTokens) ==> |Grouped(Others(request))| <= 6)
  {
    RequestIsShort(ms, RECENT, config.thresholdTokens, world.summarise, FullPrompt(world, mode));
  }

  /** A round that brings no calls, or a leak, is the last; its request has gone out all the same. */
  lemma {:induction false} LastRound(world: World, config: Config, env: nat -> RoundInput, s: Snapshot)
    requires s.state.Thinking? && !env(s.round).expired
    ensures var t, input := Round(world, config, env, s), env(s.round);
            && t.requests == s.requests + [RequestFor(world, config, s.msgs, s.mode)]
            && (t.state.Done? <==> input.leaked || input.calls == [])
            && (!t.state.Done? ==>
                  && t.msgs == Compressed(world, config, s.msgs) + [Assistant(input.preamble, input.calls)]
                  && t.response == input.calls)
  {
  }

  /** What the three outcomes of a review write, and the mode they leave. */
  lemma {:induction false} PlanOutcomes(world: World, s: Snapshot)
    requires s.plan.Some?
    ensures var plan := s.plan.value;
            var rewritten := (notice: Notice) => Updated(s.msgs, plan.callId, world.notice(notice, plan.call));
            var accepted, refused := AfterReview(world, s, PlanApproved), AfterReview(world, s, PlanRejected);
            var late := AfterReview(world, s, PlanTimedOut);
            && accepted.msgs == rewritten(PlanAccepted)
                                + [System(world.notice(PlanText, plan.call)), User(world.notice(PlanGo, plan.call))]
            && refused.msgs == rewritten(PlanRefused) + [User(world.notice(PlanFeedback, plan.call))]
            && late.msgs == rewritten(PlanTimeout) + [System(world.notice(PlanTimeoutSystem, plan.call))]
            && accepted.mode == late.mode == AgentMode && refused.mode == s.mode
            && accepted.plan == refused.plan == late.plan == None
  {
  }

  class AgentCore {
    const world: World
    const config: Config
    var msgs: seq<Message>
    var mode: Mode
    var state: LoopState
    var roundCount: nat
    var response: seq<Call>
    var pendingPlan: Option<PendingPlan>
    /** Pending action ids with whether their event is set, and the decisions recorded for them. */
    var pendingApprovals: map<string, bool>
    var approvalDecisions: map<string, bool>
    ghost var requests: seq<seq<Message>>
    ghost var executions: seq<Execution>

    constructor (world: World, config: Config, mode: Mode)
      ensures this.world == world && this.config == config && this.mode == mode
      ensures NoApprovalLeft()
    {
      this.world, this.config, this.mode := world, config, mode;
      msgs, state, roundCount, response, pendingPlan := [], Thinking, 0, [], None;
      pendingApprovals, approvalDecisions := map[], map[];
      requests, executions := [], [];
    }

    ghost predicate NoApprovalLeft()
      reads this
    {
      pendingApprovals == map[] && approvalDecisions == map[]
    }

    method ResolveApproval(actionId: string, approved: bool) returns (found: bool)
      modifies `pendingApprovals, `approvalDecisions
      ensures found == (actionId in old(pendingApprovals))
      ensures found ==> pendingApprovals == old(pendingApprovals)[actionId := true]
                        && approvalDecisions == old(approvalDecisions)[actionId := approved]
      ensures !found ==> pendingApprovals == old(pendingApprovals) && approvalDecisions == old(approvalDecisions)
    {
      if actionId !in pendingApprovals {
        return false;
      }
      approvalDecisions := approvalDecisions[actionId := approved];
      pendingApprovals := pendingApprovals[actionId := true];
      return true;
    }

    /** Waits for the outside: any approvals and rejections of any ids may arrive before the task resumes. */
    method HandleApproval(input: CallInput) returns (approved: bool)
      requires NoApprovalLeft()
      modifies `pendingApprovals, `approvalDecisions
      ensures NoApprovalLeft()
      ensures approved <==> ApprovedInTime(input)
    {
      var id := input.actionId;
      pendingApprovals := pendingApprovals[id := false];
      for i := 0 to |input.resolutions|
        invariant var last := LastDecision(input.resolutions[..i], id);
          && pendingApprovals == map[id := last.Some?]
          && approvalDecisions == (if last.Some? then map[id := last.value] else map[])
      {
        var r := input.resolutions[i];
        assert input.resolutions[..i + 1][..i] == input.resolutions[..i];
        var _ := ResolveApproval(r.actionId, r.approved);
      }
      assert input.resolutions[..|input.resolutions|] == input.resolutions;
      if input.timedOut || !pendingApprovals[id] {
        pendingApprovals := pendingApprovals - {id};
        approvalDecisions := approvalDecisions - {id};
        return false;
      }
      approved := if id in approvalDecisions then approvalDecisions[id] else false;
      approvalDecisions := approvalDecisions - {id};
      pendingApprovals := pendingApprovals - {id};
    }

    method AppendToolMessage(callId: string, content: string, replacement: Option<string>)
      modifies `msgs
      ensures msgs == old(msgs) + [Tool(callId, if replacement.Some? then replacement.value else content)]
    {
      var sanitized := if replacement.Some? then replacement.value else content;
      msgs := msgs + [Tool(callId, sanitized)];
    }

    /**
     * One call of a batch. Whichever branch handles it, exactly one tool message answers it; the tool runs
     * exactly when `Runs` says so.
     */
    method HandleCall(index: nat, call: Call, input: CallInput, total: nat) returns (stop: bool, total': nat)
      requires NoApprovalLeft()
      modifies `msgs, `mode, `pendingPlan, `pendingApprovals, `approvalDecisions, `executions
      ensures NoApprovalLeft()
      ensures mode == Switched(old(mode), input)
      ensures var reply := Reply(world, config, index, call, mode, input);
              && msgs == old(msgs) + [Tool(AnswerId(call, input), SentText(config, index, call, input, reply, total))]
              && total' == total + ChargeFor(config, index, call, reply, total)
      ensures executions == old(executions) + Ran(world, config, Execution(roundCount, index, call, mode, input))
      ensures stop <==> IsPlan(world, call)
      ensures pendingPlan == if stop then Some(PendingPlan(call, AnswerId(call, input))) else old(pendingPlan)
    {
      stop, total' := false, total;
      mode := Switched(mode, input);
      var callId := AnswerId(call, input);
      var output: string;
      if call.name == "ask_choice" {
        output := input.choiceOutput;
      } else if call.name == "submitPlan" {
        if world.validPlan(call) {
          AppendToolMessage(callId, world.notice(PlanSubmitted, call), input.replacement);
          pendingPlan := Some(PendingPlan(call, callId));
          return true, total;
        }
        AppendToolMessage(callId, world.notice(BadPlan, call), input.replacement);
        return false, total;
      } else if OverLimit(config, index) {
        AppendToolMessage(callId, world.notice(Skipped, call), input.replacement);
        return false, total;
      } else {
        var risk := world.riskOf(call.name);
        if !risk.ReadOnly? && world.reasonOf(call) == "" {
          output := world.notice(MissingReason, call);
        } else {
          var verdict, _ := CheckToolCallWithReason(world.policy, risk, world.valuesOf(call), mode);
          if verdict.Block? {
            output := world.notice(Blocked, call);
          } else if verdict.RequireConfirm? && config.unattended {
            if input.preAuthorised {
              executions := executions + [Execution(roundCount, index, call, mode, input)];
              output := input.toolOutput;
            } else {
              output := world.notice(Unauthorised, call);
            }
          } else if verdict.RequireConfirm? {
            var approved := HandleApproval(input);
            if approved {
              executions := executions + [Execution(roundCount, index, call, mode, input)];
              output := input.toolOutput;
            } else {
              output := world.notice(if input.timedOut then ApprovalTimedOut else UserRejected, call);
            }
          } else {
            executions := executions + [Execution(roundCount, index, call, mode, input)];
            output := input.toolOutput;
          }
        }
      }
      var modelOutput := Fit(output, PER_TOOL, PER_ROUND - total);
      total' := total + |modelOutput|;
      AppendToolMessage(callId, modelOutput, input.replacement);
    }

    /** The first `n` calls of the batch are handled, starting from the given messages and executions. */
    ghost predicate Progress(b: Batch, start: seq<Message>, ran: seq<Execution>, n: nat)
      requires n <= |b.calls|
      reads this
    {
      && b.world == world && b.config == config && b.calls == response
      && msgs == start + AnswersTo(b, n)
      && executions == ran + RunsOf(b, roundCount, n)
      && mode == ModeAt(b, n)
      && NoApprovalLeft()
    }

    method HandleNext(ghost b: Batch, ghost start: seq<Message>, ghost ran: seq<Execution>, index: nat,
                      input: CallInput, total: nat)
      returns (stop: bool, total': nat)
      requires index < |b.calls| && Progress(b, start, ran, index) && input == b.handling(index)
      requires total == Counter(b, index)
      modifies `msgs, `mode, `pendingPlan, `pendingApprovals, `approvalDecisions, `executions
      ensures Progress(b, start, ran, index + 1) && total' == Counter(b, index + 1)
      ensures stop <==> IsPlan(world, response[index])
      ensures pendingPlan == if stop then Some(PlanAt(b, index)) else old(pendingPlan)
    {
      NextCall(b, start, ran, roundCount, index);
      stop, total' := HandleCall(index, response[index], input, total);
      assert mode == ModeAt(b, index + 1);
    }

    /** The loop over the batch, left after the first valid plan. */
    method AnswerCalls(ghost b: Batch, handling: nat -> CallInput) returns (hasPendingPlan: bool)
      requires NoApprovalLeft() && b == Batch(world, config, response, mode, handling)
      modifies `msgs, `mode, `pendingPlan, `pendingApprovals, `approvalDecisions, `executions
      ensures Progress(b, old(msgs), old(executions), Handled(world, response))
      ensures hasPendingPlan == HasPlan(world, response)
      ensures pendingPlan == if hasPendingPlan then Some(PlanAt(b, Handled(world, response) - 1)) else old(pendingPlan)
    {
      var total := 0;
      hasPendingPlan := false;
      var index := 0;
      NothingYet(b, msgs, executions, roundCount);
      assert response[0..] == response;
      while index < |response| && !hasPendingPlan
        invariant index <= |response| && Progress(b, old(msgs), old(executions), index) && total == Counter(b, index)
        invariant Handling(world, response, index, hasPendingPlan)
        invariant pendingPlan == if hasPendingPlan then Some(PlanAt(b, index - 1)) else old(pendingPlan)
        decreases |response| - index
      {
        HandlingStep(world, response, index);
        hasPendingPlan, total := HandleNext(b, old(msgs), old(executions), index, handling(index), total);
        index := index + 1;
      }
      HandlingDone(world, response, index, hasPendingPlan);
    }

    /** One EXECUTING step: the batch is answered in order, up to the first valid plan, and tools run under the gate. */
    method Execute(handling: nat -> CallInput)
      requires state.Executing? && NoApprovalLeft()
      modifies `msgs, `mode, `state, `pendingPlan, `pendingApprovals, `approvalDecisions, `executions
      ensures var b, n := Batch(world, config, response, old(mode), handling), Handled(world, response);
              && Progress(b, old(msgs), old(executions), n)
              && WithinBudget(b, n)
              && state == (if HasPlan(world, response) then PlanReview else Thinking)
              && pendingPlan == if state.PlanReview? then Some(PlanAt(b, n - 1)) else old(pendingPlan)
    {
      ghost var b := Batch(world, config, response, mode, handling);
      var hasPendingPlan := AnswerCalls(b, handling);
      AnswersWithinBudget(b, Handled(world, response));
      state := if hasPendingPlan then PlanReview else Thinking;
    }

    method WaitForPlanApproval(outcome: PlanOutcome, plan: PendingPlan)
      modifies `msgs, `mode, `pendingPlan
      ensures pendingPlan == None
      ensures msgs == Updated(old(msgs), plan.callId, PlanAnswer(world, outcome, plan.call))
                        + PlanFollowUp(world, outcome, plan.call)
      ensures mode == if outcome.PlanRejected? then old(mode) else AgentMode
    {
      pendingPlan := None;
      var call := plan.call;
      var suffix: seq<Message>;
      var text: string;
      match outcome {
        case PlanTimedOut =>
          mode := AgentMode;
          text := world.notice(PlanTimeout, call);
          suffix := [System(world.notice(PlanTimeoutSystem, call))];
        case PlanApproved =>
          mode := AgentMode;
          text := world.notice(PlanAccepted, call);
          suffix := [System(world.notice(PlanText, call)), User(world.notice(PlanGo, call))];
        case PlanRejected =>
          text := world.notice(PlanRefused, call);
          suffix := [User(world.notice(PlanFeedback, call))];
      }
      msgs := UpdateToolResponse(msgs, plan.callId, text);
      msgs := msgs + suffix;
    }

    ghost function Snap(): Snapshot
      reads this
    {
      Snapshot(msgs, mode, state, roundCount, response, pendingPlan, requests, executions)
    }

    /** One THINKING step: compress, insert the mode instruction, call the model, record its answer. */
    method Think(input: RoundInput)
      requires state.Thinking?
      modifies `msgs, `state, `response, `requests
      ensures Snap() == AfterThinking(world, config, old(Snap()), input)
    {
      msgs := CompressHistory(msgs, RECENT, config.thresholdTokens, world.summarise);
      var request := InjectModePrompt(msgs, world.modePrompt(mode), world.guidance);
      requests := requests + [request];
      if input.leaked {
        msgs := msgs + [System(world.notice(CanaryStop, Call("", "", "")))];
        state := Done;
      } else if input.text != "" && input.calls == [] {
        state := Done;
      } else if input.calls != [] {
        msgs := msgs + [Assistant(input.preamble, input.calls)];
        response := input.calls;
        state := Executing;
      } else {
        state := Done;
      }
    }

    predicate WithinRoundLimit()
      reads `roundCount
    {
      config.maxRounds == 0 || roundCount < config.maxRounds
    }

    /** One iteration after the round counter was raised. */
    method Step(input: RoundInput)
      requires NoApprovalLeft() && !state.Done?
      modifies this
      ensures NoApprovalLeft() && Snap() == Next(world, config, old(Snap()), input)
    {
      match state {
        case Thinking => Think(input);
        case Executing => Execute(input.handling);
        case PlanReview =>
          if pendingPlan.Some? {
            WaitForPlanApproval(input.plan, pendingPlan.value);
          }
          state := Thinking;
      }
    }

    method OneRound(env: nat -> RoundInput) returns (expired: bool)
      requires NoApprovalLeft() && !state.Done?
      modifies this
      ensures NoApprovalLeft() && Snap() == Round(world, config, env, old(Snap()))
      ensures expired == env(old(roundCount)).expired
    {
      var input := env(roundCount);
      roundCount := roundCount + 1;
      if input.expired {
        return true;
      }
      Step(input);
      return false;
    }

    /** The state before the first iteration. */
    method Begin(built: seq<Message>)
      modifies `requests, `executions, `msgs, `state, `roundCount, `response
      ensures Snap() == StartOf(built, mode, pendingPlan)
    {
      requests, executions := [], [];
      msgs := CloseOrphanToolCalls(built);
      state := Thinking;
      roundCount := 0;
      response := [];
    }

    /** The loop itself. */
    method RunRounds(env: nat -> RoundInput, horizon: nat, ghost end: Snapshot -> Snapshot)
      requires NoApprovalLeft() && roundCount == 0
      requires Leads(world, config, env, horizon, end)
      modifies this
      ensures NoApprovalLeft() && Snap() == end(old(Snap()))
    {
      ghost var goal := end(Snap());
      var expired := false;
      while !expired && !state.Done? && WithinRoundLimit() && roundCount < horizon
        invariant NoApprovalLeft() && (expired <==> roundCount > 0 && env(roundCount - 1).expired)
        invariant end(Snap()) == goal
        decreases horizon - roundCount
      {
        expired := OneRound(env);
      }
    }

    /**
     * A whole run of the loop, or its first `horizon` iterations; with `maxRounds > 0` and `horizon >= maxRounds`
     * it is the whole run. `env(r)` is what the outside contributes to iteration r.
     */
    method RunLoop(built: seq<Message>, env: nat -> RoundInput, horizon: nat)
      requires NoApprovalLeft()
      modifies this
      ensures NoApprovalLeft() && Snap() == RunFrom(world, config, old(StartOf(built, mode, pendingPlan)), env, horizon)
      ensures Promised(world, config, built, env, horizon, Snap())
    {
      RunPromises(world, config, built, mode, pendingPlan, env, horizon);
      EndOfLeads(world, config, env, horizon);
      EndOfStart(world, config, env, horizon, StartOf(built, mode, pendingPlan));
      Begin(built);
      RunRounds(env, horizon, EndOf(world, config, env, horizon));
    }
  }

  /**
   * Every request has every call answered, and every answer with its call if the stored history had, when the kept
   * history is covered and batches are answerable; every tool run was permitted, none twice; with a round limit at
   * most every second round sent a request; and the run went on until something stopped it.
   */
  ghost predicate Promised(world: World, config: Config, built: seq<Message>, env: nat -> RoundInput, horizon: nat,
                           s: Snapshot) {
    && (KeptCovered(built) && Tame(world, env) ==> AllRequestsMeet(Answered, s.requests))
    && (KeptCovered(built) && Owned({}, built) && Tame(world, env) ==> AllRequestsMeet(TwoSided, s.requests))
    && Gated(world, config, s.executions)
    && (config.maxRounds > 0 ==> s.round <= config.maxRounds && |s.requests| <= (config.maxRounds + 1) / 2)
    && Stops(config, env, horizon, s)
  }

  /** What `RunFrom` promises from the start. */
  lemma {:induction false} RunPromises(world: World, config: Config, built: seq<Message>, mode: Mode,
                                       plan: Option<PendingPlan>, env: nat -> RoundInput, horizon: nat)
    ensures Promised(world, config, built, env, horizon,
                     RunFrom(world, config, StartOf(built, mode, plan), env, horizon))
  {
    var start, pairing := StartOf(built, mode, plan), StartPairing(world, env, built);
    RepairStarts(world, env, built);
    assert LoopInv(world, config, pairing, start);
    RunKeeps(world, config, pairing, start, env, horizon);
    RunEnds(world, config, start, env, horizon);
    StartPromise(world, env, built, RunFrom(world, config, start, env, horizon).requests);
  }

  /** What the repaired history and the run's batches allow to promise of every request. */
  ghost function StartPairing(world: World, env: nat -> RoundInput, built: seq<Message>): Pairing {
    if !KeptCovered(built) || !Tame(world, env) then Unknown
    else if Owned({}, built) then TwoSided
    else Answered
  }

  lemma {:induction false} StartPromise(world: World, env: nat -> RoundInput, built: seq<Message>,
                                        requests: seq<seq<Message>>)
    requires AllRequestsMeet(StartPairing(world, env, built), requests)
    ensures KeptCovered(built) && Tame(world, env) ==> AllRequestsMeet(Answered, requests)
    ensures KeptCovered(built) && Owned({}, built) && Tame(world, env) ==> AllRequestsMeet(TwoSided, requests)
  {
  }

  lemma {:induction false} RepairStarts(world: World, env: nat -> RoundInput, built: seq<Message>)
    ensures Meets(StartPairing(world, env, built), Repaired(built))
  {
    RepairCoversIff(built);
    if Owned({}, built) {
      RepairKeepsOwned(built);
    }
  }

  /** After an EXECUTING step on an answerable batch the list meets what it met before. */
  lemma {:induction false} BatchKeepsPairing(pairing: Pairing, world: World, history: seq<Message>, batch: Message,
                          handling: nat -> CallInput, answers: seq<Message>)
    requires Meets(pairing, history) && IsCalls(batch) && Answers(world, batch.calls, handling, answers)
    requires !pairing.Unknown? ==> Answerable(world, batch.calls) && forall k: nat :: handling(k).freshId != ""
    ensures Meets(pairing, history + [batch] + answers)
  {
    if !pairing.Unknown? {
      AnswersCoverIff(world, batch.calls, handling, answers);
      BlockMeets(batch, answers);
      CoveredConcat(history, [batch] + answers);
      Assoc(history, [batch], answers);
      OwnedConcat({}, history, [batch] + answers);
    }
    if pairing.TwoSided? {
      BlockOwned(world, batch, handling, answers);
    }
  }

  lemma {:induction false} AnswersKeepPairing(pairing: Pairing, ms: seq<Message>, b: Batch)
    requires |ms| > 0 && Meets(pairing, ms[..|ms| - 1]) && IsCalls(ms[|ms| - 1]) && ms[|ms| - 1].calls == b.calls
    requires !pairing.Unknown? ==> Answerable(b.world, b.calls) && forall k: nat :: b.handling(k).freshId != ""
    ensures Meets(pairing, ms + AnswersTo(b, Handled(b.world, b.calls)))
  {
    var n, last := Handled(b.world, b.calls), |ms| - 1;
    AnswersToIds(b, n);
    BatchKeepsPairing(pairing, b.world, ms[..last], ms[last], b.handling, AnswersTo(b, n));
    assert ms == ms[..last] + [ms[last]];
  }

  /** What a whole batch keeps, and that a pending plan's answer comes last. */
  lemma {:induction false} AfterBatch(pairing: Pairing, ms: seq<Message>, ran: seq<Execution>, round: nat, b: Batch)
    requires |ms| > 0 && Meets(pairing, ms[..|ms| - 1]) && IsCalls(ms[|ms| - 1]) && ms[|ms| - 1].calls == b.calls
    requires !pairing.Unknown? ==> Answerable(b.world, b.calls) && forall k: nat :: b.handling(k).freshId != ""
    requires Gated(b.world, b.config, ran) && UpTo(ran, round, 0)
    ensures var n := Handled(b.world, b.calls);
            && Meets(pairing, ms + AnswersTo(b, n))
            && Gated(b.world, b.config, ran + RunsOf(b, round, n)) && UpTo(ran + RunsOf(b, round, n), round + 1, 0)
            && (HasPlan(b.world, b.calls) ==>
                  n > 0 && EndsWithAnswer(ms + AnswersTo(b, n), PlanAt(b, n - 1).callId))
  {
    var n := Handled(b.world, b.calls);
    AnswersKeepPairing(pairing, ms, b);
    RunsGated(b, ran, round, n);
    NextRound(ran + RunsOf(b, round, n), round, n);
    PlanAnswerComesLast(ms, b);
  }

  lemma {:induction false} PlanAnswerComesLast(ms: seq<Message>, b: Batch)
    ensures var n := Handled(b.world, b.calls);
            HasPlan(b.world, b.calls) ==> n > 0 && EndsWithAnswer(ms + AnswersTo(b, n), PlanAt(b, n - 1).callId)
  {
    var n := Handled(b.world, b.calls);
    if HasPlan(b.world, b.calls) {
      AnswersByPosition(b, n, n - 1);
      var all := ms + AnswersTo(b, n);
      assert all[|all| - 1] == AnswerAt(b, n - 1);
    }
  }

  lemma {:induction false} BlockMeets(batch: Message, answers: seq<Message>)
    requires IsCalls(batch) && AllTools(answers) && CoverBatch(batch.calls, answers)
    ensures Covered([batch] + answers)
  {
    NoCallsCovered(answers);
    assert ([batch] + answers)[1..] == answers;
  }

  lemma {:induction false} BlockOwned(world: World, batch: Message, handling: nat -> CallInput, answers: seq<Message>)
    requires IsCalls(batch) && AllTools(answers)
    requires Answerable(world, batch.calls) && Answers(world, batch.calls, handling, answers)
    ensures Owned({}, [batch] + answers)
  {
    ToolIds(answers);
    forall id | id in AnsweredIds(answers)
      ensures id in CallIds(batch)
    {
      var k: nat :| k < |answers| && answers[k].id == id;
      assert batch.calls[k] in batch.calls && batch.calls[k].id == id;
    }
    OwnedRun(CallIds(batch), answers);
    assert ([batch] + answers)[1..] == answers;
  }
}
