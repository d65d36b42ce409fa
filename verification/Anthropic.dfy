/** Regrouping of messages for the Anthropic API (agent/llm_providers/anthropic_compat.py, _convertMessages). */
module Anthropic {
  import opened Wrappers
  import opened Messages
  import opened Compress

  datatype Role = UserRole | AssistantRole

  datatype ToolResult = ToolResult(toolUseId: string, content: string)

  /** `ToolUse` is an assistant message of tool_use blocks, `ToolResults` a user message of tool_result blocks. */
  datatype AMessage =
    | SystemText(content: string)
    | Text(role: Role, content: string)
    | ToolUse(blocks: seq<Call>)
    | ToolResults(results: seq<ToolResult>)

  function OrEmpty(text: Option<string>): string {
    if text.Some? then text.value else ""
  }

  function Single(m: Message): AMessage {
    match m
    case System(c) => SystemText(c)
    case User(c) => Text(UserRole, c)
    case Assistant(t, calls) => if calls != [] then ToolUse(calls) else Text(AssistantRole, OrEmpty(t))
    case Tool(id, c) => ToolResults([ToolResult(id, c)])
  }

  function Results(tools: seq<Message>): seq<ToolResult>
    requires AllTools(tools)
  {
    seq(|tools|, i requires 0 <= i < |tools| => ToolResult(tools[i].id, tools[i].content))
  }

  /** Consecutive tool messages become one message of results; every other message is converted on its own. */
  function Converted(ms: seq<Message>): seq<AMessage>
    decreases |ms|
  {
    if ms == [] then []
    else if ms[0].Tool? then
      ToolsSplit(ms);
      [ToolResults(Results(LeadingTools(ms)))] + Converted(AfterTools(ms[1..]))
    else [Single(ms[0])] + Converted(ms[1..])
  }

  lemma {:induction false} ConvertedRun(ms: seq<Message>)
    requires StartsWithTool(ms)
    ensures AllTools(LeadingTools(ms))
    ensures Converted(ms) == [ToolResults(Results(LeadingTools(ms)))] + Converted(AfterTools(ms))
  {
    ToolsSplit(ms);
  }

  /** The inner loop: collects the run of tool messages starting at `from`. */
  method CollectResults(messages: seq<Message>, from: nat) returns (results: seq<ToolResult>, i: nat)
    requires from < |messages| && messages[from].Tool?
    ensures from < i <= |messages|
    ensures AllTools(LeadingTools(messages[from..])) && results == Results(LeadingTools(messages[from..]))
    ensures messages[i..] == AfterTools(messages[from..])
  {
    results, i := [], from;
    while i < |messages| && messages[i].Tool?
      invariant from <= i <= |messages|
      invariant i == from ==> messages[i].Tool?
      invariant AllTools(messages[from..i]) && results == Results(messages[from..i])
    {
      assert messages[from..i + 1] == messages[from..i] + [messages[i]];
      results := results + [ToolResult(messages[i].id, messages[i].content)];
      i := i + 1;
    }
    assert messages[from..] == messages[from..i] + messages[i..];
    ToolsStep(messages[from..i], messages[i..]);
    assert !StartsWithTool(messages[i..]);
    assert LeadingTools(messages[from..]) == messages[from..i];
  }

  lemma {:induction false} ConvertedSingle(ms: seq<Message>)
    requires ms != [] && !ms[0].Tool?
    ensures Converted(ms) == [Single(ms[0])] + Converted(ms[1..])
  {
  }

  method ConvertMessages(messages: seq<Message>) returns (converted: seq<AMessage>)
    ensures converted == Converted(messages)
  {
    converted := [];
    var i := 0;
    ghost var goal := Converted(messages);
    ghost var rest := goal;
    assert messages[0..] == messages;
    while i < |messages|
      invariant i <= |messages|
      invariant rest == Converted(messages[i..])
      invariant goal == converted + rest
    {
      var msg := messages[i];
      assert messages[i..][0] == msg && messages[i..][1..] == messages[i + 1..];
      var out: AMessage;
      if msg.Tool? {
        ConvertedRun(messages[i..]);
        var results: seq<ToolResult>;
        results, i := CollectResults(messages, i);
        out := ToolResults(results);
      } else {
        ConvertedSingle(messages[i..]);
        out := if msg.System? then SystemText(msg.content)
               else if IsCalls(msg) then ToolUse(msg.calls)
               else if msg.Assistant? then Text(AssistantRole, OrEmpty(msg.text))
               else Text(UserRole, msg.content);
        i := i + 1;
      }
      rest := Converted(messages[i..]);
      Assoc(converted, [out], rest);
      converted := converted + [out];
    }
    assert messages[i..] == [];
  }

  // ---------------------------------------------------------------------------
  // The provider's rule

  function ResultIds(results: seq<ToolResult>): set<string> {
    set r | r in results :: r.toolUseId
  }

  /** The ids answered by the message of results a list starts with. */
  function HeadResultIds(out: seq<AMessage>): set<string> {
    if out != [] && out[0].ToolResults? then ResultIds(out[0].results) else {}
  }

  /** Every tool_use id has its tool_result in the very next message. */
  ghost predicate ToolUseAnswered(out: seq<AMessage>) {
    forall k | 0 <= k < |out| && out[k].ToolUse? ::
      forall c | c in out[k].blocks :: c.id in HeadResultIds(out[k + 1..])
  }

  ghost predicate NoAdjacentResults(out: seq<AMessage>) {
    forall k | 0 <= k < |out| - 1 :: !(out[k].ToolResults? && out[k + 1].ToolResults?)
  }

  lemma {:induction false} LeadingToolIds(ms: seq<Message>)
    ensures AllTools(LeadingTools(ms))
    ensures ResultIds(ToolsSplit(ms); Results(LeadingTools(ms))) == AnsweredIds(ms)
  {
    ToolsSplit(ms);
    var run := LeadingTools(ms);
    var results := Results(run);
    if StartsWithTool(ms) {
      LeadingToolIds(ms[1..]);
      ToolsSplit(ms[1..]);
      var tail := Results(LeadingTools(ms[1..]));
      assert results == [ToolResult(ms[0].id, ms[0].content)] + tail;
      assert ResultIds(results) == {ms[0].id} + ResultIds(tail);
    }
  }

  lemma {:induction false} HeadResultIdsConverted(ms: seq<Message>)
    ensures HeadResultIds(Converted(ms)) == AnsweredIds(ms)
  {
    LeadingToolIds(ms);
  }

  lemma {:induction false} ToolUseAnsweredCons(m: AMessage, out: seq<AMessage>)
    ensures ToolUseAnswered([m] + out) <==>
            (m.ToolUse? ==> forall c | c in m.blocks :: c.id in HeadResultIds(out)) && ToolUseAnswered(out)
  {
    var all := [m] + out;
    assert all[0] == m && all[1..] == out;
    forall k | 0 <= k < |out|
      ensures out[k] == all[k + 1] && out[k + 1..] == all[k + 2..]
    {
    }
    if ToolUseAnswered(all) {
      forall k | 0 <= k < |out| && out[k].ToolUse?
        ensures forall c | c in out[k].blocks :: c.id in HeadResultIds(out[k + 1..])
      {
        assert all[k + 1].ToolUse?;
      }
      assert m.ToolUse? ==> all[0].ToolUse?;
    }
    if (m.ToolUse? ==> forall c | c in m.blocks :: c.id in HeadResultIds(out)) && ToolUseAnswered(out) {
      forall k | 0 <= k < |all| && all[k].ToolUse?
        ensures forall c | c in all[k].blocks :: c.id in HeadResultIds(all[k + 1..])
      {
        if k > 0 {
          assert out[k - 1].ToolUse?;
        }
      }
    }
  }

  /** A list meets the provider's rule after conversion exactly when it met the pairing rule before. */
  lemma {:induction false} ConvertAnsweredIff(ms: seq<Message>)
    ensures ToolUseAnswered(Converted(ms)) <==> Covered(ms)
    decreases |ms|
  {
    if ms == [] {
    } else if ms[0].Tool? {
      ToolsSplit(ms);
      ToolsSplit(ms[1..]);
      var rest := AfterTools(ms[1..]);
      ConvertAnsweredIff(rest);
      ToolUseAnsweredCons(ToolResults(Results(LeadingTools(ms))), Converted(rest));
      var run := LeadingTools(ms);
      assert ms == run + rest;
      NoCallsCovered(run);
      CoveredConcat(run, rest);
    } else {
      ConvertAnsweredIff(ms[1..]);
      ToolUseAnsweredCons(Single(ms[0]), Converted(ms[1..]));
      HeadResultIdsConverted(ms[1..]);
      if IsCalls(ms[0]) {
        assert CallIds(ms[0]) <= AnsweredIds(ms[1..]) <==>
          forall c | c in ms[0].calls :: c.id in AnsweredIds(ms[1..]);
      }
    }
  }

  // ---------------------------------------------------------------------------
  // The other half of the provider's rule

  function UseIds(m: AMessage): set<string> {
    if m.ToolUse? then set c | c in m.blocks :: c.id else {}
  }

  /** The ids used right before position `k`; `ids` are those used in front of the list. */
  function UsedBefore(ids: set<string>, out: seq<AMessage>, k: nat): set<string>
    requires k < |out|
  {
    if k == 0 then ids else UseIds(out[k - 1])
  }

  ghost predicate RequestedFrom(ids: set<string>, out: seq<AMessage>) {
    forall k: nat | k < |out| && out[k].ToolResults? :: ResultIds(out[k].results) <= UsedBefore(ids, out, k)
  }

  /** Every tool_result answers a tool_use of the message right before it. */
  ghost predicate ResultsRequested(out: seq<AMessage>) {
    RequestedFrom({}, out)
  }

  lemma {:induction false} RequestedCons(ids: set<string>, m: AMessage, out: seq<AMessage>)
    ensures RequestedFrom(ids, [m] + out) <==>
            (m.ToolResults? ==> ResultIds(m.results) <= ids) && RequestedFrom(UseIds(m), out)
  {
    var all := [m] + out;
    assert all[0] == m;
    forall k: nat | k < |out|
      ensures all[k + 1] == out[k] && UsedBefore(ids, all, k + 1) == UsedBefore(UseIds(m), out, k)
    {
    }
    if RequestedFrom(ids, all) {
      forall k: nat | k < |out| && out[k].ToolResults?
        ensures ResultIds(out[k].results) <= UsedBefore(UseIds(m), out, k)
      {
        assert all[k + 1].ToolResults?;
      }
      assert m.ToolResults? ==> all[0].ToolResults?;
    }
    if (m.ToolResults? ==> ResultIds(m.results) <= ids) && RequestedFrom(UseIds(m), out) {
      forall k: nat | k < |all| && all[k].ToolResults?
        ensures ResultIds(all[k].results) <= UsedBefore(ids, all, k)
      {
        if k > 0 {
          assert out[k - 1].ToolResults?;
        }
      }
    }
  }

  /** Every tool_result answers a tool_use right before it exactly if every tool message had its call. */
  lemma {:induction false} ConvertOwnedIff(ids: set<string>, ms: seq<Message>)
    ensures RequestedFrom(ids, Converted(ms)) <==> Owned(ids, ms)
    decreases |ms|
  {
    if ms == [] {
    } else if ms[0].Tool? {
      ConvertedRun(ms);
      ToolsSplit(ms);
      var run, rest := LeadingTools(ms), AfterTools(ms);
      LeadingToolIds(ms);
      AnsweredIdsConcat(run, rest);
      OwnedConcat(ids, run, rest);
      OwnedRun(ids, run);
      RequestedCons(ids, ToolResults(Results(run)), Converted(rest));
      ConvertOwnedIff({}, rest);
    } else {
      RequestedCons(ids, Single(ms[0]), Converted(ms[1..]));
      ConvertOwnedIff(Asks(ms[0]), ms[1..]);
    }
  }

  // ---------------------------------------------------------------------------
  // Nothing else is lost

  /** Conversion drops the text beside tool calls and turns an absent plain text into an empty one. */
  function Normalised(ms: seq<Message>): seq<Message> {
    if ms == [] then []
    else [if !ms[0].Assistant? then ms[0]
          else if ms[0].calls != [] then Assistant(None, ms[0].calls)
          else Assistant(Some(match ms[0].text case Some(t) => t case None => ""), [])] + Normalised(ms[1..])
  }

  function Tools(results: seq<ToolResult>): seq<Message> {
    seq(|results|, i requires 0 <= i < |results| => Tool(results[i].toolUseId, results[i].content))
  }

  function Restored(out: seq<AMessage>): seq<Message> {
    if out == [] then []
    else
      (match out[0]
       case SystemText(c) => [System(c)]
       case Text(UserRole, c) => [User(c)]
       case Text(AssistantRole, c) => [Assistant(Some(c), [])]
       case ToolUse(calls) => [Assistant(None, calls)]
       case ToolResults(rs) => Tools(rs)) + Restored(out[1..])
  }

  lemma {:induction false} NormalisedTools(run: seq<Message>, rest: seq<Message>)
    requires AllTools(run)
    ensures Normalised(run + rest) == run + Normalised(rest)
  {
    if run == [] {
      assert run + rest == rest;
    } else {
      NormalisedTools(run[1..], rest);
      assert (run + rest)[1..] == run[1..] + rest;
    }
  }

  /** Converting back gives the normalised list: every message, call, result and content survives in order. */
  lemma {:induction false} ConvertRoundTrip(ms: seq<Message>)
    ensures Restored(Converted(ms)) == Normalised(ms)
    decreases |ms|
  {
    if ms == [] {
    } else if ms[0].Tool? {
      ConvertedRun(ms);
      ToolsSplit(ms);
      var run, rest := LeadingTools(ms), AfterTools(ms);
      ConvertRoundTrip(rest);
      assert Converted(ms)[1..] == Converted(rest);
      NormalisedTools(run, rest);
      assert Tools(Results(run)) == run;
    } else {
      ConvertRoundTrip(ms[1..]);
      assert Converted(ms)[1..] == Converted(ms[1..]);
    }
  }

  /** The results to one message come back together: no message of results follows another. */
  lemma {:induction false} ConvertGroupsResults(ms: seq<Message>)
    ensures NoAdjacentResults(Converted(ms))
    ensures Converted(ms) != [] && Converted(ms)[0].ToolResults? ==> StartsWithTool(ms)
    decreases |ms|
  {
    if ms == [] {
    } else if ms[0].Tool? {
      ConvertedRun(ms);
      ToolsSplit(ms);
      ConvertGroupsResults(AfterTools(ms));
    } else {
      ConvertGroupsResults(ms[1..]);
    }
  }
}
