/** Insertion of the mode instruction before an LLM call (agent/agent_core/agent_loop.py, _injectModePrompt). */
module ModePrompt {
  import opened Messages

  /** Where the instruction goes: at the last user message, or at the end when there is none. */
  function InsertionPoint(ms: seq<Message>): (u: nat)
    ensures u <= |ms|
    ensures u < |ms| ==> ms[u].User?
    ensures forall k | 0 <= k < |ms| && ms[k].User? :: u < |ms| && k <= u
  {
    if ms == [] then 0
    else if ms[|ms| - 1].User? then |ms| - 1
    else
      var u := InsertionPoint(ms[..|ms| - 1]);
      if u < |ms| - 1 then u else |ms|
  }

  function WithModePrompt(ms: seq<Message>, prompt: string): seq<Message> {
    ms[..InsertionPoint(ms)] + [System(prompt)] + ms[InsertionPoint(ms)..]
  }

  method InjectModePrompt(messages: seq<Message>, modeContent: string, guidance: string) returns (result: seq<Message>)
    ensures result == WithModePrompt(messages, if guidance == "" then modeContent else modeContent + "\n\n" + guidance)
  {
    result := messages;
    var lastUser := -1;
    var i := |result| - 1;
    while i >= 0
      invariant -1 <= i < |messages|
      invariant forall k | i < k < |messages| :: !messages[k].User?
      invariant lastUser == -1
    {
      if result[i].User? {
        lastUser := i;
        break;
      }
      i := i - 1;
    }
    var content := modeContent;
    if guidance != "" {
      content := content + "\n\n" + guidance;
    }
    if lastUser == -1 {
      assert InsertionPoint(messages) == |messages|;
      result := result + [System(content)];
    } else {
      assert InsertionPoint(messages) == lastUser;
      result := result[..lastUser] + [System(content)] + result[lastUser..];
    }
  }

  /** The insertion separates no tool-calls message from its answers, and cannot repair a broken pairing either. */
  lemma {:induction false} InjectCoveredIff(ms: seq<Message>, prompt: string)
    ensures Covered(WithModePrompt(ms, prompt)) <==> Covered(ms)
  {
    var a, b := ms[..InsertionPoint(ms)], ms[InsertionPoint(ms)..];
    var s := [System(prompt)];
    assert ms == a + b;
    assert WithModePrompt(ms, prompt) == a + (s + b);
    CoveredConcat(a, b);
    CoveredConcat(s, b);
    CoveredConcat(a, s + b);
    assert Covered(s) by { NoCallsCovered(s); }
  }

  /** The insertion falls into no run of tool messages: each has its call exactly if it had it before. */
  lemma {:induction false} InjectOwnedIff(ms: seq<Message>, prompt: string)
    ensures Owned({}, WithModePrompt(ms, prompt)) <==> Owned({}, ms)
  {
    var a, b := ms[..InsertionPoint(ms)], ms[InsertionPoint(ms)..];
    var s := [System(prompt)];
    assert ms == a + b;
    assert WithModePrompt(ms, prompt) == a + (s + b);
    assert !StartsWithTool(b) && !StartsWithTool(s + b);
    OwnedConcat({}, a, b);
    OwnedConcat({}, a, s + b);
    assert (s + b)[1..] == b;
  }

  /** The instruction is the only addition; a user message follows it at once and none comes later, if there is any. */
  lemma {:induction false} InstructionPlaced(ms: seq<Message>, prompt: string)
    ensures var r, u := WithModePrompt(ms, prompt), InsertionPoint(ms);
            && |r| == |ms| + 1 && r[u] == System(prompt) && r[..u] + r[u + 1..] == ms
            && ((exists k :: 0 <= k < |ms| && ms[k].User?) ==> u + 1 < |r| && r[u + 1].User?)
            && (forall k | u + 1 < k < |r| :: !r[k].User?)
            && ((forall k | 0 <= k < |ms| :: !ms[k].User?) ==> u + 1 == |r|)
  {
    var r, u := WithModePrompt(ms, prompt), InsertionPoint(ms);
    assert r[..u] == ms[..u] && r[u + 1..] == ms[u..];
    assert forall k | u < k < |r| :: r[k] == ms[k - 1];
  }
}
