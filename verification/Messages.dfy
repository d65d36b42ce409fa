/** Conversation messages in the OpenAI wire shape and the tool-call pairing rule. */
module Messages {

  import opened Wrappers

  /** One entry of an assistant message's `tool_calls`; `arguments` is the JSON text. */
  datatype Call = Call(id: string, name: string, arguments: string)

  /** An assistant message with an empty `calls` is plain text: the source tests `msg.get("tool_calls")` for truth. */
  datatype Message =
    | User(content: string)
    | System(content: string)
    | Assistant(text: Option<string>, calls: seq<Call>)
    | Tool(id: string, content: string)

  predicate IsCalls(m: Message) {
    m.Assistant? && m.calls != []
  }

  function CallIds(m: Message): set<string>
    requires m.Assistant?
  {
    set c | c in m.calls :: c.id
  }

  predicate StartsWithTool(ms: seq<Message>) {
    ms != [] && ms[0].Tool?
  }

  predicate StartsWithCalls(ms: seq<Message>) {
    ms != [] && IsCalls(ms[0])
  }

  predicate AllTools(ms: seq<Message>) {
    forall i | 0 <= i < |ms| :: ms[i].Tool?
  }

  /** The ids answered by the tool messages a list starts with. */
  function AnsweredIds(ms: seq<Message>): set<string> {
    if StartsWithTool(ms) then {ms[0].id} + AnsweredIds(ms[1..]) else {}
  }

  /** The pairing rule: each tool-calls message is directly followed by tool messages covering its ids. */
  predicate Covered(ms: seq<Message>) {
    ms != [] ==>
      && (IsCalls(ms[0]) ==> CallIds(ms[0]) <= AnsweredIds(ms[1..]))
      && Covered(ms[1..])
  }

  /** Position `j` answers call `id` of the message at `i`, with nothing but tool messages in between. */
  ghost predicate AnswersAt(ms: seq<Message>, i: nat, id: string, j: nat) {
    && i < j < |ms|
    && (forall k | i < k <= j :: ms[k].Tool?)
    && ms[j].id == id
  }

  lemma {:induction false} AnsweredIdsMeaning(ms: seq<Message>, i: nat, id: string)
    requires i < |ms|
    ensures id in AnsweredIds(ms[i + 1..]) <==> exists j :: AnswersAt(ms, i, id, j)
    decreases |ms| - i
  {
    var rest := ms[i + 1..];
    if StartsWithTool(rest) {
      AnsweredIdsMeaning(ms, i + 1, id);
      assert rest[1..] == ms[i + 2..];
      assert rest[0] == ms[i + 1];
      if rest[0].id == id {
        assert AnswersAt(ms, i, id, i + 1);
      }
      if id in AnsweredIds(rest[1..]) {
        var j :| AnswersAt(ms, i + 1, id, j);
        assert AnswersAt(ms, i, id, j);
      }
      if exists j :: AnswersAt(ms, i, id, j) {
        var j :| AnswersAt(ms, i, id, j);
        if j != i + 1 {
          assert AnswersAt(ms, i + 1, id, j);
        }
      }
    } else {
      forall j
        ensures !AnswersAt(ms, i, id, j)
      {
        assert i + 1 < |ms| ==> rest[0] == ms[i + 1];
      }
    }
  }

  /** The recursive rule says the same as the positional one a provider checks. */
  lemma {:induction false} CoveredMeaning(ms: seq<Message>)
    ensures Covered(ms) <==>
            forall i: nat, id | i < |ms| && IsCalls(ms[i]) && id in CallIds(ms[i]) ::
              exists j :: AnswersAt(ms, i, id, j)
  {
    CoveredFrom(ms, 0);
    assert ms[0..] == ms;
    forall i: nat, id | i < |ms| && IsCalls(ms[i]) && id in CallIds(ms[i])
      ensures id in AnsweredIds(ms[i + 1..]) <==> exists j :: AnswersAt(ms, i, id, j)
    {
      AnsweredIdsMeaning(ms, i, id);
    }
  }

  lemma {:induction false} CoveredFrom(ms: seq<Message>, n: nat)
    requires n <= |ms|
    ensures Covered(ms[n..]) <==>
            forall i: nat | n <= i < |ms| && IsCalls(ms[i]) :: CallIds(ms[i]) <= AnsweredIds(ms[i + 1..])
    decreases |ms| - n
  {
    if n < |ms| {
      CoveredFrom(ms, n + 1);
      assert ms[n..][1..] == ms[n + 1..];
    }
  }

  /** Appending can only add answers. */
  lemma {:induction false} AnsweredIdsConcat(a: seq<Message>, b: seq<Message>)
    ensures AnsweredIds(a) <= AnsweredIds(a + b)
    ensures !StartsWithTool(b) ==> AnsweredIds(a + b) == AnsweredIds(a)
    ensures AllTools(a) ==> AnsweredIds(a + b) == AnsweredIds(a) + AnsweredIds(b)
  {
    if a == [] {
      assert a + b == b;
    } else {
      AnsweredIdsConcat(a[1..], b);
      assert (a + b)[1..] == a[1..] + b;
    }
  }

  lemma {:induction false} CoveredConcat(a: seq<Message>, b: seq<Message>)
    ensures Covered(a) && Covered(b) ==> Covered(a + b)
    ensures Covered(a + b) ==> Covered(b)
    ensures !StartsWithTool(b) && Covered(a + b) ==> Covered(a)
  {
    if a == [] {
      assert a + b == b;
    } else {
      CoveredConcat(a[1..], b);
      assert (a + b)[1..] == a[1..] + b;
      AnsweredIdsConcat(a[1..], b);
    }
  }

  lemma {:induction false} NoCallsCovered(ms: seq<Message>)
    requires forall m | m in ms :: !IsCalls(m)
    ensures Covered(ms)
  {
    if ms != [] {
      NoCallsCovered(ms[1..]);
    }
  }

  // ---------------------------------------------------------------------------
  // The other direction: no tool message without its call

  function Asks(m: Message): set<string> {
    if m.Assistant? then CallIds(m) else {}
  }

  /** Each tool message answers a call of the message its run follows; `ids` was asked for in front of the list. */
  predicate Owned(ids: set<string>, ms: seq<Message>)
    decreases |ms|
  {
    ms != [] ==>
      if ms[0].Tool? then ms[0].id in ids && Owned(ids, ms[1..]) else Owned(Asks(ms[0]), ms[1..])
  }

  lemma {:induction false} OwnedGrows(ids: set<string>, more: set<string>, ms: seq<Message>)
    requires Owned(ids, ms) && ids <= more
    ensures Owned(more, ms)
  {
    if StartsWithTool(ms) {
      OwnedGrows(ids, more, ms[1..]);
    }
  }

  lemma {:induction false} OwnedConcat(ids: set<string>, a: seq<Message>, b: seq<Message>)
    requires !StartsWithTool(b)
    ensures Owned(ids, a + b) <==> Owned(ids, a) && Owned({}, b)
    decreases |a|
  {
    if a == [] {
      assert a + b == b;
    } else {
      assert (a + b)[1..] == a[1..] + b;
      OwnedConcat(if a[0].Tool? then ids else Asks(a[0]), a[1..], b);
    }
  }

  lemma {:induction false} OwnedRun(ids: set<string>, run: seq<Message>)
    requires AllTools(run)
    ensures Owned(ids, run) <==> AnsweredIds(run) <= ids
  {
    if run != [] {
      OwnedRun(ids, run[1..]);
    }
  }
}
