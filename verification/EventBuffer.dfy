/** The bounded event buffer (gateway/service/AgentEventBuffer.py). */
module EventBuffer {

  datatype Kind = ApprovalRequired | ChoiceRequired | Other

  datatype Payload = Payload(kind: Kind, data: string)

  /** An event with the sequence number `push` gives it. */
  datatype Event = Event(number: nat, payload: Payload)

  // ---------------------------------------------------------------------------
  // The unbounded log the buffer stands for

  ghost predicate Numbered(log: seq<Event>) {
    forall i: nat | i < |log| :: log[i].number == i
  }

  /** First sequence number still retained. */
  function Oldest(total: nat, maxSize: nat): nat {
    if total <= maxSize then 0 else total - maxSize
  }

  /** First sequence number a reader that has everything up to `lastSeq` gets. */
  function ReadFrom(total: nat, maxSize: nat, lastSeq: int): nat {
    var next := if lastSeq + 1 < Oldest(total, maxSize) then Oldest(total, maxSize) else lastSeq + 1;
    if next < 0 then 0 else if next > total then total else next
  }

  function After(events: seq<Event>, lastSeq: int): seq<Event> {
    if events == [] then []
    else if events[0].number > lastSeq then [events[0]] + After(events[1..], lastSeq)
    else After(events[1..], lastSeq)
  }

  /** Filtering the retained window by number is cutting the log at one place. */
  lemma {:induction false} AfterIsSuffix(log: seq<Event>, from: nat, lastSeq: int)
    requires Numbered(log) && from <= |log|
    ensures After(log[from..], lastSeq) ==
            if lastSeq + 1 <= from then log[from..] else if lastSeq + 1 < |log| then log[lastSeq + 1..] else []
    decreases |log| - from
  {
    if from < |log| {
      AfterIsSuffix(log, from + 1, lastSeq);
      assert log[from..][1..] == log[from + 1..];
      assert log[from..] == [log[from]] + log[from + 1..];
    }
  }

  /** What a reader gets: the full log cut to the retained window and to what the reader lacks. */
  lemma {:induction false} ReadIsLogWindow(log: seq<Event>, maxSize: nat, lastSeq: int)
    requires Numbered(log)
    ensures After(log[Oldest(|log|, maxSize)..], lastSeq) == log[ReadFrom(|log|, maxSize, lastSeq)..]
  {
    AfterIsSuffix(log, Oldest(|log|, maxSize), lastSeq);
  }

  // ---------------------------------------------------------------------------
  // The buffer

  lemma {:induction false} SuffixAppend(log: seq<Event>, from: nat, event: Event)
    requires from <= |log|
    ensures (log + [event])[from..] == log[from..] + [event]
  {
  }

  class AgentEventBuffer {
    const maxSize: nat
    var events: seq<Event>
    var queue: seq<Event>
    var totalEmitted: nat
    var done: bool
    var finalStatus: string
    /** Every event ever pushed, and how many were taken from the live queue. */
    ghost var log: seq<Event>
    ghost var taken: nat

    ghost predicate Valid()
      reads this
    {
      && Numbered(log)
      && totalEmitted == |log|
      && taken <= |log|
      && events == log[Oldest(|log|, maxSize)..]
      && queue == log[taken..]
    }

    constructor (maxSize: nat)
      ensures Valid() && this.maxSize == maxSize
      ensures log == [] && taken == 0 && !done
    {
      this.maxSize := maxSize;
      events, queue, totalEmitted := [], [], 0;
      done, finalStatus := false, "";
      log, taken := [], 0;
    }

    method Push(payload: Payload) returns (number: nat)
      requires Valid()
      modifies `events, `queue, `totalEmitted, `log
      ensures Valid()
      ensures number == |old(log)| && log == old(log) + [Event(number, payload)]
    {
      number := totalEmitted;
      var event := Event(number, payload);
      log := log + [event];
      events := events + [event];
      totalEmitted := totalEmitted + 1;
      ghost var first: nat := Oldest(|old(log)|, maxSize);
      SuffixAppend(old(log), first, event);
      SuffixAppend(old(log), taken, event);
      while |events| > maxSize
        invariant first <= |log| && events == log[first..]
        invariant first <= Oldest(|log|, maxSize)
        modifies `events
        decreases |events|
      {
        assert log[first..][1..] == log[first + 1..];
        events := events[1..];
        first := first + 1;
      }
      queue := queue + [event];
    }

    method ReadSince(lastSeq: int) returns (backlog: seq<Event>)
      requires Valid()
      ensures backlog == log[ReadFrom(|log|, maxSize, lastSeq)..]
    {
      backlog := [];
      ghost var goal := After(events, lastSeq);
      ghost var rest := goal;
      assert events[0..] == events;
      for i := 0 to |events|
        invariant rest == After(events[i..], lastSeq)
        invariant goal == backlog + rest
      {
        assert events[i..][0] == events[i] && events[i..][1..] == events[i + 1..];
        rest := After(events[i + 1..], lastSeq);
        if events[i].number > lastSeq {
          assert backlog + ([events[i]] + rest) == backlog + [events[i]] + rest;
          backlog := backlog + [events[i]];
        }
      }
      ReadIsLogWindow(log, maxSize, lastSeq);
    }

    /** `queue.get_nowait()`: events leave the live queue in log order, each once. */
    method Take() returns (event: Event)
      requires Valid() && queue != []
      modifies `queue, `taken
      ensures Valid() && taken == old(taken) + 1
      ensures old(taken) < |log| && event == log[old(taken)]
    {
      event := queue[0];
      queue := queue[1..];
      taken := taken + 1;
    }

    method MarkDone(status: string)
      requires Valid()
      modifies `done, `finalStatus
      ensures Valid() && done && finalStatus == status
    {
      done, finalStatus := true, status;
    }

    method ResetForNewRound()
      requires Valid()
      modifies `done, `finalStatus
      ensures Valid() && !done && finalStatus == ""
    {
      done, finalStatus := false, "";
    }

    method GetState() returns (total: nat, buffered: nat, isDone: bool, status: string)
      requires Valid()
      ensures total == |log| && buffered == (if |log| <= maxSize then |log| else maxSize)
      ensures isDone == done && status == finalStatus
    {
      return totalEmitted, |events|, done, finalStatus;
    }
  }
}
