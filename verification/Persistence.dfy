/**
 * What a run leaves in the message table (gateway/service/AgentBackgroundRunner.py, _runAgentLoop, and
 * agent/integration/event_stream.py), and what the next run makes of it.
 */
module Persistence {
  import opened Wrappers
  import opened Messages
  import opened Repair
  import opened Compress
  import opened Safety
  import opened AgentLoop

  /** Events of a run as the runner sees them; `Other` stands for those that store no message. */
  datatype Event =
    | Calling(calls: seq<Call>) | Result(id: string, output: string) | Delta(text: string)
    | Failed | Finished | Other

  /** The stream ends after its first error, not only when the run is done. */
  predicate Ends(e: Event) {
    e.Failed? || e.Finished?
  }

  // ---------------------------------------------------------------------------
  // One turn

  /** A user message and the events consumed for it; an aborted turn stores no final text. */
  datatype Turn = Turn(user: string, events: seq<Event>, aborted: bool)

  function Rows(events: seq<Event>): seq<Message> {
    if events == [] || Ends(events[0]) then []
    else if events[0].Calling? && events[0].calls != [] then [Assistant(None, events[0].calls)] + Rows(events[1..])
    else if events[0].Result? then [Tool(events[0].id, events[0].output)] + Rows(events[1..])
    else Rows(events[1..])
  }

  function Said(events: seq<Event>): string {
    if events == [] || Ends(events[0]) then ""
    else if events[0].Delta? then events[0].text + Said(events[1..])
    else Said(events[1..])
  }

  function FinalText(text: string, aborted: bool): seq<Message> {
    if aborted || text == "" then [] else [Assistant(Some(text), [])]
  }

  function StoredTurn(t: Turn, strip: string -> string): seq<Message> {
    [User(t.user)] + Rows(t.events) + FinalText(strip(Said(t.events)), t.aborted)
  }

  /** The consuming loop: it stops at the event that ends the stream. */
  method PersistTurn(t: Turn, strip: string -> string) returns (rows: seq<Message>)
    ensures rows == StoredTurn(t, strip)
  {
    rows := [User(t.user)];
    var parts := "";
    ghost var goal, goalText := rows + Rows(t.events), Said(t.events);
    assert t.events[0..] == t.events;
    var i := 0;
    while i < |t.events| && !Ends(t.events[i])
      invariant i <= |t.events|
      invariant goal == rows + Rows(t.events[i..]) && goalText == parts + Said(t.events[i..])
    {
      var e, rest := t.events[i], t.events[i + 1..];
      assert t.events[i..][0] == e && t.events[i..][1..] == rest;
      match e {
        case Delta(text) =>
          Assoc(parts, text, Said(rest));
          parts := parts + text;
        case Calling(calls) =>
          if calls != [] {
            Assoc(rows, [Assistant(None, calls)], Rows(rest));
            rows := rows + [Assistant(None, calls)];
          }
        case Result(id, output) =>
          Assoc(rows, [Tool(id, output)], Rows(rest));
          rows := rows + [Tool(id, output)];
        case _ =>
      }
      i := i + 1;
    }
    assert Rows(t.events[i..]) == [] && Said(t.events[i..]) == "";
    assert goal == rows && goalText == parts;
    var text := strip(parts);
    if !t.aborted && text != "" {
      rows := rows + [Assistant(Some(text), [])];
    }
  }

  function StoredHistory(turns: seq<Turn>, strip: string -> string): seq<Message> {
    if turns == [] then [] else StoredTurn(turns[0], strip) + StoredHistory(turns[1..], strip)
  }

  // ---------------------------------------------------------------------------
  // What the loop emits

  /** Call `k` was refused by the mode gate; its result is followed by an error event. */
  predicate BlockedAt(b: Batch, k: nat)
    requires k < |b.calls|
  {
    && !IsIntercepted(b.calls[k]) && !OverLimit(b.config, k)
    && (!b.world.riskOf(b.calls[k].name).ReadOnly? ==> b.world.reasonOf(b.calls[k]) != "")
    && CallVerdict(b.world, b.calls[k], ModeAt(b, k + 1)).Block?
  }

  /** What the results of a batch look like, call by call. */
  datatype Results = Results(ids: nat -> string, shown: nat -> string, blocked: nat -> bool)

  /** The events of the results from call `k` on; a blocked one is followed by an error event. */
  function ResultEvents(r: Results, k: nat, n: nat): seq<Event>
    requires k <= n
    decreases n - k
  {
    if k == n then []
    else
      var result := Result(r.ids(k), r.shown(k));
      (if r.blocked(k) then [result, Failed] else [result]) + ResultEvents(r, k + 1, n)
  }

  /** A batch with the texts its results show. */
  datatype Emission = Emission(b: Batch, shown: nat -> string)

  function ResultsOf(m: Emission): Results {
    Results(
      (k: nat) => if k < |m.b.calls| then AnswerId(m.b.calls[k], m.b.handling(k)) else "",
      m.shown,
      (k: nat) => k < |m.b.calls| && BlockedAt(m.b, k))
  }

  function BatchEvents(m: Emission): seq<Event> {
    [Calling(m.b.calls)] + ResultEvents(ResultsOf(m), 0, Handled(m.b.world, m.b.calls))
  }

  function RunEvents(run: seq<Emission>): seq<Event> {
    if run == [] then [] else BatchEvents(run[0]) + RunEvents(run[1..])
  }

  // ---------------------------------------------------------------------------
  // The rows of a run

  predicate Interrupted(r: Results, k: nat, n: nat)
    requires k <= n
    decreases n - k
  {
    k < n && (r.blocked(k) || Interrupted(r, k + 1, n))
  }

  /** The results that reach the table: all of them, or those up to the first blocked call. */
  function StoredResults(r: Results, k: nat, n: nat): seq<Message>
    requires k <= n
    decreases n - k
  {
    if k == n then []
    else
      var row := Tool(r.ids(k), r.shown(k));
      if r.blocked(k) then [row] else [row] + StoredResults(r, k + 1, n)
  }

  lemma {:induction false} ResultFirst(result: Event, later: seq<Event>, rest: seq<Event>)
    requires result.Result?
    ensures Rows([result, Failed] + later + rest) == [Tool(result.id, result.output)]
    ensures Rows([result] + later + rest) == [Tool(result.id, result.output)] + Rows(later + rest)
  {
    var failing, going := [result, Failed] + later + rest, [result] + later + rest;
    assert failing[0] == result && failing[1..][0] == Failed;
    assert going[0] == result && going[1..] == later + rest;
  }

  lemma {:induction false} ResultRows(r: Results, k: nat, n: nat, rest: seq<Event>)
    requires k <= n
    ensures Rows(ResultEvents(r, k, n) + rest) ==
            StoredResults(r, k, n) + if Interrupted(r, k, n) then [] else Rows(rest)
    decreases n - k
  {
    if k == n {
      assert ResultEvents(r, k, n) + rest == rest;
    } else {
      ResultRows(r, k + 1, n, rest);
      ResultFirst(Result(r.ids(k), r.shown(k)), ResultEvents(r, k + 1, n), rest);
      Assoc([Tool(r.ids(k), r.shown(k))], StoredResults(r, k + 1, n), Rows(rest));
    }
  }

  lemma {:induction false} StoredResultsShape(r: Results, k: nat, n: nat)
    requires k <= n
    ensures var rows := StoredResults(r, k, n);
            && |rows| <= n - k && (!Interrupted(r, k, n) ==> |rows| == n - k)
            && forall i: nat | i < |rows| :: rows[i].Tool? && rows[i].id == r.ids(k + i)
    decreases n - k
  {
    if k < n && !r.blocked(k) {
      StoredResultsShape(r, k + 1, n);
      var rest := StoredResults(r, k + 1, n);
      assert forall i: nat | i < |rest| :: rest[i].Tool? && rest[i].id == r.ids(k + 1 + i);
    }
  }

  /** The batch was cut short by an error event. */
  predicate Cut(m: Emission) {
    Interrupted(ResultsOf(m), 0, Handled(m.b.world, m.b.calls))
  }

  function BatchResults(m: Emission): seq<Message> {
    StoredResults(ResultsOf(m), 0, Handled(m.b.world, m.b.calls))
  }

  ghost predicate WellMade(m: Emission) {
    && m.b.calls != []
    && (forall k | 0 <= k < |m.b.calls| :: m.b.calls[k].id != "")
    && (forall k: nat :: m.b.handling(k).freshId != "")
  }

  lemma {:induction false} BatchRows(m: Emission, rest: seq<Event>)
    requires m.b.calls != []
    ensures Rows(BatchEvents(m) + rest) ==
            [Assistant(None, m.b.calls)] + (BatchResults(m) + if Cut(m) then [] else Rows(rest))
  {
    var results := ResultEvents(ResultsOf(m), 0, Handled(m.b.world, m.b.calls));
    assert BatchEvents(m) + rest == [Calling(m.b.calls)] + (results + rest);
    assert ([Calling(m.b.calls)] + (results + rest))[1..] == results + rest;
    ResultRows(ResultsOf(m), 0, Handled(m.b.world, m.b.calls), rest);
  }

  /** An uncut batch is stored covered exactly when it was answerable. */
  lemma {:induction false} UncutCoveredIff(m: Emission)
    requires WellMade(m) && !Cut(m)
    ensures CallIds(Assistant(None, m.b.calls)) <= AnsweredIds(BatchResults(m)) <==> Answerable(m.b.world, m.b.calls)
  {
    BatchResultsAnswer(m);
    AnswersCoverIff(m.b.world, m.b.calls, m.b.handling, BatchResults(m));
    assert CoverBatch(m.b.calls, BatchResults(m)) <==>
           CallIds(Assistant(None, m.b.calls)) <= AnsweredIds(BatchResults(m));
  }

  lemma {:induction false} BatchResultsAnswer(m: Emission)
    requires WellMade(m) && !Cut(m)
    ensures Answers(m.b.world, m.b.calls, m.b.handling, BatchResults(m))
  {
    StoredResultsShape(ResultsOf(m), 0, Handled(m.b.world, m.b.calls));
  }

  lemma {:induction false} ToolsNextCalls(tools: seq<Message>, rest: seq<Message>)
    requires AllTools(tools) && (rest == [] || StartsWithCalls(rest))
    ensures CallsNext(tools + rest) <==> rest != []
    ensures NextCallsCovered(tools + rest) <==> NextCallsCovered(rest)
    decreases |tools|
  {
    if tools == [] {
      assert tools + rest == rest;
    } else {
      ToolsNextCalls(tools[1..], rest);
      assert (tools + rest)[1..] == tools[1..] + rest;
    }
  }

  lemma {:induction false} BlockNextCalls(head: Message, tools: seq<Message>, rest: seq<Message>)
    requires IsCalls(head) && AllTools(tools) && (rest == [] || StartsWithCalls(rest))
    ensures NextCallsCovered([head] + (tools + rest)) <==>
            (rest != [] ==> CallIds(head) <= AnsweredIds(tools)) && NextCallsCovered(rest)
  {
    assert ([head] + (tools + rest))[1..] == tools + rest;
    ToolsNextCalls(tools, rest);
    AnsweredIdsConcat(tools, rest);
  }

  /**
   * Of the first `count` events of a run: every batch that another one follows was answerable. After a cut batch none
   * follows in the table.
   */
  ghost predicate Sound(run: seq<Emission>, count: nat)
    decreases |run|
  {
    run != [] && !Cut(run[0]) && |BatchEvents(run[0])| < count ==>
      Answerable(run[0].b.world, run[0].b.calls) && Sound(run[1..], count - |BatchEvents(run[0])|)
  }

  /** Answerable batches are sound wherever the stream was left. */
  lemma {:induction false} AnswerableIsSound(run: seq<Emission>, count: nat)
    requires forall i | 0 <= i < |run| :: Answerable(run[i].b.world, run[i].b.calls)
    ensures Sound(run, count)
    decreases |run|
  {
    if run != [] && |BatchEvents(run[0])| < count {
      AnswerableIsSound(run[1..], count - |BatchEvents(run[0])|);
    }
  }

  lemma {:induction false} RowsOfPrefix(events: seq<Event>, n: nat) returns (k: nat)
    requires n <= |events|
    ensures k <= |Rows(events)| && Rows(events[..n]) == Rows(events)[..k]
    decreases n
  {
    if n == 0 || Ends(events[0]) {
      k := 0;
    } else {
      var later := RowsOfPrefix(events[1..], n - 1);
      assert events[..n][1..] == events[1..][..n - 1];
      k := later + |Rows(events)| - |Rows(events[1..])|;
    }
  }

  /** A batch left in the middle is a tool-calls row with some of its results. */
  lemma {:induction false} PartialBatch(m: Emission, count: nat)
    requires m.b.calls != [] && 0 < count <= |BatchEvents(m)|
    ensures var rows := Rows(BatchEvents(m)[..count]); StartsWithCalls(rows) && NextCallsCovered(rows)
  {
    var n, head := Handled(m.b.world, m.b.calls), Assistant(None, m.b.calls);
    var part := ResultEvents(ResultsOf(m), 0, n)[..count - 1];
    assert BatchEvents(m)[..count] == [Calling(m.b.calls)] + part;
    assert ([Calling(m.b.calls)] + part)[1..] == part;
    PartialResults(ResultsOf(m), n, count - 1);
    BlockNextCalls(head, Rows(part), []);
    assert [head] + (Rows(part) + []) == [head] + Rows(part);
  }

  lemma {:induction false} PartialResults(r: Results, n: nat, count: nat)
    requires count <= |ResultEvents(r, 0, n)|
    ensures AllTools(Rows(ResultEvents(r, 0, n)[..count]))
  {
    var results := ResultEvents(r, 0, n);
    var k := RowsOfPrefix(results, count);
    assert results + [] == results;
    ResultRows(r, 0, n, []);
    StoredResultsShape(r, 0, n);
  }

  lemma {:induction false} RunPrefix(run: seq<Emission>, count: nat)
    requires run != [] && count <= |RunEvents(run)|
    ensures var first, events := BatchEvents(run[0]), RunEvents(run)[..count];
            if count <= |first| then events == first[..count]
            else count - |first| <= |RunEvents(run[1..])| && events == first + RunEvents(run[1..])[..count - |first|]
  {
    assert RunEvents(run) == BatchEvents(run[0]) + RunEvents(run[1..]);
  }

  /** Of the rows from the first `count` events, each tool-calls row that another one follows is covered iff sound. */
  lemma {:induction false} RunRowsIff(run: seq<Emission>, count: nat)
    requires count <= |RunEvents(run)| && forall i | 0 <= i < |run| :: WellMade(run[i])
    ensures NextCallsCovered(Rows(RunEvents(run)[..count])) <==> Sound(run, count)
    ensures if count == 0 then Rows(RunEvents(run)[..count]) == [] else StartsWithCalls(Rows(RunEvents(run)[..count]))
    decreases |run|
  {
    if count == 0 {
      assert RunEvents(run)[..count] == [];
    } else {
      var m, len := run[0], |BatchEvents(run[0])|;
      RunPrefix(run, count);
      if count <= len {
        PartialBatch(m, count);
      } else {
        RunRowsIff(run[1..], count - len);
        FollowedBatch(m, RunEvents(run[1..])[..count - len]);
      }
    }
  }

  lemma {:induction false} FollowedBatch(m: Emission, later: seq<Event>)
    requires WellMade(m) && StartsWithCalls(Rows(later))
    ensures var rows := Rows(BatchEvents(m) + later);
            && StartsWithCalls(rows)
            && (NextCallsCovered(rows) <==>
                  Cut(m) || (Answerable(m.b.world, m.b.calls) && NextCallsCovered(Rows(later))))
  {
    BatchRows(m, later);
    StoredResultsShape(ResultsOf(m), 0, Handled(m.b.world, m.b.calls));
    if Cut(m) {
      BlockNextCalls(Assistant(None, m.b.calls), BatchResults(m), []);
    } else {
      BlockNextCalls(Assistant(None, m.b.calls), BatchResults(m), Rows(later));
      UncutCoveredIff(m);
    }
  }

  /** Whatever is stored, every tool row answers a call of the batch it follows. */
  lemma {:induction false} RunRowsOwned(run: seq<Emission>)
    requires forall i | 0 <= i < |run| :: WellMade(run[i])
    ensures Owned({}, Rows(RunEvents(run))) && NoBlankIds(Rows(RunEvents(run)))
    decreases |run|
  {
    if run != [] {
      var later := RunEvents(run[1..]);
      RunRowsOwned(run[1..]);
      RunRowsIff(run[1..], |later|);
      assert later[..|later|] == later;
      BatchRows(run[0], later);
      BatchOwned(run[0], if Cut(run[0]) then [] else Rows(later));
    }
  }

  lemma {:induction false} BatchOwned(m: Emission, later: seq<Message>)
    requires WellMade(m) && (later == [] || StartsWithCalls(later)) && Owned({}, later) && NoBlankIds(later)
    ensures var rows := [Assistant(None, m.b.calls)] + (BatchResults(m) + later);
            Owned({}, rows) && NoBlankIds(rows)
  {
    var head := Assistant(None, m.b.calls);
    ResultsOwned(m);
    OwnedConcat(CallIds(head), BatchResults(m), later);
    assert ([head] + (BatchResults(m) + later))[1..] == BatchResults(m) + later;
  }

  lemma {:induction false} ResultsOwned(m: Emission)
    requires WellMade(m)
    ensures AllTools(BatchResults(m)) && Owned(CallIds(Assistant(None, m.b.calls)), BatchResults(m))
  {
    var head, rows := Assistant(None, m.b.calls), BatchResults(m);
    StoredResultsShape(ResultsOf(m), 0, Handled(m.b.world, m.b.calls));
    ToolIds(rows);
    forall id | id in AnsweredIds(rows)
      ensures id in CallIds(head)
    {
      var k: nat :| k < |rows| && rows[k].id == id;
      assert m.b.calls[k] in head.calls && m.b.calls[k].id == id;
    }
    OwnedRun(CallIds(head), rows);
  }

  // ---------------------------------------------------------------------------
  // Turns that end anywhere

  /** The events that can store a message or end the stream. */
  function Telling(events: seq<Event>): seq<Event> {
    if events == [] then []
    else if events[0].Delta? || events[0].Other? then Telling(events[1..])
    else [events[0]] + Telling(events[1..])
  }

  lemma {:induction false} RowsOfTelling(events: seq<Event>)
    ensures Rows(Telling(events)) == Rows(events)
  {
    if events != [] {
      RowsOfTelling(events[1..]);
      assert !events[0].Delta? && !events[0].Other? ==> Telling(events)[1..] == Telling(events[1..]);
    }
  }

  /** The turn shows the run, as a whole or cut off at any point, with an end or without. */
  ghost predicate Shows(t: Turn, run: seq<Emission>, count: nat, end: seq<Event>) {
    && count <= |RunEvents(run)| && (end == [] || Ends(end[0]))
    && Telling(t.events) == RunEvents(run)[..count] + end
  }

  lemma {:induction false} RowsUntilEnd(events: seq<Event>, end: seq<Event>)
    requires end == [] || Ends(end[0])
    ensures Rows(events + end) == Rows(events)
  {
    if events == [] {
      assert events + end == end;
    } else {
      RowsUntilEnd(events[1..], end);
      assert (events + end)[1..] == events[1..] + end;
    }
  }

  lemma {:induction false} OwnedPrefix(ids: set<string>, ms: seq<Message>, n: nat)
    requires n <= |ms| && Owned(ids, ms)
    ensures Owned(ids, ms[..n])
    decreases n
  {
    if n > 0 {
      OwnedPrefix(if ms[0].Tool? then ids else Asks(ms[0]), ms[1..], n - 1);
      assert ms[..n][1..] == ms[1..][..n - 1];
    }
  }

  // ---------------------------------------------------------------------------
  // Whole sessions

  /** A turn with the run behind it, how many of the run's events were consumed and how the stream ended. */
  datatype Recorded = Recorded(turn: Turn, run: seq<Emission>, count: nat, end: seq<Event>)

  ghost predicate Genuine(r: Recorded) {
    Shows(r.turn, r.run, r.count, r.end) && forall i | 0 <= i < |r.run| :: WellMade(r.run[i])
  }

  lemma {:induction false} EventRows(r: Recorded)
    requires Genuine(r)
    ensures var rows := Rows(r.turn.events);
            && Owned({}, rows) && NoBlankIds(rows)
            && (NextCallsCovered(rows) <==> Sound(r.run, r.count))
  {
    var all := Rows(RunEvents(r.run));
    RowsOfTelling(r.turn.events);
    RowsUntilEnd(RunEvents(r.run)[..r.count], r.end);
    RunRowsIff(r.run, r.count);
    var k := RowsOfPrefix(RunEvents(r.run), r.count);
    RunRowsOwned(r.run);
    OwnedPrefix({}, all, k);
    assert forall m | m in all[..k] :: m in all;
  }

  lemma {:induction false} TurnRows(r: Recorded, strip: string -> string)
    requires Genuine(r)
    ensures var rows := StoredTurn(r.turn, strip);
            && Owned({}, rows) && NoBlankIds(rows) && rows != [] && rows[0].User?
            && (NextCallsCovered(rows) <==> NextCallsCovered(Rows(r.turn.events)))
  {
    var first, rows := [User(r.turn.user)], Rows(r.turn.events);
    var last := FinalText(strip(Said(r.turn.events)), r.turn.aborted);
    EventRows(r);
    assert first + rows + last == first + (rows + last);
    assert (first + (rows + last))[1..] == rows + last;
    OwnedConcat({}, rows, last);
    NextCallsConcat(rows, last);
  }

  function TurnsOf(recorded: seq<Recorded>): seq<Turn> {
    if recorded == [] then [] else [recorded[0].turn] + TurnsOf(recorded[1..])
  }

  /** In every turn the consumed part of the run is sound. */
  ghost predicate AllSound(recorded: seq<Recorded>) {
    forall i | 0 <= i < |recorded| :: Sound(recorded[i].run, recorded[i].count)
  }

  lemma {:induction false} SoundCons(recorded: seq<Recorded>)
    requires recorded != []
    ensures AllSound(recorded) <==> Sound(recorded[0].run, recorded[0].count) && AllSound(recorded[1..])
  {
    assert recorded == [recorded[0]] + recorded[1..];
  }

  lemma {:induction false} HistoryRows(recorded: seq<Recorded>, strip: string -> string)
    requires forall i | 0 <= i < |recorded| :: Genuine(recorded[i])
    ensures var history := StoredHistory(TurnsOf(recorded), strip);
            && Owned({}, history) && NoBlankIds(history) && (history != [] ==> history[0].User?)
            && (NextCallsCovered(history) <==> AllSound(recorded))
    decreases |recorded|
  {
    if recorded != [] {
      var r, rest := recorded[0], recorded[1..];
      assert TurnsOf(recorded)[1..] == TurnsOf(rest);
      var rows, later := StoredTurn(r.turn, strip), StoredHistory(TurnsOf(rest), strip);
      HistoryRows(rest, strip);
      EventRows(r);
      TurnRows(r, strip);
      OwnedConcat({}, rows, later);
      NextCallsConcat(rows, later);
      SoundCons(recorded);
    }
  }

  /**
   * The table of any number of turns, each left wherever the stream ended: repair restores the pairing rule exactly
   * when every batch that another one follows in the consumed part of its turn was answerable. Blocked calls, which end
   * a turn early, do no harm.
   */
  lemma {:induction false} StoredHistoryIff(recorded: seq<Recorded>, strip: string -> string)
    requires forall i | 0 <= i < |recorded| :: Genuine(recorded[i])
    ensures Covered(Repaired(StoredHistory(TurnsOf(recorded), strip))) <==> AllSound(recorded)
  {
    var history := StoredHistory(TurnsOf(recorded), strip);
    HistoryRows(recorded, strip);
    KeptCoveredIff(history);
    RepairCoversIff(history);
  }

  /** The list a run starts from: system texts, the table, and the user's message. */
  function Built(systems: seq<Message>, history: seq<Message>, user: string): seq<Message> {
    systems + (history + [User(user)])
  }

  lemma {:induction false} SystemsFirst(systems: seq<Message>, rest: seq<Message>)
    requires OnlySystems(systems)
    ensures NextCallsCovered(systems + rest) <==> NextCallsCovered(rest)
  {
    if systems == [] {
      assert systems + rest == rest;
    } else {
      SystemsFirst(systems[1..], rest);
      assert (systems + rest)[1..] == systems[1..] + rest;
    }
  }

  lemma {:induction false} BuiltFrom(systems: seq<Message>, history: seq<Message>, user: string)
    requires OnlySystems(systems) && Owned({}, history) && NoBlankIds(history)
    ensures Owned({}, Built(systems, history, user))
    ensures KeptCovered(Built(systems, history, user)) <==> NextCallsCovered(history)
  {
    var rest := history + [User(user)];
    NextCallsConcat(history, [User(user)]);
    SystemsFirst(systems, rest);
    OwnedConcat({}, history, [User(user)]);
    NoToolsOwned({}, systems);
    OwnedConcat({}, systems, rest);
    KeptCoveredIff(systems + rest);
  }

  /**
   * What the loop asks of the list it starts from: every tool message of the table has its call, and the kept
   * tool-calls messages are covered exactly when every turn was sound.
   */
  lemma {:induction false} NextRunStarts(systems: seq<Message>, recorded: seq<Recorded>, user: string,
                                         strip: string -> string)
    requires OnlySystems(systems) && forall i | 0 <= i < |recorded| :: Genuine(recorded[i])
    ensures var built := Built(systems, StoredHistory(TurnsOf(recorded), strip), user);
            Owned({}, built) && (KeptCovered(built) <==> AllSound(recorded))
  {
    HistoryRows(recorded, strip);
    BuiltFrom(systems, StoredHistory(TurnsOf(recorded), strip), user);
  }

  /** A plan submitted before another call, then a second batch: the orphan stays in the table and survives repair. */
  lemma {:induction false} EarlyPlanStored(m: Emission, next: Emission)
    requires WellMade(m) && WellMade(next) && !Cut(m)
    requires m.b.calls == [Call("p", "submitPlan", "{}"), Call("q", "ls", "{}")] && m.b.world.validPlan(m.b.calls[0])
    ensures !Covered(Repaired(Rows(RunEvents([m, next]))))
  {
    var run := [m, next];
    var events := RunEvents(run);
    assert events == BatchEvents(m) + RunEvents(run[1..]) && RunEvents(run[1..]) == BatchEvents(next) + RunEvents([]);
    assert events[..|events|] == events;
    RunRowsIff(run, |events|);
    RunRowsOwned(run);
    assert Handled(m.b.world, m.b.calls) == 1;
    assert m.b.calls[1].id == "q" && m.b.calls[0].id == "p";
    assert !Answerable(m.b.world, m.b.calls);
    assert !Sound(run, |events|);
    KeptCoveredIff(Rows(RunEvents(run)));
    RepairCoversIff(Rows(RunEvents(run)));
  }

  // ---------------------------------------------------------------------------
  // Event by event

  /** A call is blocked exactly if it would change something in a mode that forbids it. */
  lemma {:induction false} BlockedAtExactly(b: Batch, k: nat)
    requires k < |b.calls|
    ensures var call, mode, max := b.calls[k], ModeAt(b, k + 1), b.config.maxToolCallsPerRound;
            BlockedAt(b, k) <==>
              && call.name != "ask_choice" && call.name != "submitPlan" && (max <= 0 || k < max)
              && !b.world.riskOf(call.name).ReadOnly? && b.world.reasonOf(call) != ""
              && (mode.ReadOnlyMode? || mode.PlanMode?)
  {
    VerdictTable(b.world.policy, b.world.riskOf(b.calls[k].name), b.world.valuesOf(b.calls[k]), ModeAt(b, k + 1));
  }

  lemma {:induction false} RowsConcat(a: seq<Event>, b: seq<Event>)
    requires forall i | 0 <= i < |a| :: !a[i].Failed? && !a[i].Finished?
    ensures Rows(a + b) == Rows(a) + Rows(b) && Said(a + b) == Said(a) + Said(b)
    decreases |a|
  {
    if a == [] {
      assert a + b == b;
    } else {
      var e, later := a[0], a[1..];
      RowsConcat(later, b);
      RowsStep(e, later);
      RowsStep(e, later + b);
      assert [e] + later == a && [e] + (later + b) == a + b;
      Assoc(RowOf(e), Rows(later), Rows(b));
      Assoc(TextOf(e), Said(later), Said(b));
    }
  }

  function RowOf(e: Event): seq<Message> {
    match e
    case Calling(calls) => if calls == [] then [] else [Assistant(None, calls)]
    case Result(id, output) => [Tool(id, output)]
    case _ => []
  }

  function TextOf(e: Event): string {
    if e.Delta? then e.text else ""
  }

  lemma {:induction false} RowsStep(e: Event, later: seq<Event>)
    requires !Ends(e)
    ensures Rows([e] + later) == RowOf(e) + Rows(later) && Said([e] + later) == TextOf(e) + Said(later)
  {
    assert ([e] + later)[0] == e && ([e] + later)[1..] == later;
  }

  /** What each event stores and adds to the final text; after an error or the end nothing more is taken. */
  lemma {:induction false} EventByEvent(calls: seq<Call>, id: string, text: string, rest: seq<Event>)
    ensures Rows([Calling(calls)]) == (if calls == [] then [] else [Assistant(None, calls)])
    ensures Said([Calling(calls)]) == ""
    ensures Rows([Result(id, text)]) == [Tool(id, text)] && Said([Result(id, text)]) == ""
    ensures Rows([Delta(text)]) == [] && Said([Delta(text)]) == text
    ensures Rows([Failed] + rest) == Rows([Finished] + rest) == []
    ensures Said([Failed] + rest) == Said([Finished] + rest) == ""
  {
    assert [Calling(calls)][1..] == [] && [Result(id, text)][1..] == [] && [Delta(text)][1..] == [];
    assert ([Failed] + rest)[0] == Failed && ([Finished] + rest)[0] == Finished;
    assert text + "" == text;
  }

  /** A turn begins with the user's message, and ends with what was said unless it was aborted or nothing was. */
  lemma {:induction false} TurnFrame(t: Turn, strip: string -> string)
    ensures var rows, text := StoredTurn(t, strip), strip(Said(t.events));
            && rows[0] == User(t.user)
            && (!t.aborted && text != "" ==>
                  rows[|rows| - 1] == Assistant(Some(text), []) && rows[1..|rows| - 1] == Rows(t.events))
            && (t.aborted || text == "" ==> rows[1..] == Rows(t.events))
  {
    var first, rows := [User(t.user)], Rows(t.events);
    var last := FinalText(strip(Said(t.events)), t.aborted);
    assert first + rows + last == first + (rows + last);
  }
}
