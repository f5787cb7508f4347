/** The loop as the program runs it, in local variables and result slots, computing `AgentLoop.RunFrom`. */
module AgentLoopRun {
  import opened Prelude
  import opened Conversation
  import opened AgentLoop

  /** Assistant messages since the last user message, counted as the source does. */
  method CountConsumed(messages: seq<Message>) returns (n: nat)
    ensures n == TurnsConsumed(messages)
  {
    var start := |messages|;
    while start > 0 && !messages[start - 1].User?
      invariant 0 <= start <= |messages|
      invariant forall k :: start <= k < |messages| ==> !messages[k].User?
    {
      start := start - 1;
    }
    assert TurnsConsumed(messages[..start]) == 0;
    n := 0;
    for i := start to |messages|
      invariant n == TurnsConsumed(messages[..i])
      invariant forall k :: start <= k < |messages| ==> !messages[k].User?
    {
      ConsumedSnoc(messages[..i], messages[i]);
      assert messages[..i + 1] == messages[..i] + [messages[i]];
      if messages[i].Assistant? {
        n := n + 1;
      }
    }
    assert messages[..|messages|] == messages;
  }

  method Partition(calls: seq<ToolCall>) returns (parallel: seq<nat>, sequential: seq<nat>)
    ensures parallel == Indices(SafeFlags(calls), true)
    ensures sequential == Indices(SafeFlags(calls), false)
  {
    parallel, sequential := [], [];
    var flags := SafeFlags(calls);
    for i := 0 to |calls|
      invariant parallel == Indices(flags[..i], true) && sequential == Indices(flags[..i], false)
    {
      assert flags[..i + 1][..i] == flags[..i];
      if flags[i] {
        parallel := parallel + [i];
      } else {
        sequential := sequential + [i];
      }
    }
    assert flags[..|calls|] == flags;
  }

  /** One turn's tool executions over an array of result slots. */
  method ExecuteTools(w: World, turn: nat, calls: seq<ToolCall>, s: LoopState) returns (x: Exec)
    ensures x == ExecTurn(w, turn, calls, s)
  {
    var slots := new Option<ToolOutput>[|calls|](_ => None);
    var pending, filesRead, terminal, trace := s.pending, s.filesRead, None, s.trace;
    ghost var x0 := Exec(EmptySlots(|calls|), s.pending, s.filesRead, None, s.trace);
    assert slots[..] == x0.slots;
    var parallel, sequential := Partition(calls);
    ghost var x1 := DispatchAll(w, turn, calls, Concurrent(calls), x0);
    DispatchAllSlots(w, turn, calls, Concurrent(calls), x0);
    if |parallel| > 1 {
      trace := RunConcurrently(w, turn, calls, parallel, slots, trace, x0);
    }
    assert Exec(slots[..], pending, filesRead, terminal, trace) == x1 by {
      ConcurrentKeepsRest(w, turn, calls, Concurrent(calls), x0);
    }
    var remaining := if |parallel| > 1 then [] else parallel;
    assert sequential + remaining == OneByOne(calls);
    x := RunSequentially(w, turn, calls, sequential + remaining, slots,
                         Exec(slots[..], pending, filesRead, terminal, trace));
  }

  lemma {:induction false} ConcurrentKeepsRest(w: World, turn: nat, calls: seq<ToolCall>, order: seq<nat>, x: Exec)
    requires Within(order, |calls|)
    ensures var y := DispatchAll(w, turn, calls, order, x);
            y.pending == x.pending && y.filesRead == x.filesRead && y.terminal == x.terminal
  {
    if order != [] {
      ConcurrentKeepsRest(w, turn, calls, order[..|order| - 1], x);
    }
  }

  /** The concurrent phase; its executions are recorded in index order. */
  method RunConcurrently(w: World, turn: nat, calls: seq<ToolCall>, order: seq<nat>,
                         slots: array<Option<ToolOutput>>, before: seq<Act>, ghost x: Exec) returns (trace: seq<Act>)
    requires Within(order, |calls|) && slots.Length == |calls| && slots[..] == x.slots && before == x.trace
    modifies slots
    ensures slots[..] == DispatchAll(w, turn, calls, order, x).slots
    ensures trace == DispatchAll(w, turn, calls, order, x).trace
  {
    trace := before;
    for k := 0 to |order|
      invariant slots[..] == DispatchAll(w, turn, calls, order[..k], x).slots
      invariant trace == DispatchAll(w, turn, calls, order[..k], x).trace
    {
      var i := order[k];
      assert order[..k + 1][..k] == order[..k];
      var out := w.tool(turn, i);
      slots[i] := Some(out);
      trace := trace + [Dispatched(calls[i], !w.isError(out.text))];
    }
    assert order[..|order|] == order;
  }

  /** The phase that runs call by call, through the hook and the edit guards. */
  method RunSequentially(w: World, turn: nat, calls: seq<ToolCall>, order: seq<nat>,
                         slots: array<Option<ToolOutput>>, x0: Exec) returns (x: Exec)
    requires Within(order, |calls|) && slots.Length == |calls| && slots[..] == x0.slots
    modifies slots
    ensures x == ExecAll(w, turn, calls, order, x0)
  {
    var pending, filesRead, terminal, trace := x0.pending, x0.filesRead, x0.terminal, x0.trace;
    for k := 0 to |order|
      invariant Exec(slots[..], pending, filesRead, terminal, trace) == ExecAll(w, turn, calls, order[..k], x0)
    {
      var i := order[k];
      assert order[..k + 1][..k] == order[..k];
      var out: ToolOutput;
      out, pending, filesRead, terminal, trace :=
        RunOne(w, turn, calls[i], i, Exec(slots[..], pending, filesRead, terminal, trace));
      slots[i] := Some(out);
    }
    assert order[..|order|] == order;
    x := Exec(slots[..], pending, filesRead, terminal, trace);
  }

  /** One call of the sequential phase: its result, and the tables after it. */
  method RunOne(w: World, turn: nat, call: ToolCall, i: nat, x: Exec)
    returns (out: ToolOutput, pending: map<string, string>, filesRead: set<string>,
             terminal: Option<string>, trace: seq<Act>)
    requires i < |x.slots|
    ensures ExecCall(w, turn, call, i, x) == Exec(x.slots[i := Some(out)], pending, filesRead, terminal, trace)
  {
    pending, filesRead, terminal, trace := x.pending, x.filesRead, x.terminal, x.trace;
    if terminal.Some? {
      out := ToolOutput(ALREADY_FINAL, []);
      return;
    }
    match w.hook(turn, i)
    case Skip(reply) =>
      out := ToolOutput(reply, []);
    case Finish(reply, output) =>
      terminal := Some(output);
      out := ToolOutput(reply, []);
    case Continue =>
      var path := w.argPath(call.args);
      if IsEdit(call.name) && path.Some? {
        if path.value !in filesRead {
          out := ToolOutput(w.refuse(NotRead(path.value)), []);
          return;
        }
        if path.value in pending {
          out := ToolOutput(w.refuse(NotVerified(path.value, pending[path.value])), []);
          return;
        }
        out := w.tool(turn, i);
        trace := trace + [Dispatched(call, !w.isError(out.text))];
        if !w.isError(out.text) {
          pending := pending[path.value := call.callId];
        }
        return;
      }
      out := w.tool(turn, i);
      trace := trace + [Dispatched(call, !w.isError(out.text))];
      if IsRead(call.name) && !w.isError(out.text) && path.Some? {
        pending := pending - {path.value};
        filesRead := filesRead + {path.value};
      }
  }

  /** Pushes the results in call order. */
  method PushResults(w: World, calls: seq<ToolCall>, slots: seq<Option<ToolOutput>>, messages: seq<Message>)
    returns (out: seq<Message>)
    requires |slots| == |calls|
    ensures out == messages + ToolMessages(w, calls, slots)
  {
    out := messages;
    for i := 0 to |calls|
      invariant out == messages + ToolMessages(w, calls, slots)[..i]
    {
      out := out + [ToolMessage(w, calls[i], slots[i])];
      assert ToolMessages(w, calls, slots)[..i + 1]
          == ToolMessages(w, calls, slots)[..i] + [ToolMessage(w, calls[i], slots[i])];
    }
  }

  method CountExploration(w: World, calls: seq<ToolCall>, streak0: nat, seen0: set<nat>)
    returns (streak: nat, seen: set<nat>)
    ensures (streak, seen) ==
              if calls != [] && AllExploration(calls) then Explored(w, calls, streak0, seen0) else (streak0 / 2, seen0)
  {
    streak, seen := streak0, seen0;
    if calls != [] && forall c :: c in calls ==> IsExploration(c.name) {
      streak := streak + 1;
      for k := 0 to |calls|
        invariant (streak, seen) == Explored(w, calls[..k], streak0, seen0)
      {
        assert calls[..k + 1][..k] == calls[..k];
        var h := w.callHash(calls[k].name, calls[k].args);
        if h in seen {
          streak := streak + 1;
        }
        seen := seen + {h};
      }
      assert calls[..|calls|] == calls;
    } else {
      streak := streak / 2;
    }
  }

  /** The part of a turn after the model has asked for tools. */
  method FinishTurn(w: World, c: Config, turn: nat, reply: Reply, s: LoopState) returns (end: TurnEnd)
    ensures end == AfterTools(w, c, turn, reply, s)
    ensures (end.Final? || end.Going?) && end.state.usage == s.usage
  {
    var messages := s.messages + [Assistant(reply.text, reply.calls)];
    SlotsKept(w, turn, reply.calls, s.(messages := messages));
    var x := ExecuteTools(w, turn, reply.calls, s.(messages := messages));
    messages := PushResults(w, reply.calls, x.slots, messages);
    var after := s.(messages := messages, pending := x.pending, filesRead := x.filesRead, trace := x.trace);
    if x.terminal.Some? {
      return Final(x.terminal.value, after);
    }
    if reply.usage.input > c.contextCritical {
      messages := messages + [User(w.render(ContextCritical(reply.usage.input)), [])];
    } else if reply.usage.input > c.contextWarn {
      messages := messages + [User(w.render(ContextHigh(reply.usage.input)), [])];
    }
    var streak, seen := CountExploration(w, reply.calls, s.streak, s.seenCalls);
    if streak >= EXPLORATION_HARD_LIMIT {
      messages := messages + [User(w.render(Stop), [])];
    } else if streak >= EXPLORATION_SOFT_LIMIT {
      messages := messages + [User(w.render(Nudge(streak)), [])];
    }
    end := Going(after.(messages := messages, streak := streak, seenCalls := seen));
  }

  /** One iteration of the turn loop. */
  method OneTurn(w: World, c: Config, turn: nat, s: LoopState) returns (end: TurnEnd)
    ensures end == Turns(w, c)(turn, s)
  {
    var messages := s.messages;
    if w.hints(turn) != [] {
      messages := messages + [User(w.render(Steering(w.hints(turn))), [])];
    }
    var current := turn + 1;
    if c.maxTurns >= 10 && (current == c.maxTurns / 2 || current == c.maxTurns * 4 / 5) {
      messages := messages + [User(w.render(Budget(current, c.maxTurns)), [])];
    }
    assert TurnHead(w, c, turn, s) == s.(messages := messages);
    var trace := s.trace + [Asked(turn)];
    var answer := w.reply(turn, messages);
    if answer.Err? {
      return Broke(answer.error, s.(messages := messages, trace := trace));
    }
    var reply := answer.value;
    var usage := AddUsage(s.usage, reply.usage);
    trace := trace + [Answered(turn)];
    var answered := s.(messages := messages, usage := usage, trace := trace);
    if reply.calls != [] {
      end := FinishTurn(w, c, turn, reply, answered);
    } else if s.pending == map[] {
      end := Plain(reply.text, answered);
    } else {
      messages := messages + [Assistant(reply.text, [])];
      messages := messages + [User(w.render(VerifyEdits(s.pending.Keys)), [])];
      end := Going(answered.(messages := messages));
    }
  }

  /** The turn loop from a given turn and state. */
  method RunTurns(w: World, c: Config, first: nat, start: LoopState) returns (o: Outcome)
    ensures o == RunWith(Turns(w, c), c.maxTurns, first, start)
  {
    var turn, s := first, start;
    while turn < c.maxTurns
      invariant RunWith(Turns(w, c), c.maxTurns, first, start) == RunWith(Turns(w, c), c.maxTurns, turn, s)
    {
      var end := OneTurn(w, c, turn, s);
      match end
      case Plain(text, t) => return Answer(text, true, t, turn);
      case Final(text, t) => return Answer(text, false, t, turn);
      case Broke(error, t) => return Interrupted(Provider(error), t, turn);
      case Going(t) => s := t;
      turn := turn + 1;
    }
    o := Interrupted(MaxTurns(c.maxTurns), s, turn);
  }

  /** `run_from_checkpoint`: turns already consumed by the history count against the limit. */
  method RunFromCheckpoint(w: World, c: Config, history: seq<Message>) returns (o: Outcome)
    ensures o == RunFrom(w, c, TurnsConsumed(history), Start(history))
  {
    var consumed := CountConsumed(history);
    o := RunTurns(w, c, consumed, Start(history));
  }
}
