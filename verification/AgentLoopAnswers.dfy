/**
 What the tool messages of a turn say: which result each call is answered with,
 how hooks and earlier calls decide it, and what else a turn leaves.
 */
module AgentLoopAnswers {
  import opened Prelude
  import opened Conversation
  import opened AgentLoop
  import opened AgentLoopProofs

  /** The tools that may run together: agents, requests, workspace status and skills. */
  lemma {:induction false} SafeNames(name: string)
    ensures IsParallelSafe(name) <==>
              name in ["agent_run", "agent_query", "http_request", "workspace_activity", "workspace_diff",
                       "workspace_conflicts", "agent_list", "list_skills", "read_skill"]
  {
  }

  // ── Which call runs when ─────────────────────────────────────────────────────

  /** The call runs in the concurrent phase: it is safe and not the only safe one. */
  predicate RunsTogether(calls: seq<ToolCall>, i: nat)
    requires i < |calls|
  {
    IsParallelSafe(calls[i].name) && exists j :: 0 <= j < |calls| && j != i && IsParallelSafe(calls[j].name)
  }

  /** Of the calls run one by one, `j` runs before `i`: the unsafe ones in order, then a lone safe one. */
  predicate RunsBefore(calls: seq<ToolCall>, j: nat, i: nat)
    requires i < |calls|
  {
    j < |calls| && j != i && !IsParallelSafe(calls[j].name) && (IsParallelSafe(calls[i].name) || j < i)
  }

  /** The hook of a call run before has finished the run. */
  predicate FinishedBefore(w: World, turn: nat, calls: seq<ToolCall>, i: nat)
    requires i < |calls|
  {
    exists j :: 0 <= j < |calls| && RunsBefore(calls, j, i) && w.hook(turn, j).Finish?
  }

  /** Call `i` is the first whose hook finishes the run, and with this output. */
  predicate FinishesWith(w: World, turn: nat, calls: seq<ToolCall>, i: nat, output: string)
    requires i < |calls|
  {
    && !RunsTogether(calls, i) && !FinishedBefore(w, turn, calls, i)
    && w.hook(turn, i).Finish? && w.hook(turn, i).output == output
  }

  /** What call `i` is answered with; `before` is what the run has done when its turn comes. */
  function AnswerTo(w: World, turn: nat, calls: seq<ToolCall>, i: nat, before: seq<Act>): ToolOutput
    requires i < |calls|
  {
    var path := w.argPath(calls[i].args);
    if RunsTogether(calls, i) then w.tool(turn, i)
    else if FinishedBefore(w, turn, calls, i) then
      ToolOutput("{\"skipped\":true,\"reason\":\"run already finalized via answer\"}", [])
    else
      match w.hook(turn, i)
      case Skip(reply) => ToolOutput(reply, [])
      case Finish(reply, _) => ToolOutput(reply, [])
      case Continue =>
        if calls[i].name != "code_edit" || path.None? then w.tool(turn, i)
        else
          match LastTouch(w, before, path.value)
          case Untouched => ToolOutput(w.refuse(NotRead(path.value)), [])
          case WasEdited => ToolOutput(w.refuse(NotVerified(path.value, EditorOf(w, before, path.value))), [])
          case WasRead => w.tool(turn, i)
  }

  /** Call `i` is really executed, rather than answered by a hook, a refusal or a finished run. */
  predicate IsExecuted(w: World, turn: nat, calls: seq<ToolCall>, i: nat, before: seq<Act>)
    requires i < |calls|
  {
    var path := w.argPath(calls[i].args);
    || RunsTogether(calls, i)
    || (&& !FinishedBefore(w, turn, calls, i) && w.hook(turn, i).Continue?
        && (calls[i].name != "code_edit" || path.None? || LastTouch(w, before, path.value) == WasRead))
  }

  function Executed(w: World, turn: nat, calls: seq<ToolCall>, i: nat): Act
    requires i < |calls|
  {
    Dispatched(calls[i], !w.isError(w.tool(turn, i).text))
  }

  /** What is executed together, in order. */
  function TogetherActs(w: World, turn: nat, calls: seq<ToolCall>, order: seq<nat>): seq<Act>
    requires Within(order, |calls|)
  {
    seq(|order|, k requires 0 <= k < |order| => Executed(w, turn, calls, order[k]))
  }

  function ActsNext(w: World, turn: nat, calls: seq<ToolCall>, i: nat, before: seq<Act>): seq<Act>
    requires i < |calls|
  {
    if IsExecuted(w, turn, calls, i, before) then before + [Executed(w, turn, calls, i)] else before
  }

  /** What a run that has done `start` has done once the first `k` of the calls run one by one are through. */
  function ActsUpTo(w: World, turn: nat, calls: seq<ToolCall>, k: nat, start: seq<Act>): seq<Act>
    requires k <= |OneByOne(calls)|
  {
    if k == 0 then start + TogetherActs(w, turn, calls, Concurrent(calls))
    else
      var before, i := ActsUpTo(w, turn, calls, k - 1, start), OneByOne(calls)[k - 1];
      ActsNext(w, turn, calls, i, before)
  }

  /** What it has done when the turn of call `i` comes. */
  function ActsBefore(w: World, turn: nat, calls: seq<ToolCall>, i: nat, start: seq<Act>): seq<Act> {
    ActsUpTo(w, turn, calls, Find(OneByOne(calls), i), start)
  }

  // ── The order of the calls ───────────────────────────────────────────────────

  predicate Ascending(order: seq<nat>) {
    forall a, b :: 0 <= a < b < |order| ==> order[a] < order[b]
  }

  lemma {:induction false} IndicesAscend(flags: seq<bool>, want: bool)
    ensures Ascending(Indices(flags, want))
  {
    if flags != [] {
      var n := |flags| - 1;
      IndicesAscend(flags[..n], want);
      IndicesBelow(flags[..n], want);
    }
  }

  predicate Distinct(order: seq<nat>) {
    forall a, b :: 0 <= a < b < |order| ==> order[a] != order[b]
  }

  /** What runs one by one: every call that does not run together with others. */
  lemma {:induction false} OneByOneMeans(calls: seq<ToolCall>)
    ensures Distinct(OneByOne(calls))
    ensures forall i: nat :: i in OneByOne(calls) <==> i < |calls| && !RunsTogether(calls, i)
    ensures forall i: nat :: i in Concurrent(calls) <==> i < |calls| && RunsTogether(calls, i)
  {
    var flags := SafeFlags(calls);
    var safe, unsafe := Indices(flags, true), Indices(flags, false);
    IndicesBelow(flags, true);
    IndicesBelow(flags, false);
    IndicesAscend(flags, true);
    IndicesAscend(flags, false);
    TogetherMeans(calls, safe);
    forall a, b | 0 <= a < |unsafe| && 0 <= b < |safe| ensures unsafe[a] != safe[b] {
      assert unsafe[a] in unsafe && safe[b] in safe;
    }
  }

  lemma {:induction false} TogetherMeans(calls: seq<ToolCall>, safe: seq<nat>)
    requires Ascending(safe) && forall i: nat :: i in safe <==> i < |calls| && IsParallelSafe(calls[i].name)
    ensures forall i: nat :: i < |calls| ==> (RunsTogether(calls, i) <==> i in safe && |safe| > 1)
  {
    forall i: nat | i < |calls| ensures RunsTogether(calls, i) <==> i in safe && |safe| > 1 {
      if RunsTogether(calls, i) {
        var j :| 0 <= j < |calls| && j != i && IsParallelSafe(calls[j].name);
        assert i in safe && j in safe;
        var a :| 0 <= a < |safe| && safe[a] == i;
        var b :| 0 <= b < |safe| && safe[b] == j;
      }
      if i in safe && |safe| > 1 {
        var j := if safe[0] == i then safe[1] else safe[0];
        assert j in safe && safe[0] < safe[1];
        assert IsParallelSafe(calls[j].name);
      }
    }
  }

  /** The calls before position `k` of the order are exactly those that run before the one at `k`. */
  lemma {:induction false} OrderMeans(calls: seq<ToolCall>, k: nat)
    requires k < |OneByOne(calls)|
    ensures forall j: nat :: j in OneByOne(calls)[..k] <==> RunsBefore(calls, j, OneByOne(calls)[k])
  {
    var flags := SafeFlags(calls);
    var safe, unsafe, order := Indices(flags, true), Indices(flags, false), OneByOne(calls);
    var i := order[k];
    IndicesBelow(flags, true);
    IndicesBelow(flags, false);
    IndicesAscend(flags, false);
    assert i in order;
    forall j: nat ensures j in order[..k] <==> RunsBefore(calls, j, i) {
      if k < |unsafe| {
        assert order[..k] == unsafe[..k] && i == unsafe[k] && i in unsafe;
        PlaceOf(unsafe, k, j);
      } else {
        assert order[..k] == unsafe && i in safe;
      }
    }
  }

  lemma {:induction false} PlaceOf(order: seq<nat>, k: nat, j: nat)
    requires Ascending(order) && k < |order|
    ensures j in order[..k] <==> j in order && j < order[k]
  {
    if j in order && j < order[k] {
      var a :| 0 <= a < |order| && order[a] == j;
      assert a < k;
      assert order[..k][a] == j;
    }
  }

  // ── The slots ────────────────────────────────────────────────────────────────

  /** A slot is what its call put there; later calls have other slots. */
  lemma {:induction false} SlotOf(w: World, turn: nat, calls: seq<ToolCall>, order: seq<nat>, k: nat, x: Exec)
    requires Within(order, |calls|) && Distinct(order) && k < |order| && |x.slots| == |calls|
    ensures Within(order[..k], |calls|)
    ensures var i := order[k];
            var y := ExecAll(w, turn, calls, order[..k], x);
            && i < |ExecAll(w, turn, calls, order, x).slots| && i < |ExecCall(w, turn, calls[i], i, y).slots|
            && ExecAll(w, turn, calls, order, x).slots[i] == ExecCall(w, turn, calls[i], i, y).slots[i]
  {
    var n := |order| - 1;
    ExecAllSlots(w, turn, calls, order[..n], x);
    if k < n {
      SlotOf(w, turn, calls, order[..n], k, x);
      assert order[..n][..k] == order[..k];
    }
  }

  /** The run is finished exactly when some hook has finished it. */
  lemma {:induction false} FinishedMeans(w: World, turn: nat, calls: seq<ToolCall>, order: seq<nat>, x: Exec)
    requires Within(order, |calls|) && x.terminal.None?
    ensures ExecAll(w, turn, calls, order, x).terminal.Some? <==> exists j :: j in order && w.hook(turn, j).Finish?
  {
    if order != [] {
      var front, i := order[..|order| - 1], order[|order| - 1];
      assert order == front + [i];
      FinishedMeans(w, turn, calls, front, x);
    }
  }

  lemma {:induction false} DispatchKeepsTerminal(w: World, turn: nat, calls: seq<ToolCall>, order: seq<nat>, x: Exec)
    requires Within(order, |calls|)
    ensures DispatchAll(w, turn, calls, order, x).terminal == x.terminal
  {
    if order != [] {
      DispatchKeepsTerminal(w, turn, calls, order[..|order| - 1], x);
    }
  }

  lemma {:induction false} TogetherTrace(w: World, turn: nat, calls: seq<ToolCall>, order: seq<nat>, x: Exec)
    requires Within(order, |calls|)
    ensures DispatchAll(w, turn, calls, order, x).trace == x.trace + TogetherActs(w, turn, calls, order)
  {
    if order != [] {
      var front, i := order[..|order| - 1], order[|order| - 1];
      TogetherTrace(w, turn, calls, front, x);
      Assoc(x.trace, TogetherActs(w, turn, calls, front), [Executed(w, turn, calls, i)]);
      assert TogetherActs(w, turn, calls, order) == TogetherActs(w, turn, calls, front) + [Executed(w, turn, calls, i)];
    }
  }

  /** What one call run on its own is answered with. */
  lemma {:induction false} CallAnswered(w: World, turn: nat, calls: seq<ToolCall>, i: nat, x: Exec)
    requires i < |calls| && |x.slots| == |calls| && Tables(w, x.pending, x.filesRead, x.trace)
    requires !RunsTogether(calls, i) && (x.terminal.Some? <==> FinishedBefore(w, turn, calls, i))
    ensures var y := ExecCall(w, turn, calls[i], i, x);
            && |y.slots| == |calls| && y.slots[i] == Some(AnswerTo(w, turn, calls, i, x.trace))
            && y.trace == ActsNext(w, turn, calls, i, x.trace)
  {
    if w.argPath(calls[i].args).Some? {
      GuardMeans(w, w.argPath(calls[i].args).value, x);
    }
  }

  /** The guard of an edit, in terms of what was done to its path last. */
  lemma {:induction false} GuardMeans(w: World, path: string, x: Exec)
    requires Tables(w, x.pending, x.filesRead, x.trace)
    ensures EditGuard(path, x) ==
              match LastTouch(w, x.trace, path)
              case Untouched => Some(NotRead(path))
              case WasEdited => Some(NotVerified(path, EditorOf(w, x.trace, path)))
              case WasRead => None
  {
  }

  /** The state when the turn of the call at position `k` of the order comes. */
  function StateAt(w: World, turn: nat, calls: seq<ToolCall>, k: nat, s: LoopState): Exec
    requires k <= |OneByOne(calls)|
  {
    var start := Exec(EmptySlots(|calls|), s.pending, s.filesRead, None, s.trace);
    ExecAll(w, turn, calls, OneByOne(calls)[..k], DispatchAll(w, turn, calls, Concurrent(calls), start))
  }

  lemma {:induction false} StateKnown(w: World, turn: nat, calls: seq<ToolCall>, k: nat, s: LoopState)
    requires TablesOf(w, s) && k <= |OneByOne(calls)|
    ensures var x := StateAt(w, turn, calls, k, s);
            && |x.slots| == |calls| && Tables(w, x.pending, x.filesRead, x.trace)
            && (x.terminal.Some? <==> exists j :: j in OneByOne(calls)[..k] && w.hook(turn, j).Finish?)
  {
    var start := Exec(EmptySlots(|calls|), s.pending, s.filesRead, None, s.trace);
    var y := DispatchAll(w, turn, calls, Concurrent(calls), start);
    ConcurrentTables(w, turn, calls, start);
    DispatchAllSlots(w, turn, calls, Concurrent(calls), start);
    DispatchKeepsTerminal(w, turn, calls, Concurrent(calls), start);
    CallsKeepTables(w, turn, calls, OneByOne(calls)[..k], y);
    ExecAllSlots(w, turn, calls, OneByOne(calls)[..k], y);
    FinishedMeans(w, turn, calls, OneByOne(calls)[..k], y);
  }

  lemma {:induction false} PlaceAnswered(w: World, turn: nat, calls: seq<ToolCall>, k: nat, s: LoopState)
    requires TablesOf(w, s) && k < |OneByOne(calls)|
    ensures var i, x := OneByOne(calls)[k], StateAt(w, turn, calls, k, s);
            var y := ExecCall(w, turn, calls[i], i, x);
            && i < |y.slots| && y.slots[i] == Some(AnswerTo(w, turn, calls, i, x.trace))
            && y.trace == ActsNext(w, turn, calls, i, x.trace)
  {
    var order := OneByOne(calls);
    OneByOneMeans(calls);
    assert order[k] in order;
    StateKnown(w, turn, calls, k, s);
    OrderMeans(calls, k);
    var x := StateAt(w, turn, calls, k, s);
    FinishedIs(w, turn, calls, order[..k], order[k], x);
    CallAnswered(w, turn, calls, order[k], x);
  }

  lemma {:induction false} ActsAre(w: World, turn: nat, calls: seq<ToolCall>, k: nat, s: LoopState)
    requires TablesOf(w, s) && k <= |OneByOne(calls)|
    ensures StateAt(w, turn, calls, k, s).trace == ActsUpTo(w, turn, calls, k, s.trace)
  {
    if k == 0 {
      NoneRunYet(w, turn, calls, s);
    } else {
      ActsAre(w, turn, calls, k - 1, s);
      TraceNext(w, turn, calls, k - 1, s);
    }
  }

  lemma {:induction false} NoneRunYet(w: World, turn: nat, calls: seq<ToolCall>, s: LoopState)
    ensures StateAt(w, turn, calls, 0, s).trace == ActsUpTo(w, turn, calls, 0, s.trace)
  {
    var start := Exec(EmptySlots(|calls|), s.pending, s.filesRead, None, s.trace);
    TogetherTrace(w, turn, calls, Concurrent(calls), start);
  }

  lemma {:induction false} TraceNext(w: World, turn: nat, calls: seq<ToolCall>, k: nat, s: LoopState)
    requires TablesOf(w, s) && k < |OneByOne(calls)|
    ensures var before, i := StateAt(w, turn, calls, k, s).trace, OneByOne(calls)[k];
            StateAt(w, turn, calls, k + 1, s).trace == ActsNext(w, turn, calls, i, before)
  {
    PlaceAnswered(w, turn, calls, k, s);
    StateNext(w, turn, calls, k, s);
  }

  lemma {:induction false} StateNext(w: World, turn: nat, calls: seq<ToolCall>, k: nat, s: LoopState)
    requires k < |OneByOne(calls)|
    ensures var i := OneByOne(calls)[k];
            StateAt(w, turn, calls, k + 1, s) == ExecCall(w, turn, calls[i], i, StateAt(w, turn, calls, k, s))
  {
    var order := OneByOne(calls);
    assert order[..k + 1][..k] == order[..k];
  }

  /** Every slot holds the answer to its call, and the turn has done what its calls say. */
  lemma {:induction false} SlotAnswered(w: World, turn: nat, calls: seq<ToolCall>, i: nat, s: LoopState)
    requires i < |calls| && TablesOf(w, s)
    ensures var x := ExecTurn(w, turn, calls, s);
            && |x.slots| == |calls|
            && x.slots[i] == Some(AnswerTo(w, turn, calls, i, ActsBefore(w, turn, calls, i, s.trace)))
  {
    var start := Exec(EmptySlots(|calls|), s.pending, s.filesRead, None, s.trace);
    var order := OneByOne(calls);
    var y := DispatchAll(w, turn, calls, Concurrent(calls), start);
    SlotsKept(w, turn, calls, s);
    OneByOneMeans(calls);
    DispatchAllSlots(w, turn, calls, Concurrent(calls), start);
    if RunsTogether(calls, i) {
      ExecAllSlots(w, turn, calls, order, y);
    } else {
      assert i in order;
      var k := Find(order, i);
      SlotOf(w, turn, calls, order, k, y);
      PlaceAnswered(w, turn, calls, k, s);
      ActsAre(w, turn, calls, k, s);
    }
  }

  lemma {:induction false} TurnActs(w: World, turn: nat, calls: seq<ToolCall>, s: LoopState)
    requires TablesOf(w, s)
    ensures ExecTurn(w, turn, calls, s).trace == ActsUpTo(w, turn, calls, |OneByOne(calls)|, s.trace)
  {
    ActsAre(w, turn, calls, |OneByOne(calls)|, s);
    assert OneByOne(calls)[..|OneByOne(calls)|] == OneByOne(calls);
  }

  lemma {:induction false} FinishedIs(w: World, turn: nat, calls: seq<ToolCall>, earlier: seq<nat>, i: nat, x: Exec)
    requires i < |calls| && forall j: nat :: j in earlier <==> RunsBefore(calls, j, i)
    requires x.terminal.Some? <==> exists j :: j in earlier && w.hook(turn, j).Finish?
    ensures x.terminal.Some? <==> FinishedBefore(w, turn, calls, i)
  {
  }

  lemma {:induction false} ConcurrentTables(w: World, turn: nat, calls: seq<ToolCall>, x: Exec)
    requires Tables(w, x.pending, x.filesRead, x.trace)
    ensures var y := DispatchAll(w, turn, calls, Concurrent(calls), x); Tables(w, y.pending, y.filesRead, y.trace)
  {
    EveryCallRunsOnce(calls);
    forall k | 0 <= k < |Concurrent(calls)| ensures IsParallelSafe(calls[Concurrent(calls)[k]].name) {
      assert Concurrent(calls)[k] in Concurrent(calls);
    }
    ConcurrentKeepsTables(w, turn, calls, Concurrent(calls), x);
  }

  // ── The messages of a turn ───────────────────────────────────────────────────

  /** The messages after the model's reply: the reply itself, one message per call, and at most two reminders. */
  lemma {:induction false} AfterToolsMessages(w: World, c: Config, turn: nat, reply: Reply, s: LoopState)
    ensures var asked := s.(messages := s.messages + [Assistant(reply.text, reply.calls)]);
            var x := ExecTurn(w, turn, reply.calls, asked);
            var t := AfterTools(w, c, turn, reply, s).state;
            && |x.slots| == |reply.calls| && t.trace == x.trace
            && asked.messages + ToolMessages(w, reply.calls, x.slots) <= t.messages
  {
    SlotsKept(w, turn, reply.calls, s.(messages := s.messages + [Assistant(reply.text, reply.calls)]));
  }

  /**
   After a reply with calls the history goes on with that reply and then, for
   each call in order, one message under its id and name with the sanitized
   answer to that very call, given what was done before it.
   */
  lemma {:induction false} CallsAreAnswered(w: World, c: Config, turn: nat, s: LoopState, reply: Reply, i: nat)
    requires TablesOf(w, s) && w.reply(turn, TurnHead(w, c, turn, s).messages) == Ok(reply) && i < |reply.calls|
    ensures var n, ms := |TurnHead(w, c, turn, s).messages|, RunTurn(w, c, turn, s).state.messages;
            var before := ActsBefore(w, turn, reply.calls, i, s.trace + [Asked(turn), Answered(turn)]);
            var call, answer := reply.calls[i], AnswerTo(w, turn, reply.calls, i, before);
            && n + 1 + i < |ms| && ms[n] == Assistant(reply.text, reply.calls)
            && ms[n + 1 + i] == Tool(call.callId, call.name, w.sanitize(call.name, answer.text), answer.images)
  {
    var asked := Asking(w, c, turn, s, reply);
    SlotAnswered(w, turn, reply.calls, i, asked);
    MessageAt(w, reply, TurnHead(w, c, turn, s).messages, ExecTurn(w, turn, reply.calls, asked).slots, i);
  }

  /** The state in which a turn's calls are executed, and what is left of it at the end of the turn. */
  lemma {:induction false} Asking(w: World, c: Config, turn: nat, s: LoopState, reply: Reply) returns (asked: LoopState)
    requires TablesOf(w, s) && w.reply(turn, TurnHead(w, c, turn, s).messages) == Ok(reply) && reply.calls != []
    ensures TablesOf(w, asked) && asked.trace == s.trace + [Asked(turn), Answered(turn)]
    ensures var h, x, t := TurnHead(w, c, turn, s), ExecTurn(w, turn, reply.calls, asked), RunTurn(w, c, turn, s).state;
            && |x.slots| == |reply.calls| && t.trace == x.trace
            && h.messages + [Assistant(reply.text, reply.calls)] + ToolMessages(w, reply.calls, x.slots) <= t.messages
  {
    var h := TurnHead(w, c, turn, s);
    var a := h.(usage := AddUsage(h.usage, reply.usage), trace := h.trace + [Asked(turn)] + [Answered(turn)]);
    AskedTables(w, c, turn, s, reply);
    AfterToolsMessages(w, c, turn, reply, a);
    asked := a.(messages := a.messages + [Assistant(reply.text, reply.calls)]);
    assert s.trace + [Asked(turn)] + [Answered(turn)] == s.trace + [Asked(turn), Answered(turn)];
  }

  /** A turn with calls does what its calls say, and nothing else. */
  lemma {:induction false} TurnDoes(w: World, c: Config, turn: nat, s: LoopState, reply: Reply)
    requires TablesOf(w, s) && w.reply(turn, TurnHead(w, c, turn, s).messages) == Ok(reply) && reply.calls != []
    ensures RunTurn(w, c, turn, s).state.trace
         == ActsUpTo(w, turn, reply.calls, |OneByOne(reply.calls)|, s.trace + [Asked(turn), Answered(turn)])
  {
    var asked := Asking(w, c, turn, s, reply);
    TurnActs(w, turn, reply.calls, asked);
  }

  lemma {:induction false} AskedTables(w: World, c: Config, turn: nat, s: LoopState, reply: Reply)
    requires TablesOf(w, s)
    ensures var h := TurnHead(w, c, turn, s);
            Tables(w, h.pending, h.filesRead, h.trace + [Asked(turn)] + [Answered(turn)])
  {
    var h := TurnHead(w, c, turn, s);
    QuietAct(w, h.pending, h.filesRead, h.trace, Asked(turn));
    QuietAct(w, h.pending, h.filesRead, h.trace + [Asked(turn)], Answered(turn));
  }

  lemma {:induction false} MessageAt(w: World, reply: Reply, ms: seq<Message>, slots: seq<Option<ToolOutput>>, i: nat)
    requires |slots| == |reply.calls| && i < |slots| && slots[i].Some?
    ensures var all := ms + [Assistant(reply.text, reply.calls)] + ToolMessages(w, reply.calls, slots);
            var call, out := reply.calls[i], slots[i].value;
            && |ms| + 1 + i < |all| && all[|ms|] == Assistant(reply.text, reply.calls)
            && all[|ms| + 1 + i] == Tool(call.callId, call.name, w.sanitize(call.name, out.text), out.images)
  {
  }

  // ── How a turn ends ──────────────────────────────────────────────────────────

  /** The output is that of the first finishing hook in the order of the calls. */
  lemma {:induction false} FirstFinish(w: World, turn: nat, calls: seq<ToolCall>, order: seq<nat>, x: Exec)
    returns (k: nat)
    requires Within(order, |calls|) && x.terminal.None? && ExecAll(w, turn, calls, order, x).terminal.Some?
    ensures k < |order| && w.hook(turn, order[k]).Finish? && forall a :: 0 <= a < k ==> !w.hook(turn, order[a]).Finish?
    ensures ExecAll(w, turn, calls, order, x).terminal == Some(w.hook(turn, order[k]).output)
  {
    var n := |order| - 1;
    if ExecAll(w, turn, calls, order[..n], x).terminal.Some? {
      k := FirstFinish(w, turn, calls, order[..n], x);
    } else {
      FinishedMeans(w, turn, calls, order[..n], x);
      k := n;
      forall a | 0 <= a < k ensures !w.hook(turn, order[a]).Finish? {
        assert order[a] in order[..n];
      }
    }
  }

  /** A turn with calls ends the run exactly when a hook finishes it, with the output of the first one that does. */
  lemma {:induction false} FinalExactly(w: World, c: Config, turn: nat, s: LoopState, reply: Reply)
    requires w.reply(turn, TurnHead(w, c, turn, s).messages) == Ok(reply) && reply.calls != []
    ensures var calls, e := reply.calls, RunTurn(w, c, turn, s);
            && (e.Final? || e.Going?)
            && (e.Final? <==> exists i: nat :: i < |calls| && !RunsTogether(calls, i) && w.hook(turn, i).Finish?)
            && (e.Final? ==> exists i: nat :: i < |calls| && FinishesWith(w, turn, calls, i, e.text))
  {
    var h := TurnHead(w, c, turn, s);
    var a := h.(usage := AddUsage(h.usage, reply.usage), trace := h.trace + [Asked(turn)] + [Answered(turn)],
                messages := h.messages + [Assistant(reply.text, reply.calls)]);
    TerminalExactly(w, turn, reply.calls, a);
    SlotsKept(w, turn, reply.calls, a);
  }

  lemma {:induction false} TerminalExactly(w: World, turn: nat, calls: seq<ToolCall>, s: LoopState)
    ensures var t := ExecTurn(w, turn, calls, s).terminal;
            && (t.Some? <==> exists i: nat :: i < |calls| && !RunsTogether(calls, i) && w.hook(turn, i).Finish?)
            && (t.Some? ==> exists i: nat :: i < |calls| && FinishesWith(w, turn, calls, i, t.value))
  {
    var start := Exec(EmptySlots(|calls|), s.pending, s.filesRead, None, s.trace);
    var order := OneByOne(calls);
    var y := DispatchAll(w, turn, calls, Concurrent(calls), start);
    DispatchKeepsTerminal(w, turn, calls, Concurrent(calls), start);
    OneByOneMeans(calls);
    FinishedMeans(w, turn, calls, order, y);
    if ExecAll(w, turn, calls, order, y).terminal.Some? {
      var k := FirstFinish(w, turn, calls, order, y);
      OrderMeans(calls, k);
      assert order[k] in order;
      NotFinishedBefore(w, turn, calls, order, k);
      assert FinishesWith(w, turn, calls, order[k], w.hook(turn, order[k]).output);
    }
  }

  lemma {:induction false} NotFinishedBefore(w: World, turn: nat, calls: seq<ToolCall>, order: seq<nat>, k: nat)
    requires Within(order, |calls|) && k < |order|
    requires forall a :: 0 <= a < k ==> !w.hook(turn, order[a]).Finish?
    requires forall j: nat :: j in order[..k] <==> RunsBefore(calls, j, order[k])
    ensures !FinishedBefore(w, turn, calls, order[k])
  {
    forall j: nat | RunsBefore(calls, j, order[k]) ensures !w.hook(turn, j).Finish? {
      assert j in order[..k];
    }
  }

  /**
   A reply without calls answers with its text when no edit is owed a read, and
   otherwise goes on with the reply and a reminder that names the owed paths.
   */
  lemma {:induction false} PlainExactly(w: World, c: Config, turn: nat, s: LoopState, reply: Reply)
    requires TablesOf(w, s) && w.reply(turn, TurnHead(w, c, turn, s).messages) == Ok(reply) && reply.calls == []
    ensures var e, h := RunTurn(w, c, turn, s), TurnHead(w, c, turn, s);
            if forall path :: LastTouch(w, s.trace, path) != WasEdited then e.Plain? && e.text == reply.text
            else
              && e.Going? && |e.state.messages| == |h.messages| + 2
              && e.state.messages[|h.messages|] == Assistant(reply.text, [])
              && exists paths: set<string> ::
                   && (forall path :: path in paths <==> LastTouch(w, s.trace, path) == WasEdited)
                   && e.state.messages[|h.messages| + 1] == User(w.render(VerifyEdits(paths)), [])
  {
    var h := TurnHead(w, c, turn, s);
    if s.pending == map[] {
      forall path ensures LastTouch(w, s.trace, path) != WasEdited {
        assert path !in s.pending;
      }
    } else {
      var path :| path in s.pending;
      assert LastTouch(w, s.trace, path) == WasEdited;
      assert forall p :: p in s.pending.Keys <==> LastTouch(w, s.trace, p) == WasEdited;
    }
  }

  /** A turn adds the usage of its reply, each count to its own. */
  lemma {:induction false} UsageAddsUp(w: World, c: Config, turn: nat, s: LoopState, reply: Reply)
    requires w.reply(turn, TurnHead(w, c, turn, s).messages) == Ok(reply)
    ensures var u := RunTurn(w, c, turn, s).state.usage;
            && u.input == s.usage.input + reply.usage.input && u.output == s.usage.output + reply.usage.output
            && u.cacheRead == s.usage.cacheRead + reply.usage.cacheRead
            && u.cacheWrite == s.usage.cacheWrite + reply.usage.cacheWrite
  {
    var h := TurnHead(w, c, turn, s);
    if reply.calls != [] {
      TailKeepsUsage(w, c, turn, reply, h.(usage := AddUsage(h.usage, reply.usage),
                                           trace := h.trace + [Asked(turn)] + [Answered(turn)]));
    }
  }

  lemma {:induction false} TailKeepsUsage(w: World, c: Config, turn: nat, reply: Reply, s: LoopState)
    ensures AfterTools(w, c, turn, reply, s).state.usage == s.usage
  {
    SlotsKept(w, turn, reply.calls, s.(messages := s.messages + [Assistant(reply.text, reply.calls)]));
  }

  /** Calls that only look at files or the shell. */
  predicate OnlyExplores(calls: seq<ToolCall>) {
    forall i :: 0 <= i < |calls| ==>
      calls[i].name in ["shell_exec", "fs_ls", "fs_cat", "code_grep", "code_search", "code_read"]
  }

  lemma {:induction false} ExploresMeans(calls: seq<ToolCall>)
    ensures OnlyExplores(calls) <==> AllExploration(calls)
  {
    assert forall i :: 0 <= i < |calls| ==> calls[i] in calls;
  }

  /** Call `i` repeats one of an earlier turn or an earlier one of its own. */
  predicate Repeats(w: World, calls: seq<ToolCall>, seen: set<nat>, i: nat) {
    && i < |calls|
    && (|| w.callHash(calls[i].name, calls[i].args) in seen
        || exists j :: 0 <= j < i &&
             w.callHash(calls[j].name, calls[j].args) == w.callHash(calls[i].name, calls[i].args))
  }

  function Repeated(w: World, calls: seq<ToolCall>, seen: set<nat>): set<nat> {
    set i: nat | i < |calls| && Repeats(w, calls, seen, i)
  }

  function Hashes(w: World, calls: seq<ToolCall>): set<nat> {
    set i: nat | i < |calls| :: w.callHash(calls[i].name, calls[i].args)
  }

  lemma {:induction false} RepeatsInFront(w: World, calls: seq<ToolCall>, seen: set<nat>)
    requires calls != []
    ensures var n := |calls| - 1;
            && Repeated(w, calls, seen)
               == Repeated(w, calls[..n], seen) + (if Repeats(w, calls, seen, n) then {n} else {})
            && Hashes(w, calls) == Hashes(w, calls[..n]) + {w.callHash(calls[n].name, calls[n].args)}
            && (Repeats(w, calls, seen, n) <==>
                  w.callHash(calls[n].name, calls[n].args) in seen + Hashes(w, calls[..n]))
  {
    var front := calls[..|calls| - 1];
    forall i: nat | i < |front| ensures Repeats(w, front, seen, i) <==> Repeats(w, calls, seen, i) {
      assert front[i] == calls[i];
    }
  }

  lemma {:induction false} OneMore(w: World, calls: seq<ToolCall>, seen: set<nat>)
    requires calls != []
    ensures var n := |calls| - 1;
            && |Repeated(w, calls, seen)|
               == |Repeated(w, calls[..n], seen)| + (if Repeats(w, calls, seen, n) then 1 else 0)
            && seen + Hashes(w, calls) == seen + Hashes(w, calls[..n]) + {w.callHash(calls[n].name, calls[n].args)}
  {
    var n := |calls| - 1;
    RepeatsInFront(w, calls, seen);
    assert n !in Repeated(w, calls[..n], seen);
  }

  lemma {:induction false} StreakStep(w: World, calls: seq<ToolCall>, streak: nat, seen: set<nat>,
                                      last: (nat, set<nat>))
    requires calls != [] && last == Explored(w, calls[..|calls| - 1], streak, seen)
    ensures var h := w.callHash(calls[|calls| - 1].name, calls[|calls| - 1].args);
            Explored(w, calls, streak, seen) == (if h in last.1 then last.0 + 1 else last.0, last.1 + {h})
  {
  }

  lemma {:induction false} TallyStep(w: World, calls: seq<ToolCall>, seen: set<nat>, h: nat, k: nat, t: set<nat>)
    requires calls != [] && h == w.callHash(calls[|calls| - 1].name, calls[|calls| - 1].args)
    requires k == |Repeated(w, calls[..|calls| - 1], seen)| && t == seen + Hashes(w, calls[..|calls| - 1])
    ensures |Repeated(w, calls, seen)| == (if h in t then k + 1 else k) && seen + Hashes(w, calls) == t + {h}
  {
    RepeatsInFront(w, calls, seen);
    OneMore(w, calls, seen);
  }

  lemma {:induction false} StreakCounts(w: World, calls: seq<ToolCall>, streak: nat, seen: set<nat>,
                                        k: nat, t: set<nat>)
    requires k == |Repeated(w, calls, seen)| && t == seen + Hashes(w, calls)
    ensures Explored(w, calls, streak, seen) == (streak + 1 + k, t)
  {
    if calls == [] {
      assert Repeated(w, calls, seen) == {} && Hashes(w, calls) == {};
    } else {
      var n := |calls| - 1;
      var k0, t0 := |Repeated(w, calls[..n], seen)|, seen + Hashes(w, calls[..n]);
      TallyStep(w, calls, seen, w.callHash(calls[n].name, calls[n].args), k0, t0);
      StreakCounts(w, calls[..n], streak, seen, k0, t0);
      StreakStep(w, calls, streak, seen, (streak + 1 + k0, t0));
    }
  }

  /** The reminder that a streak of exploring turns ends a turn with: from 8 on to act, from 12 on to stop. */
  function StreakReminder(w: World, streak: nat): seq<Message> {
    if streak < 8 then [] else [User(w.render(if streak < 12 then Nudge(streak) else Stop), [])]
  }

  /**
   A turn that only explores adds one to the streak and one more for every call
   made before; any other turn halves it.
   */
  lemma {:induction false} ExploringIsNoticed(w: World, calls: seq<ToolCall>, s: LoopState)
    ensures var t := AntiLoop(w, calls, s);
            && (if calls != [] && OnlyExplores(calls)
                then t.streak == s.streak + 1 + |Repeated(w, calls, s.seenCalls)|
                     && t.seenCalls == s.seenCalls + Hashes(w, calls)
                else t.streak == s.streak / 2 && t.seenCalls == s.seenCalls)
            && t.messages == s.messages + StreakReminder(w, t.streak)
  {
    ExploresMeans(calls);
    StreakCounts(w, calls, s.streak, s.seenCalls,
                 |Repeated(w, calls, s.seenCalls)|, s.seenCalls + Hashes(w, calls));
    assert s.messages + [] == s.messages;
  }

  // ── The reminders of a turn ──────────────────────────────────────────────────

  /** What precedes the request: queued hints, and at half and at four fifths of ten or more turns the turn count. */
  function HeadReminders(w: World, c: Config, turn: nat): seq<Message> {
    (if w.hints(turn) == [] then [] else [User(w.render(Steering(w.hints(turn))), [])])
    + (if c.maxTurns >= 10 && turn + 1 in {c.maxTurns / 2, 4 * c.maxTurns / 5}
       then [User(w.render(Budget(turn + 1, c.maxTurns)), [])] else [])
  }

  /** What the prompt size of the reply adds: nothing up to the first limit, beyond it one of two reminders. */
  function SizeReminder(w: World, c: Config, input: nat): seq<Message> {
    if input <= c.contextWarn && input <= c.contextCritical then []
    else [User(w.render(if input > c.contextCritical then ContextCritical(input) else ContextHigh(input)), [])]
  }

  lemma {:induction false} HeadMessages(w: World, c: Config, turn: nat, s: LoopState)
    ensures var h := TurnHead(w, c, turn, s);
            h.messages == s.messages + HeadReminders(w, c, turn) && h == s.(messages := h.messages)
  {
    assert s.messages + [] == s.messages;
  }

  lemma {:induction false} TailMessages(w: World, c: Config, turn: nat, reply: Reply, s: LoopState)
    ensures var e := AfterTools(w, c, turn, reply, s);
            && (e.Final? || e.Going?)
            && |e.state.messages| >= |s.messages| + 1 + |reply.calls|
            && e.state.messages[|s.messages| + 1 + |reply.calls|..]
               == (if e.Final? then [] else
                     SizeReminder(w, c, reply.usage.input) + StreakReminder(w, e.state.streak))
  {
    var asked := s.(messages := s.messages + [Assistant(reply.text, reply.calls)]);
    SlotsKept(w, turn, reply.calls, asked);
    var x := ExecTurn(w, turn, reply.calls, asked);
    var t := asked.(pending := x.pending, filesRead := x.filesRead, trace := x.trace,
                    messages := asked.messages + ToolMessages(w, reply.calls, x.slots));
    var p := ContextPressure(w, c, reply.usage.input, t);
    assert p.messages == t.messages + SizeReminder(w, c, reply.usage.input);
    ExploringIsNoticed(w, reply.calls, p);
  }

  /**
   The reminders of a turn with calls: before the request the hints and the turn
   count, after the answers first the prompt size and then the streak; none after
   the answers when a hook has finished the run.
   */
  lemma {:induction false} TurnReminds(w: World, c: Config, turn: nat, s: LoopState, reply: Reply)
    requires w.reply(turn, TurnHead(w, c, turn, s).messages) == Ok(reply) && reply.calls != []
    ensures var e, asked := RunTurn(w, c, turn, s), s.messages + HeadReminders(w, c, turn);
            && TurnHead(w, c, turn, s).messages == asked
            && |e.state.messages| >= |asked| + 1 + |reply.calls|
            && e.state.messages[|asked| + 1 + |reply.calls|..]
               == (if e.Final? then [] else
                     SizeReminder(w, c, reply.usage.input) + StreakReminder(w, e.state.streak))
  {
    var h := TurnHead(w, c, turn, s);
    HeadMessages(w, c, turn, s);
    TailMessages(w, c, turn, reply,
                 h.(usage := AddUsage(h.usage, reply.usage), trace := h.trace + [Asked(turn)] + [Answered(turn)]));
  }
}
