/**
 The meaning of the multi-turn agent loop as functions: one tool call, one turn,
 the whole run. Model replies, hook actions, tool results and steering hints are
 arbitrary inputs. `AgentLoopRun` holds the loop itself.
 */
module AgentLoop {
  import opened Prelude
  import opened Conversation

  datatype HookAction = Continue | Skip(reply: string) | Finish(reply: string, output: string)

  datatype ToolOutput = ToolOutput(text: string, images: seq<Image>)

  datatype Usage = Usage(input: nat, output: nat, cacheRead: nat, cacheWrite: nat)

  datatype Reply = Reply(text: string, calls: seq<ToolCall>, usage: Usage)

  /** The user messages the loop injects, before they are rendered. */
  datatype Reminder =
    | Steering(hints: seq<string>)
    | Budget(current: nat, max: nat)
    | VerifyEdits(files: set<string>)
    | ContextCritical(inputTokens: nat)
    | ContextHigh(inputTokens: nat)
    | Stop
    | Nudge(streak: nat)

  /** Why an edit was refused. */
  datatype Refusal = NotRead(path: string) | NotVerified(path: string, previousCall: string)

  /** The world the loop runs in; functions of the turn number, and of the call's index where one is given. */
  datatype World = World(
    hints: nat -> seq<string>,
    reply: (nat, seq<Message>) -> Result<Reply, string>,
    hook: (nat, nat) -> HookAction,
    tool: (nat, nat) -> ToolOutput,
    isError: string -> bool,
    argPath: string -> Option<string>,
    sanitize: (string, string) -> string,
    render: Reminder -> string,
    refuse: Refusal -> string,
    callHash: (string, string) -> nat)

  /** Turn limit and the two context thresholds (in tokens). */
  datatype Config = Config(maxTurns: nat, contextWarn: nat, contextCritical: nat)

  const EXPLORATION_SOFT_LIMIT: nat := 8
  const EXPLORATION_HARD_LIMIT: nat := 12
  const ALREADY_FINAL := "{\"skipped\":true,\"reason\":\"run already finalized via answer\"}"
  const NOT_EXECUTED := "{\"error\":\"tool not executed\"}"

  predicate IsEdit(name: string) {
    name == "code_edit"
  }

  predicate IsRead(name: string) {
    name == "code_read" || name == "fs_cat"
  }

  predicate IsParallelSafe(name: string) {
    || name == "agent_run" || name == "agent_query" || name == "http_request"
    || name == "workspace_activity" || name == "workspace_diff" || name == "workspace_conflicts"
    || name == "agent_list" || name == "list_skills" || name == "read_skill"
  }

  predicate IsExploration(name: string) {
    || name == "shell_exec" || name == "fs_ls" || name == "fs_cat"
    || name == "code_grep" || name == "code_search" || name == "code_read"
  }

  /** Tools that run concurrently are neither the edit tool nor the read tools. */
  lemma {:induction false} ParallelSafeTouchesNoFiles(name: string)
    requires IsParallelSafe(name)
    ensures !IsEdit(name) && !IsRead(name)
  {
    assert name[0] == 'a' || name[0] == 'h' || name[0] == 'w' || name[0] == 'l' || name[0] == 'r';
  }

  /** What a run does to the outside: model requests, their answers, and tool executions with their success. */
  datatype Act = Asked(turn: nat) | Answered(turn: nat) | Dispatched(call: ToolCall, ok: bool)

  /** The loop's state between turns; `trace` records what it has done. */
  datatype LoopState = LoopState(
    messages: seq<Message>, pending: map<string, string>, filesRead: set<string>,
    usage: Usage, streak: nat, seenCalls: set<nat>, trace: seq<Act>)

  /** The state while one turn's tool calls execute; `slots` are the result slots by call index. */
  datatype Exec = Exec(
    slots: seq<Option<ToolOutput>>, pending: map<string, string>, filesRead: set<string>,
    terminal: Option<string>, trace: seq<Act>)

  // ── One tool call ────────────────────────────────────────────────────────────

  function Fill(x: Exec, i: nat, out: ToolOutput): Exec {
    if i < |x.slots| then x.(slots := x.slots[i := Some(out)]) else x
  }

  /** Executes call `i` for real and records it. */
  function Dispatch(w: World, turn: nat, call: ToolCall, i: nat, x: Exec): Exec {
    var out := w.tool(turn, i);
    Fill(x, i, out).(trace := x.trace + [Dispatched(call, !w.isError(out.text))])
  }

  /** The refusal an edit of `path` meets, if any. */
  function EditGuard(path: string, x: Exec): Option<Refusal> {
    if path !in x.filesRead then Some(NotRead(path))
    else if path in x.pending then Some(NotVerified(path, x.pending[path]))
    else None
  }

  /** One call on the sequential path: hook, guards, dispatch, bookkeeping. */
  function ExecCall(w: World, turn: nat, call: ToolCall, i: nat, x: Exec): Exec {
    if x.terminal.Some? then Fill(x, i, ToolOutput(ALREADY_FINAL, []))
    else
      match w.hook(turn, i)
      case Skip(reply) => Fill(x, i, ToolOutput(reply, []))
      case Finish(reply, output) => Fill(x, i, ToolOutput(reply, [])).(terminal := Some(output))
      case Continue =>
        var path, ok := w.argPath(call.args), !w.isError(w.tool(turn, i).text);
        if IsEdit(call.name) && path.Some? then
          match EditGuard(path.value, x)
          case Some(refusal) => Fill(x, i, ToolOutput(w.refuse(refusal), []))
          case None =>
            var y := Dispatch(w, turn, call, i, x);
            if ok then y.(pending := y.pending[path.value := call.callId]) else y
        else
          var y := Dispatch(w, turn, call, i, x);
          if IsRead(call.name) && ok && path.Some? then
            y.(pending := y.pending - {path.value}, filesRead := y.filesRead + {path.value})
          else y
  }

  /** Which calls are safe to run concurrently. */
  function SafeFlags(calls: seq<ToolCall>): seq<bool> {
    seq(|calls|, i requires 0 <= i < |calls| => IsParallelSafe(calls[i].name))
  }

  /** The positions of `want` in `flags`, ascending. */
  function Indices(flags: seq<bool>, want: bool): seq<nat> {
    if flags == [] then []
    else
      var n := |flags| - 1;
      if flags[n] == want then Indices(flags[..n], want) + [n] else Indices(flags[..n], want)
  }

  predicate Within(order: seq<nat>, n: nat) {
    forall k :: 0 <= k < |order| ==> order[k] < n
  }

  function DispatchAll(w: World, turn: nat, calls: seq<ToolCall>, order: seq<nat>, x: Exec): Exec
    requires Within(order, |calls|)
  {
    if order == [] then x
    else
      var i := order[|order| - 1];
      Dispatch(w, turn, calls[i], i, DispatchAll(w, turn, calls, order[..|order| - 1], x))
  }

  function ExecAll(w: World, turn: nat, calls: seq<ToolCall>, order: seq<nat>, x: Exec): Exec
    requires Within(order, |calls|)
  {
    if order == [] then x
    else
      var i := order[|order| - 1];
      ExecCall(w, turn, calls[i], i, ExecAll(w, turn, calls, order[..|order| - 1], x))
  }

  lemma {:induction false} IndicesBelow(flags: seq<bool>, want: bool)
    ensures Within(Indices(flags, want), |flags|)
    ensures forall i: nat :: i in Indices(flags, want) <==> i < |flags| && flags[i] == want
  {
    if flags != [] {
      IndicesBelow(flags[..|flags| - 1], want);
    }
  }

  /** What runs concurrently first: the parallel-safe calls, if there are at least two. */
  function Concurrent(calls: seq<ToolCall>): (order: seq<nat>)
    ensures Within(order, |calls|)
  {
    IndicesBelow(SafeFlags(calls), true);
    var parallel := Indices(SafeFlags(calls), true);
    if |parallel| > 1 then parallel else []
  }

  /** What runs one by one after that: the other calls, then a lone parallel-safe one. */
  function OneByOne(calls: seq<ToolCall>): (order: seq<nat>)
    ensures Within(order, |calls|)
  {
    IndicesBelow(SafeFlags(calls), true);
    IndicesBelow(SafeFlags(calls), false);
    var parallel := Indices(SafeFlags(calls), true);
    Indices(SafeFlags(calls), false) + (if |parallel| > 1 then [] else parallel)
  }

  function EmptySlots(n: nat): seq<Option<ToolOutput>> {
    seq(n, _ => None)
  }

  function ExecTurn(w: World, turn: nat, calls: seq<ToolCall>, s: LoopState): Exec {
    var x := Exec(EmptySlots(|calls|), s.pending, s.filesRead, None, s.trace);
    ExecAll(w, turn, calls, OneByOne(calls), DispatchAll(w, turn, calls, Concurrent(calls), x))
  }

  // ── One turn ─────────────────────────────────────────────────────────────────

  function Inject(w: World, s: LoopState, r: Reminder): LoopState {
    s.(messages := s.messages + [User(w.render(r), [])])
  }

  /** Steering hints and the turn-budget reminder, before the model is asked. */
  function TurnHead(w: World, c: Config, turn: nat, s: LoopState): LoopState {
    var s := if w.hints(turn) != [] then Inject(w, s, Steering(w.hints(turn))) else s;
    var current := turn + 1;
    if c.maxTurns >= 10 && (current == c.maxTurns / 2 || current == c.maxTurns * 4 / 5)
    then Inject(w, s, Budget(current, c.maxTurns)) else s
  }

  /** The tool message for one call; an empty slot would show as "not executed". */
  function ToolMessage(w: World, call: ToolCall, slot: Option<ToolOutput>): Message {
    var out := match slot case Some(out) => out case None => ToolOutput(NOT_EXECUTED, []);
    Tool(call.callId, call.name, w.sanitize(call.name, out.text), out.images)
  }

  function ToolMessages(w: World, calls: seq<ToolCall>, slots: seq<Option<ToolOutput>>): seq<Message>
    requires |slots| == |calls|
  {
    seq(|calls|, i requires 0 <= i < |calls| => ToolMessage(w, calls[i], slots[i]))
  }

  function ContextPressure(w: World, c: Config, input: nat, s: LoopState): LoopState {
    if input > c.contextCritical then Inject(w, s, ContextCritical(input))
    else if input > c.contextWarn then Inject(w, s, ContextHigh(input))
    else s
  }

  /** The streak and the call hashes after one more exploration-only turn. */
  function Explored(w: World, calls: seq<ToolCall>, streak: nat, seen: set<nat>): (nat, set<nat>) {
    if calls == [] then (streak + 1, seen)
    else
      var (streak, seen) := Explored(w, calls[..|calls| - 1], streak, seen);
      var h := w.callHash(calls[|calls| - 1].name, calls[|calls| - 1].args);
      (if h in seen then streak + 1 else streak, seen + {h})
  }

  predicate AllExploration(calls: seq<ToolCall>) {
    forall c :: c in calls ==> IsExploration(c.name)
  }

  function AntiLoop(w: World, calls: seq<ToolCall>, s: LoopState): LoopState {
    var (streak, seen) :=
      if calls != [] && AllExploration(calls) then Explored(w, calls, s.streak, s.seenCalls)
      else (s.streak / 2, s.seenCalls);
    var s := s.(streak := streak, seenCalls := seen);
    if streak >= EXPLORATION_HARD_LIMIT then Inject(w, s, Stop)
    else if streak >= EXPLORATION_SOFT_LIMIT then Inject(w, s, Nudge(streak))
    else s
  }

  function AddUsage(a: Usage, b: Usage): Usage {
    Usage(a.input + b.input, a.output + b.output, a.cacheRead + b.cacheRead, a.cacheWrite + b.cacheWrite)
  }

  /** How a turn ends: with a plain answer, with a hook's final answer, with a provider error, or not at all. */
  datatype TurnEnd =
    | Plain(text: string, state: LoopState)
    | Final(text: string, state: LoopState)
    | Broke(error: string, state: LoopState)
    | Going(state: LoopState)

  function AfterTools(w: World, c: Config, turn: nat, reply: Reply, s: LoopState): TurnEnd {
    var s := s.(messages := s.messages + [Assistant(reply.text, reply.calls)]);
    var x := ExecTurn(w, turn, reply.calls, s);
    SlotsKept(w, turn, reply.calls, s);
    var s := s.(pending := x.pending, filesRead := x.filesRead, trace := x.trace,
                messages := s.messages + ToolMessages(w, reply.calls, x.slots));
    if x.terminal.Some? then Final(x.terminal.value, s)
    else Going(AntiLoop(w, reply.calls, ContextPressure(w, c, reply.usage.input, s)))
  }

  function RunTurn(w: World, c: Config, turn: nat, s: LoopState): TurnEnd {
    var s := TurnHead(w, c, turn, s);
    var s := s.(trace := s.trace + [Asked(turn)]);
    match w.reply(turn, s.messages)
    case Err(error) => Broke(error, s)
    case Ok(reply) =>
      var s := s.(usage := AddUsage(s.usage, reply.usage), trace := s.trace + [Answered(turn)]);
      if reply.calls != [] then AfterTools(w, c, turn, reply, s)
      else if s.pending == map[] then Plain(reply.text, s)
      else
        Going(Inject(w, s.(messages := s.messages + [Assistant(reply.text, [])]), VerifyEdits(s.pending.Keys)))
  }

  // ── The run ──────────────────────────────────────────────────────────────────

  datatype Stopped = Provider(error: string) | MaxTurns(limit: nat)

  /** What a run returns; `state` and `turn` are its final state and the turn index it stopped at. */
  datatype Outcome =
    | Answer(text: string, plain: bool, state: LoopState, turn: nat)
    | Interrupted(why: Stopped, state: LoopState, turn: nat)

  /** Turns from `turn` on, for any way of running one turn. */
  function RunWith(step: (nat, LoopState) -> TurnEnd, max: nat, turn: nat, s: LoopState): Outcome
    decreases max - turn
  {
    if turn >= max then Interrupted(MaxTurns(max), s, turn)
    else
      match step(turn, s)
      case Plain(text, s) => Answer(text, true, s, turn)
      case Final(text, s) => Answer(text, false, s, turn)
      case Broke(error, s) => Interrupted(Provider(error), s, turn)
      case Going(s) => RunWith(step, max, turn + 1, s)
  }

  function Turns(w: World, c: Config): (nat, LoopState) -> TurnEnd {
    (turn: nat, s: LoopState) => RunTurn(w, c, turn, s)
  }

  function RunFrom(w: World, c: Config, turn: nat, s: LoopState): Outcome {
    RunWith(Turns(w, c), c.maxTurns, turn, s)
  }

  function Start(messages: seq<Message>): LoopState {
    LoopState(messages, map[], {}, Usage(0, 0, 0, 0), 0, {}, [])
  }

  // ── Slots ────────────────────────────────────────────────────────────────────

  lemma {:induction false} DispatchAllSlots(w: World, turn: nat, calls: seq<ToolCall>, order: seq<nat>, x: Exec)
    requires Within(order, |calls|)
    requires |x.slots| == |calls|
    ensures var y := DispatchAll(w, turn, calls, order, x);
            && |y.slots| == |calls|
            && (forall i :: 0 <= i < |calls| ==>
                  y.slots[i] == if i in order then Some(w.tool(turn, i)) else x.slots[i])
  {
    if order != [] {
      var front := order[..|order| - 1];
      DispatchAllSlots(w, turn, calls, front, x);
      assert order == front + [order[|order| - 1]];
    }
  }

  lemma {:induction false} ExecAllSlots(w: World, turn: nat, calls: seq<ToolCall>, order: seq<nat>, x: Exec)
    requires Within(order, |calls|)
    requires |x.slots| == |calls|
    ensures var y := ExecAll(w, turn, calls, order, x);
            && |y.slots| == |calls|
            && (forall i :: 0 <= i < |calls| ==>
                  if i in order then y.slots[i].Some? else y.slots[i] == x.slots[i])
  {
    if order != [] {
      var front := order[..|order| - 1];
      ExecAllSlots(w, turn, calls, front, x);
      assert order == front + [order[|order| - 1]];
    }
  }

  lemma {:induction false} SlotsKept(w: World, turn: nat, calls: seq<ToolCall>, s: LoopState)
    ensures |ExecTurn(w, turn, calls, s).slots| == |calls|
  {
    var x := Exec(EmptySlots(|calls|), s.pending, s.filesRead, None, s.trace);
    DispatchAllSlots(w, turn, calls, Concurrent(calls), x);
    ExecAllSlots(w, turn, calls, OneByOne(calls), DispatchAll(w, turn, calls, Concurrent(calls), x));
  }
}
