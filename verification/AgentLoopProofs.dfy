/** What every run of the agent loop keeps: the message grammar, the edit discipline, the turn budget. */
module AgentLoopProofs {
  import opened Prelude
  import opened Conversation
  import opened AgentLoop

  // ── Induction over the turns of a run ────────────────────────────────────────

  /** The end of the last turn of a run, as `RunTurn` reported it. */
  function LastEnd(o: Outcome): TurnEnd {
    match o
    case Answer(text, plain, s, _) => if plain then Plain(text, s) else Final(text, s)
    case Interrupted(Provider(error), s, _) => Broke(error, s)
    case Interrupted(MaxTurns(_), s, _) => Going(s)
  }

  /** What every turn establishes of its end, the run establishes of its last one. */
  lemma {:induction false} RunInduction(step: (nat, LoopState) -> TurnEnd, max: nat, turn: nat, s: LoopState,
                                        before: (nat, LoopState) -> bool, after: (nat, TurnEnd) -> bool)
    requires before(turn, s)
    requires forall n: nat, t :: n < max && before(n, t) ==>
               after(n, step(n, t)) && (step(n, t).Going? ==> before(n + 1, step(n, t).state))
    ensures var o := RunWith(step, max, turn, s);
            if o.Interrupted? && o.why.MaxTurns? then before(o.turn, o.state) && o.turn >= max == o.why.limit
            else after(o.turn, LastEnd(o))
    decreases max - turn
  {
    if turn < max {
      var e := step(turn, s);
      assert after(turn, e);
      if e.Going? {
        RunInduction(step, max, turn + 1, e.state, before, after);
      }
    }
  }

  // ── The tool partition ───────────────────────────────────────────────────────

  function Range(n: nat): seq<nat> {
    seq(n, i requires 0 <= i < n => i)
  }

  lemma {:induction false} IndicesPartition(flags: seq<bool>)
    ensures multiset(Indices(flags, true)) + multiset(Indices(flags, false)) == multiset(Range(|flags|))
  {
    if flags != [] {
      var n := |flags| - 1;
      IndicesPartition(flags[..n]);
      assert Range(|flags|) == Range(n) + [n];
    }
  }

  /** The concurrent and the one-by-one phase together run every call index exactly once. */
  lemma {:induction false} EveryCallRunsOnce(calls: seq<ToolCall>)
    ensures multiset(Concurrent(calls) + OneByOne(calls)) == multiset(Range(|calls|))
    ensures forall i: nat :: i in Concurrent(calls) ==> i < |calls| && IsParallelSafe(calls[i].name)
  {
    var flags := SafeFlags(calls);
    IndicesPartition(flags);
    IndicesBelow(flags, true);
    var parallel, others := Indices(flags, true), Indices(flags, false);
    assert others + [] == others && [] + (others + parallel) == others + parallel;
  }

  /** After a turn's tools no result slot is empty, so no call is ever reported as not executed. */
  lemma {:induction false} NoSlotEmpty(w: World, turn: nat, calls: seq<ToolCall>, s: LoopState)
    ensures |ExecTurn(w, turn, calls, s).slots| == |calls|
    ensures forall i :: 0 <= i < |calls| ==> ExecTurn(w, turn, calls, s).slots[i].Some?
    ensures forall i :: 0 <= i < |calls| && i in Concurrent(calls) ==>
              ExecTurn(w, turn, calls, s).slots[i] == Some(w.tool(turn, i))
  {
    var x := Exec(EmptySlots(|calls|), s.pending, s.filesRead, None, s.trace);
    DispatchAllSlots(w, turn, calls, Concurrent(calls), x);
    var y := DispatchAll(w, turn, calls, Concurrent(calls), x);
    ExecAllSlots(w, turn, calls, OneByOne(calls), y);
    EveryCallRunsOnce(calls);
    forall i: nat | i < |calls| ensures (i in Concurrent(calls)) != (i in OneByOne(calls)) {
      RangeOnce(|calls|, i);
      var first: multiset<nat>, rest: multiset<nat> := multiset(Concurrent(calls)), multiset(OneByOne(calls));
      assert first + rest == multiset(Concurrent(calls) + OneByOne(calls));
      assert (first + rest)[i] == 1;
      assert i in first <==> i in Concurrent(calls);
      assert i in rest <==> i in OneByOne(calls);
    }
  }

  lemma {:induction false} RangeOnce(n: nat, i: nat)
    ensures var range: multiset<nat> := multiset(Range(n)); range[i] == if i < n then 1 else 0
  {
    if n > 0 {
      RangeOnce(n - 1, i);
      assert Range(n) == Range(n - 1) + [n - 1];
    }
  }

  // ── The message grammar ──────────────────────────────────────────────────────

  lemma {:induction false} InjectKeeps(w: World, s: LoopState, r: Reminder)
    requires Paired(s.messages)
    ensures Paired(Inject(w, s, r).messages) && s.messages <= Inject(w, s, r).messages
  {
    PairedUser(s.messages, User(w.render(r), []));
  }

  lemma {:induction false} HeadKeeps(w: World, c: Config, turn: nat, s: LoopState)
    requires Paired(s.messages)
    ensures Paired(TurnHead(w, c, turn, s).messages) && s.messages <= TurnHead(w, c, turn, s).messages
  {
    if w.hints(turn) != [] {
      InjectKeeps(w, s, Steering(w.hints(turn)));
      InjectKeeps(w, Inject(w, s, Steering(w.hints(turn))), Budget(turn + 1, c.maxTurns));
    } else {
      InjectKeeps(w, s, Budget(turn + 1, c.maxTurns));
    }
  }

  /** `t` is `s` with user messages appended and perhaps another streak. */
  ghost predicate OnlyReminded(s: LoopState, t: LoopState) {
    && s.messages <= t.messages
    && (Paired(s.messages) ==> Paired(t.messages))
    && t.pending == s.pending && t.filesRead == s.filesRead && t.trace == s.trace && t.usage == s.usage
  }

  lemma {:induction false} PressureReminds(w: World, c: Config, input: nat, s: LoopState)
    ensures OnlyReminded(s, ContextPressure(w, c, input, s))
  {
    if Paired(s.messages) {
      InjectKeeps(w, s, ContextCritical(input));
      InjectKeeps(w, s, ContextHigh(input));
    }
  }

  lemma {:induction false} AntiLoopReminds(w: World, calls: seq<ToolCall>, s: LoopState)
    ensures OnlyReminded(s, AntiLoop(w, calls, s))
  {
    if Paired(s.messages) {
      PairedUser(s.messages, User(w.render(Stop), []));
      PairedUser(s.messages, User(w.render(Nudge(AntiLoop(w, calls, s).streak)), []));
    }
  }

  lemma {:induction false} TailKeeps(w: World, c: Config, calls: seq<ToolCall>, input: nat, s: LoopState)
    ensures OnlyReminded(s, AntiLoop(w, calls, ContextPressure(w, c, input, s)))
  {
    PressureReminds(w, c, input, s);
    AntiLoopReminds(w, calls, ContextPressure(w, c, input, s));
  }

  lemma {:induction false} ToolsAnswer(w: World, calls: seq<ToolCall>, slots: seq<Option<ToolOutput>>)
    requires |slots| == |calls|
    ensures StartsWithAnswers(ToolMessages(w, calls, slots), calls)
  {
    StartsWithAnswersMeans(ToolMessages(w, calls, slots), calls);
  }

  /** However a turn ends, its messages extend the history and keep calls and results paired. */
  lemma {:induction false} TurnKeepsPaired(w: World, c: Config, turn: nat, s: LoopState)
    requires Paired(s.messages)
    ensures Paired(RunTurn(w, c, turn, s).state.messages)
    ensures s.messages <= TurnHead(w, c, turn, s).messages <= RunTurn(w, c, turn, s).state.messages
  {
    HeadKeeps(w, c, turn, s);
    var h := TurnHead(w, c, turn, s);
    if w.reply(turn, h.messages).Ok? {
      var reply := w.reply(turn, h.messages).value;
      if reply.calls == [] {
        var m := Assistant(reply.text, []);
        PairedTurn(h.messages, m, []);
        assert h.messages + [m] + [] == h.messages + [m];
        PairedUser(h.messages + [m], User(w.render(VerifyEdits(s.pending.Keys)), []));
      } else {
        AfterToolsPaired(w, c, turn, reply, h.(usage := AddUsage(h.usage, reply.usage),
                                               trace := h.trace + [Asked(turn)] + [Answered(turn)]));
      }
    }
  }

  lemma {:induction false} AfterToolsPaired(w: World, c: Config, turn: nat, reply: Reply, s: LoopState)
    requires Paired(s.messages)
    ensures Paired(AfterTools(w, c, turn, reply, s).state.messages)
    ensures s.messages <= AfterTools(w, c, turn, reply, s).state.messages
  {
    var m := Assistant(reply.text, reply.calls);
    var asked := s.(messages := s.messages + [m]);
    SlotsKept(w, turn, reply.calls, asked);
    var x := ExecTurn(w, turn, reply.calls, asked);
    ToolsAnswer(w, reply.calls, x.slots);
    var answers := ToolMessages(w, reply.calls, x.slots);
    PairedTurn(s.messages, m, answers);
    var t := asked.(pending := x.pending, filesRead := x.filesRead, trace := x.trace,
                    messages := asked.messages + answers);
    TailKeeps(w, c, reply.calls, reply.usage.input, t);
  }

  /** A run, finished or interrupted, leaves an extension of its history with every call answered. */
  lemma {:induction false} RunKeepsPaired(w: World, c: Config, turn: nat, s: LoopState)
    requires Paired(s.messages)
    ensures Paired(RunFrom(w, c, turn, s).state.messages) && s.messages <= RunFrom(w, c, turn, s).state.messages
  {
    var before := (n: nat, t: LoopState) => Paired(t.messages) && s.messages <= t.messages;
    var after := (n: nat, e: TurnEnd) => Paired(e.state.messages) && s.messages <= e.state.messages;
    forall n: nat, t | n < c.maxTurns && before(n, t)
      ensures after(n, Turns(w, c)(n, t))
    {
      TurnKeepsPaired(w, c, n, t);
    }
    RunInduction(Turns(w, c), c.maxTurns, turn, s, before, after);
  }

  // ── The edit discipline ──────────────────────────────────────────────────────

  /** A successful `code_edit` of `path`. */
  predicate EditedOk(w: World, a: Act, path: string) {
    a.Dispatched? && a.ok && a.call.name == "code_edit" && w.argPath(a.call.args) == Some(path)
  }

  /** A successful `code_read` or `fs_cat` of `path`. */
  predicate ReadOk(w: World, a: Act, path: string) {
    && a.Dispatched? && a.ok && (a.call.name == "code_read" || a.call.name == "fs_cat")
    && w.argPath(a.call.args) == Some(path)
  }

  datatype Touch = Untouched | WasRead | WasEdited

  /** What the last successful read or edit of `path` was. */
  function LastTouch(w: World, trace: seq<Act>, path: string): Touch {
    if trace == [] then Untouched
    else if EditedOk(w, trace[|trace| - 1], path) then WasEdited
    else if ReadOk(w, trace[|trace| - 1], path) then WasRead
    else LastTouch(w, trace[..|trace| - 1], path)
  }

  /** Every successful edit finds its path read since the last edit of it. */
  predicate Disciplined(w: World, trace: seq<Act>) {
    trace != [] ==>
      var front, last := trace[..|trace| - 1], trace[|trace| - 1];
      && Disciplined(w, front)
      && (last.Dispatched? && w.argPath(last.call.args).Some? && EditedOk(w, last, w.argPath(last.call.args).value) ==>
            LastTouch(w, front, w.argPath(last.call.args).value) == WasRead)
  }

  /** The id of the call that last edited `path` successfully. */
  function EditorOf(w: World, trace: seq<Act>, path: string): string {
    if trace == [] then ""
    else if EditedOk(w, trace[|trace| - 1], path) then trace[|trace| - 1].call.callId
    else EditorOf(w, trace[..|trace| - 1], path)
  }

  /** The loop's two file tables say what the trace says. */
  ghost predicate Tables(w: World, pending: map<string, string>, filesRead: set<string>, trace: seq<Act>) {
    && Disciplined(w, trace)
    && (forall p :: p in pending <==> LastTouch(w, trace, p) == WasEdited)
    && (forall p :: p in filesRead <==> LastTouch(w, trace, p) != Untouched)
    && (forall p :: p in pending ==> pending[p] == EditorOf(w, trace, p))
  }

  lemma {:induction false} TouchSnoc(w: World, trace: seq<Act>, a: Act)
    ensures forall p :: LastTouch(w, trace + [a], p) ==
              if EditedOk(w, a, p) then WasEdited else if ReadOk(w, a, p) then WasRead else LastTouch(w, trace, p)
    ensures forall p :: EditorOf(w, trace + [a], p) ==
              if EditedOk(w, a, p) then a.call.callId else EditorOf(w, trace, p)
    ensures Disciplined(w, trace + [a]) <==>
              && Disciplined(w, trace)
              && (a.Dispatched? && w.argPath(a.call.args).Some? && EditedOk(w, a, w.argPath(a.call.args).value) ==>
                    LastTouch(w, trace, w.argPath(a.call.args).value) == WasRead)
  {
    assert (trace + [a])[..|trace|] == trace;
  }

  lemma {:induction false} QuietAct(w: World, pending: map<string, string>, filesRead: set<string>, trace: seq<Act>,
                                    a: Act)
    requires Tables(w, pending, filesRead, trace)
    requires a.Dispatched? ==> !a.ok || w.argPath(a.call.args) == None || (!IsEdit(a.call.name) && !IsRead(a.call.name))
    ensures Tables(w, pending, filesRead, trace + [a])
  {
    TouchSnoc(w, trace, a);
  }

  lemma {:induction false} EditAct(w: World, pending: map<string, string>, filesRead: set<string>, trace: seq<Act>,
                                   a: Act, path: string, id: string)
    requires Tables(w, pending, filesRead, trace) && EditedOk(w, a, path) && id == a.call.callId
    requires path in filesRead && path !in pending
    ensures Tables(w, pending[path := id], filesRead, trace + [a])
  {
    TouchSnoc(w, trace, a);
    EditIsNotRead(a.call.name);
  }

  lemma {:induction false} ReadAct(w: World, pending: map<string, string>, filesRead: set<string>, trace: seq<Act>,
                                   a: Act, path: string)
    requires Tables(w, pending, filesRead, trace) && ReadOk(w, a, path)
    ensures Tables(w, pending - {path}, filesRead + {path}, trace + [a])
  {
    TouchSnoc(w, trace, a);
    EditIsNotRead(a.call.name);
  }

  lemma {:induction false} CallKeepsTables(w: World, turn: nat, call: ToolCall, i: nat, x: Exec)
    requires Tables(w, x.pending, x.filesRead, x.trace)
    ensures var y := ExecCall(w, turn, call, i, x); Tables(w, y.pending, y.filesRead, y.trace)
  {
    var ok := !w.isError(w.tool(turn, i).text);
    var a, path := Dispatched(call, ok), w.argPath(call.args);
    if x.terminal.None? && w.hook(turn, i).Continue? {
      if IsEdit(call.name) && path.Some? {
        if EditGuard(path.value, x) == None {
          if ok {
            EditAct(w, x.pending, x.filesRead, x.trace, a, path.value, call.callId);
          } else {
            QuietAct(w, x.pending, x.filesRead, x.trace, a);
          }
        }
      } else if IsRead(call.name) && ok && path.Some? {
        ReadAct(w, x.pending, x.filesRead, x.trace, a, path.value);
      } else {
        QuietAct(w, x.pending, x.filesRead, x.trace, a);
      }
    }
  }

  lemma {:induction false} EditIsNotRead(name: string)
    ensures !(IsEdit(name) && IsRead(name))
  {
    assert "code_edit"[5] == 'e' && "code_read"[5] == 'r';
  }

  lemma {:induction false} CallsKeepTables(w: World, turn: nat, calls: seq<ToolCall>, order: seq<nat>, x: Exec)
    requires Within(order, |calls|) && Tables(w, x.pending, x.filesRead, x.trace)
    ensures var y := ExecAll(w, turn, calls, order, x); Tables(w, y.pending, y.filesRead, y.trace)
  {
    if order != [] {
      var front, i := order[..|order| - 1], order[|order| - 1];
      CallsKeepTables(w, turn, calls, front, x);
      CallKeepsTables(w, turn, calls[i], i, ExecAll(w, turn, calls, front, x));
    }
  }

  /** Concurrent tools bypass the bookkeeping, which is sound because none of them reads or edits files. */
  lemma {:induction false} ConcurrentKeepsTables(w: World, turn: nat, calls: seq<ToolCall>, order: seq<nat>, x: Exec)
    requires Within(order, |calls|) && Tables(w, x.pending, x.filesRead, x.trace)
    requires forall k :: 0 <= k < |order| ==> IsParallelSafe(calls[order[k]].name)
    ensures var y := DispatchAll(w, turn, calls, order, x);
            y.pending == x.pending && y.filesRead == x.filesRead && Tables(w, y.pending, y.filesRead, y.trace)
  {
    if order != [] {
      var front, i := order[..|order| - 1], order[|order| - 1];
      ConcurrentKeepsTables(w, turn, calls, front, x);
      ParallelSafeTouchesNoFiles(calls[i].name);
      var y := DispatchAll(w, turn, calls, front, x);
      QuietAct(w, y.pending, y.filesRead, y.trace, Dispatched(calls[i], !w.isError(w.tool(turn, i).text)));
    }
  }

  lemma {:induction false} ExecKeepsTables(w: World, turn: nat, calls: seq<ToolCall>, s: LoopState)
    requires Tables(w, s.pending, s.filesRead, s.trace)
    ensures var x := ExecTurn(w, turn, calls, s); Tables(w, x.pending, x.filesRead, x.trace)
  {
    var x := Exec(EmptySlots(|calls|), s.pending, s.filesRead, None, s.trace);
    EveryCallRunsOnce(calls);
    forall k | 0 <= k < |Concurrent(calls)| ensures IsParallelSafe(calls[Concurrent(calls)[k]].name) {
      assert Concurrent(calls)[k] in Concurrent(calls);
    }
    ConcurrentKeepsTables(w, turn, calls, Concurrent(calls), x);
    CallsKeepTables(w, turn, calls, OneByOne(calls), DispatchAll(w, turn, calls, Concurrent(calls), x));
  }

  ghost predicate TablesOf(w: World, s: LoopState) {
    Tables(w, s.pending, s.filesRead, s.trace)
  }

  lemma {:induction false} ToolsKeepTables(w: World, c: Config, turn: nat, reply: Reply, s: LoopState)
    requires TablesOf(w, s)
    ensures TablesOf(w, AfterTools(w, c, turn, reply, s).state)
  {
    var asked := s.(messages := s.messages + [Assistant(reply.text, reply.calls)]);
    ExecKeepsTables(w, turn, reply.calls, asked);
    SlotsKept(w, turn, reply.calls, asked);
    var x := ExecTurn(w, turn, reply.calls, asked);
    TailKeeps(w, c, reply.calls, reply.usage.input,
              asked.(pending := x.pending, filesRead := x.filesRead, trace := x.trace,
                     messages := asked.messages + ToolMessages(w, reply.calls, x.slots)));
  }

  lemma {:induction false} TurnKeepsTables(w: World, c: Config, turn: nat, s: LoopState)
    requires TablesOf(w, s)
    ensures TablesOf(w, RunTurn(w, c, turn, s).state)
  {
    var h := TurnHead(w, c, turn, s);
    assert h.pending == s.pending && h.filesRead == s.filesRead && h.trace == s.trace;
    QuietAct(w, h.pending, h.filesRead, h.trace, Asked(turn));
    QuietAct(w, h.pending, h.filesRead, h.trace + [Asked(turn)], Answered(turn));
    if w.reply(turn, h.messages).Ok? && w.reply(turn, h.messages).value.calls != [] {
      var reply := w.reply(turn, h.messages).value;
      ToolsKeepTables(w, c, turn, reply,
                      h.(usage := AddUsage(h.usage, reply.usage), trace := h.trace + [Asked(turn)] + [Answered(turn)]));
    }
  }

  lemma {:induction false} RunKeepsTables(w: World, c: Config, turn: nat, s: LoopState)
    requires TablesOf(w, s)
    ensures TablesOf(w, RunFrom(w, c, turn, s).state)
  {
    var before := (n: nat, t: LoopState) => TablesOf(w, t);
    var after := (n: nat, e: TurnEnd) => TablesOf(w, e.state);
    forall n: nat, t | n < c.maxTurns && before(n, t)
      ensures after(n, Turns(w, c)(n, t))
    {
      TurnKeepsTables(w, c, n, t);
    }
    RunInduction(Turns(w, c), c.maxTurns, turn, s, before, after);
  }

  /** `WasRead` and `WasEdited`, spelled out over the positions of the trace. */
  lemma {:induction false} TouchMeans(w: World, trace: seq<Act>, path: string)
    ensures LastTouch(w, trace, path) == WasRead ==>
              exists i :: 0 <= i < |trace| && ReadOk(w, trace[i], path)
                       && forall k :: i < k < |trace| ==> !EditedOk(w, trace[k], path)
    ensures LastTouch(w, trace, path) != WasEdited ==>
              forall j :: 0 <= j < |trace| && EditedOk(w, trace[j], path) ==>
                exists k :: j < k < |trace| && ReadOk(w, trace[k], path)
  {
    if trace != [] {
      var front, n := trace[..|trace| - 1], |trace| - 1;
      TouchMeans(w, front, path);
      if ReadOk(w, trace[n], path) && !EditedOk(w, trace[n], path) {
        assert ReadOk(w, trace[n], path);
      } else if !EditedOk(w, trace[n], path) {
        if LastTouch(w, trace, path) == WasRead {
          var i :| 0 <= i < n && ReadOk(w, front[i], path) && forall k :: i < k < n ==> !EditedOk(w, front[k], path);
          assert ReadOk(w, trace[i], path);
          forall k | i < k < |trace| ensures !EditedOk(w, trace[k], path) {
            assert k < n ==> trace[k] == front[k];
          }
        }
        if LastTouch(w, trace, path) != WasEdited {
          forall j | 0 <= j < |trace| && EditedOk(w, trace[j], path)
            ensures exists k :: j < k < |trace| && ReadOk(w, trace[k], path)
          {
            assert trace[j] == front[j];
            var k :| j < k < n && ReadOk(w, front[k], path);
            assert trace[k] == front[k];
          }
        }
      }
    }
  }

  lemma {:induction false} DisciplineMeans(w: World, trace: seq<Act>, j: nat, path: string)
    requires Disciplined(w, trace) && j < |trace| && EditedOk(w, trace[j], path)
    ensures exists i :: 0 <= i < j && ReadOk(w, trace[i], path)
                       && forall k :: i < k < j ==> !EditedOk(w, trace[k], path)
  {
    var front := trace[..|trace| - 1];
    if j == |trace| - 1 {
      TouchMeans(w, front, path);
      var i :| 0 <= i < |front| && ReadOk(w, front[i], path)
               && forall k :: i < k < |front| ==> !EditedOk(w, front[k], path);
      assert trace[i] == front[i];
      assert forall k :: i < k < j ==> trace[k] == front[k];
    } else {
      DisciplineMeans(w, front, j, path);
      var i :| 0 <= i < j && ReadOk(w, front[i], path) && forall k :: i < k < j ==> !EditedOk(w, front[k], path);
      assert trace[i] == front[i];
      assert forall k :: i < k < j ==> trace[k] == front[k];
    }
  }

  /** In every run each successful edit of a path is preceded by a successful read of it, with no edit of it between. */
  lemma {:induction false} EditsFollowReads(w: World, c: Config, turn: nat, messages: seq<Message>, j: nat,
                                            path: string)
    requires j < |RunFrom(w, c, turn, Start(messages)).state.trace|
    requires EditedOk(w, RunFrom(w, c, turn, Start(messages)).state.trace[j], path)
    ensures var trace := RunFrom(w, c, turn, Start(messages)).state.trace;
            exists i :: 0 <= i < j && ReadOk(w, trace[i], path)
                        && forall k :: i < k < j ==> !EditedOk(w, trace[k], path)
  {
    RunKeepsTables(w, c, turn, Start(messages));
    DisciplineMeans(w, RunFrom(w, c, turn, Start(messages)).state.trace, j, path);
  }

  lemma {:induction false} PlainMeansVerified(w: World, c: Config, turn: nat, s: LoopState)
    ensures var o := RunFrom(w, c, turn, s); o.Answer? && o.plain ==> o.state.pending == map[]
  {
    var after := (n: nat, e: TurnEnd) => e.Plain? ==> e.state.pending == map[];
    forall n: nat, t | n < c.maxTurns
      ensures after(n, Turns(w, c)(n, t))
    {
    }
    RunInduction(Turns(w, c), c.maxTurns, turn, s, (n, t) => true, after);
  }

  /** A run that ends with a plain answer has re-read every path after its last successful edit. */
  lemma {:induction false} PlainAnswersAreVerified(w: World, c: Config, turn: nat, messages: seq<Message>, j: nat,
                                                   path: string)
    requires RunFrom(w, c, turn, Start(messages)).Answer? && RunFrom(w, c, turn, Start(messages)).plain
    requires j < |RunFrom(w, c, turn, Start(messages)).state.trace|
    requires EditedOk(w, RunFrom(w, c, turn, Start(messages)).state.trace[j], path)
    ensures var trace := RunFrom(w, c, turn, Start(messages)).state.trace;
            exists k :: j < k < |trace| && ReadOk(w, trace[k], path)
  {
    var s := RunFrom(w, c, turn, Start(messages)).state;
    RunKeepsTables(w, c, turn, Start(messages));
    PlainMeansVerified(w, c, turn, Start(messages));
    assert path !in s.pending;
    TouchMeans(w, s.trace, path);
  }

  // ── The turn budget ──────────────────────────────────────────────────────────

  /** Model requests in a trace. */
  function Requests(trace: seq<Act>): nat {
    if trace == [] then 0 else Requests(trace[..|trace| - 1]) + (if trace[|trace| - 1].Asked? then 1 else 0)
  }

  lemma {:induction false} RequestsSnoc(trace: seq<Act>, a: Act)
    ensures Requests(trace + [a]) == Requests(trace) + (if a.Asked? then 1 else 0)
  {
    assert (trace + [a])[..|trace|] == trace;
  }

  lemma {:induction false} DispatchAllRequests(w: World, turn: nat, calls: seq<ToolCall>, order: seq<nat>, x: Exec)
    requires Within(order, |calls|)
    ensures Requests(DispatchAll(w, turn, calls, order, x).trace) == Requests(x.trace)
  {
    if order != [] {
      var front, i := order[..|order| - 1], order[|order| - 1];
      DispatchAllRequests(w, turn, calls, front, x);
      RequestsSnoc(DispatchAll(w, turn, calls, front, x).trace, Dispatched(calls[i], !w.isError(w.tool(turn, i).text)));
    }
  }

  lemma {:induction false} ExecAllRequests(w: World, turn: nat, calls: seq<ToolCall>, order: seq<nat>, x: Exec)
    requires Within(order, |calls|)
    ensures Requests(ExecAll(w, turn, calls, order, x).trace) == Requests(x.trace)
  {
    if order != [] {
      var front, i := order[..|order| - 1], order[|order| - 1];
      ExecAllRequests(w, turn, calls, front, x);
      RequestsSnoc(ExecAll(w, turn, calls, front, x).trace, Dispatched(calls[i], !w.isError(w.tool(turn, i).text)));
    }
  }

  /** A turn asks the model once; a turn that goes on consumes at most one turn of the budget. */
  lemma {:induction false} TurnCost(w: World, c: Config, turn: nat, s: LoopState)
    ensures Requests(RunTurn(w, c, turn, s).state.trace) == Requests(s.trace) + 1
    ensures TurnsConsumed(RunTurn(w, c, turn, s).state.messages)
         <= TurnsConsumed(s.messages)
            + (if RunTurn(w, c, turn, s).Going? || RunTurn(w, c, turn, s).Final? then 1 else 0)
  {
    var h := TurnHead(w, c, turn, s);
    HeadCost(w, c, turn, s);
    RequestsSnoc(h.trace, Asked(turn));
    RequestsSnoc(h.trace + [Asked(turn)], Answered(turn));
    if w.reply(turn, h.messages).Ok? {
      var reply := w.reply(turn, h.messages).value;
      if reply.calls == [] {
        ConsumedSnoc(h.messages + [Assistant(reply.text, [])], User(w.render(VerifyEdits(s.pending.Keys)), []));
      } else {
        AfterToolsCost(w, c, turn, reply, h.(usage := AddUsage(h.usage, reply.usage),
                                             trace := h.trace + [Asked(turn)] + [Answered(turn)]));
      }
    }
  }

  lemma {:induction false} InjectCost(w: World, s: LoopState, r: Reminder)
    ensures TurnsConsumed(Inject(w, s, r).messages) == 0 && Inject(w, s, r).trace == s.trace
  {
    ConsumedSnoc(s.messages, User(w.render(r), []));
  }

  lemma {:induction false} HeadCost(w: World, c: Config, turn: nat, s: LoopState)
    ensures TurnsConsumed(TurnHead(w, c, turn, s).messages) <= TurnsConsumed(s.messages)
    ensures TurnHead(w, c, turn, s).trace == s.trace
  {
    InjectCost(w, s, Steering(w.hints(turn)));
    InjectCost(w, if w.hints(turn) != [] then Inject(w, s, Steering(w.hints(turn))) else s,
               Budget(turn + 1, c.maxTurns));
  }

  lemma {:induction false} TailCost(w: World, c: Config, calls: seq<ToolCall>, input: nat, s: LoopState)
    ensures var t := AntiLoop(w, calls, ContextPressure(w, c, input, s));
            TurnsConsumed(t.messages) <= TurnsConsumed(s.messages) && t.trace == s.trace
  {
    InjectCost(w, s, ContextCritical(input));
    InjectCost(w, s, ContextHigh(input));
    var u := ContextPressure(w, c, input, s);
    ConsumedSnoc(u.messages, User(w.render(Stop), []));
    forall n: nat ensures TurnsConsumed(u.messages + [User(w.render(Nudge(n)), [])]) == 0 {
      ConsumedSnoc(u.messages, User(w.render(Nudge(n)), []));
    }
  }

  lemma {:induction false} AfterToolsCost(w: World, c: Config, turn: nat, reply: Reply, s: LoopState)
    ensures Requests(AfterTools(w, c, turn, reply, s).state.trace) == Requests(s.trace)
    ensures TurnsConsumed(AfterTools(w, c, turn, reply, s).state.messages) <= TurnsConsumed(s.messages) + 1
  {
    var m := Assistant(reply.text, reply.calls);
    var asked := s.(messages := s.messages + [m]);
    SlotsKept(w, turn, reply.calls, asked);
    var x := ExecTurn(w, turn, reply.calls, asked);
    var e := Exec(EmptySlots(|reply.calls|), s.pending, s.filesRead, None, s.trace);
    DispatchAllRequests(w, turn, reply.calls, Concurrent(reply.calls), e);
    ExecAllRequests(w, turn, reply.calls, OneByOne(reply.calls),
                    DispatchAll(w, turn, reply.calls, Concurrent(reply.calls), e));
    var answers := ToolMessages(w, reply.calls, x.slots);
    ConsumedSnoc(s.messages, m);
    ConsumedTools(asked.messages, answers);
    var t := asked.(pending := x.pending, filesRead := x.filesRead, trace := x.trace,
                    messages := asked.messages + answers);
    TailCost(w, c, reply.calls, reply.usage.input, t);
  }

  /**
   A run makes one model request per turn, up to and with the one it stops in, and
   none from turn `maxTurns` on; only there does it run out of turns, and it says so.
   */
  lemma {:induction false} RequestsBounded(w: World, c: Config, turn: nat, s: LoopState)
    ensures var o := RunFrom(w, c, turn, s);
            var requests := Requests(o.state.trace) - Requests(s.trace);
            if o.Interrupted? && o.why.MaxTurns?
            then o.why.limit == c.maxTurns && requests == if turn <= c.maxTurns then c.maxTurns - turn else 0
            else turn <= o.turn < c.maxTurns && requests == o.turn - turn + 1
  {
    var before := (n: nat, t: LoopState) =>
      Requests(t.trace) + turn == Requests(s.trace) + n && turn <= n && (n <= c.maxTurns || n == turn);
    var after := (n: nat, e: TurnEnd) =>
      Requests(e.state.trace) + turn == Requests(s.trace) + n + 1 && turn <= n < c.maxTurns;
    forall n: nat, t | n < c.maxTurns && before(n, t)
      ensures after(n, Turns(w, c)(n, t))
      ensures Requests(Turns(w, c)(n, t).state.trace) == Requests(t.trace) + 1
    {
      TurnCost(w, c, n, t);
    }
    RunInduction(Turns(w, c), c.maxTurns, turn, s, before, after);
  }

  /** An interrupted run's history never counts more turns as consumed than the run went through. */
  lemma {:induction false} ConsumedNeverOvercounts(w: World, c: Config, turn: nat, s: LoopState)
    requires TurnsConsumed(s.messages) <= turn
    ensures var o := RunFrom(w, c, turn, s); o.Interrupted? ==> TurnsConsumed(o.state.messages) <= o.turn
  {
    var before := (n: nat, t: LoopState) => TurnsConsumed(t.messages) <= n;
    var after := (n: nat, e: TurnEnd) => e.Broke? ==> TurnsConsumed(e.state.messages) <= n;
    forall n: nat, t | n < c.maxTurns && before(n, t)
      ensures after(n, Turns(w, c)(n, t))
      ensures Turns(w, c)(n, t).Going? ==> TurnsConsumed(Turns(w, c)(n, t).state.messages) <= n + 1
    {
      TurnCost(w, c, n, t);
    }
    RunInduction(Turns(w, c), c.maxTurns, turn, s, before, after);
  }
}
