/**
 Counting turns across an interruption: a resumed run counts the assistant
 messages since the last user message, while the loop itself injects user
 messages. These lemmas say exactly when the count is the number of turns used.
 */
module AgentLoopResume {
  import opened Prelude
  import opened Conversation
  import opened AgentLoop
  import opened AgentLoopProofs

  /** Assistant messages. */
  function Replies(ms: seq<Message>): nat {
    if ms == [] then 0 else Replies(ms[..|ms| - 1]) + (if ms[|ms| - 1].Assistant? then 1 else 0)
  }

  lemma {:induction false} RepliesSnoc(ms: seq<Message>, m: Message)
    ensures Replies(ms + [m]) == Replies(ms) + (if m.Assistant? then 1 else 0)
  {
    assert (ms + [m])[..|ms|] == ms;
  }

  lemma {:induction false} RepliesConcat(a: seq<Message>, b: seq<Message>)
    ensures Replies(a + b) == Replies(a) + Replies(b)
  {
    if b == [] {
      assert a + b == a;
    } else {
      var n := |b| - 1;
      RepliesConcat(a, b[..n]);
      RepliesSnoc(a + b[..n], b[n]);
      RepliesSnoc(b[..n], b[n]);
      assert a + b[..n] + [b[n]] == a + b && b[..n] + [b[n]] == b;
    }
  }

  lemma {:induction false} NoReplies(ms: seq<Message>)
    requires forall i :: 0 <= i < |ms| ==> !ms[i].Assistant?
    ensures Replies(ms) == 0
  {
    if ms != [] {
      NoReplies(ms[..|ms| - 1]);
    }
  }

  // ── One turn adds at most one reply, at the end of the history ───────────────

  /** `t` extends the history of `s` by `n` replies (and messages of others). */
  predicate Extends(s: LoopState, t: LoopState, n: nat) {
    s.messages <= t.messages && Replies(t.messages) == Replies(s.messages) + n
  }

  lemma {:induction false} PushExtends(s: LoopState, t: LoopState, m: Message)
    requires t.messages == s.messages + [m]
    ensures Extends(s, t, if m.Assistant? then 1 else 0)
  {
    RepliesSnoc(s.messages, m);
  }

  lemma {:induction false} ExtendsTwice(s: LoopState, t: LoopState, u: LoopState, m: nat, n: nat)
    requires Extends(s, t, m) && Extends(t, u, n)
    ensures Extends(s, u, m + n)
  {
  }

  lemma {:induction false} HeadExtends(w: World, c: Config, turn: nat, s: LoopState)
    ensures Extends(s, TurnHead(w, c, turn, s), 0)
  {
    var t := if w.hints(turn) != [] then Inject(w, s, Steering(w.hints(turn))) else s;
    if w.hints(turn) != [] {
      PushExtends(s, t, User(w.render(Steering(w.hints(turn))), []));
    }
    PushExtends(t, Inject(w, t, Budget(turn + 1, c.maxTurns)), User(w.render(Budget(turn + 1, c.maxTurns)), []));
  }

  lemma {:induction false} PressureExtends(w: World, c: Config, input: nat, s: LoopState)
    ensures Extends(s, ContextPressure(w, c, input, s), 0)
  {
    PushExtends(s, Inject(w, s, ContextCritical(input)), User(w.render(ContextCritical(input)), []));
    PushExtends(s, Inject(w, s, ContextHigh(input)), User(w.render(ContextHigh(input)), []));
  }

  lemma {:induction false} AntiLoopExtends(w: World, calls: seq<ToolCall>, s: LoopState)
    ensures Extends(s, AntiLoop(w, calls, s), 0)
  {
    var t := AntiLoop(w, calls, s);
    if t.messages != s.messages {
      var r := if t.streak >= EXPLORATION_HARD_LIMIT then Stop else Nudge(t.streak);
      PushExtends(s, t, User(w.render(r), []));
    }
  }

  lemma {:induction false} ToolsExtend(w: World, calls: seq<ToolCall>, slots: seq<Option<ToolOutput>>, s: LoopState,
                                       t: LoopState)
    requires |slots| == |calls| && t.messages == s.messages + ToolMessages(w, calls, slots)
    ensures Extends(s, t, 0)
  {
    NoReplies(ToolMessages(w, calls, slots));
    RepliesConcat(s.messages, ToolMessages(w, calls, slots));
  }

  lemma {:induction false} AfterToolsExtends(w: World, c: Config, turn: nat, reply: Reply, s: LoopState)
    ensures Extends(s, AfterTools(w, c, turn, reply, s).state, 1)
  {
    var asked := s.(messages := s.messages + [Assistant(reply.text, reply.calls)]);
    PushExtends(s, asked, Assistant(reply.text, reply.calls));
    SlotsKept(w, turn, reply.calls, asked);
    var x := ExecTurn(w, turn, reply.calls, asked);
    var t := asked.(pending := x.pending, filesRead := x.filesRead, trace := x.trace,
                    messages := asked.messages + ToolMessages(w, reply.calls, x.slots));
    ToolsExtend(w, reply.calls, x.slots, asked, t);
    ExtendsTwice(s, asked, t, 1, 0);
    if x.terminal.None? {
      var u := ContextPressure(w, c, reply.usage.input, t);
      PressureExtends(w, c, reply.usage.input, t);
      AntiLoopExtends(w, reply.calls, u);
    }
  }

  /** A turn that goes on adds exactly one reply to the history, one that the provider breaks none. */
  lemma {:induction false} TurnExtends(w: World, c: Config, turn: nat, s: LoopState)
    ensures var e := RunTurn(w, c, turn, s);
            Extends(s, e.state, if e.Going? || e.Final? then 1 else 0)
  {
    HeadExtends(w, c, turn, s);
    var h := TurnHead(w, c, turn, s);
    if w.reply(turn, h.messages).Ok? {
      var reply := w.reply(turn, h.messages).value;
      if reply.calls != [] {
        var a := h.(usage := AddUsage(h.usage, reply.usage), trace := h.trace + [Asked(turn)] + [Answered(turn)]);
        AfterToolsExtends(w, c, turn, reply, a);
      } else if h.pending != map[] {
        var a := h.(messages := h.messages + [Assistant(reply.text, [])]);
        PushExtends(h, a, Assistant(reply.text, []));
        PushExtends(a, Inject(w, a, VerifyEdits(h.pending.Keys)), User(w.render(VerifyEdits(h.pending.Keys)), []));
      }
    }
  }

  lemma {:induction false} RunStep(w: World, c: Config, turn: nat, s: LoopState)
    requires turn < c.maxTurns
    ensures RunTurn(w, c, turn, s).Going? ==>
              RunFrom(w, c, turn, s) == RunFrom(w, c, turn + 1, RunTurn(w, c, turn, s).state)
    ensures RunTurn(w, c, turn, s).Broke? ==>
              var e := RunTurn(w, c, turn, s);
              RunFrom(w, c, turn, s) == Interrupted(Provider(e.error), e.state, turn)
    ensures !RunTurn(w, c, turn, s).Going? && !RunTurn(w, c, turn, s).Broke? ==> RunFrom(w, c, turn, s).Answer?
  {
    assert Turns(w, c)(turn, s) == RunTurn(w, c, turn, s);
  }

  /** An interrupted run has added one reply per turn it went through. */
  lemma {:induction false} RunReplies(w: World, c: Config, turn: nat, s: LoopState)
    ensures var o := RunFrom(w, c, turn, s);
            o.Interrupted? ==> o.turn >= turn && Extends(s, o.state, o.turn - turn)
    decreases c.maxTurns - turn
  {
    if turn < c.maxTurns {
      var e := RunTurn(w, c, turn, s);
      TurnExtends(w, c, turn, s);
      RunStep(w, c, turn, s);
      if e.Going? {
        RunReplies(w, c, turn + 1, e.state);
      }
    }
  }

  // ── When the count is right ──────────────────────────────────────────────────

  /** No user message is appended after a turn that counts. */
  predicate NothingHidden(ms: seq<Message>, appended: seq<Message>) {
    forall i :: 0 <= i < |appended| && appended[i].User? ==> TurnsConsumed(ms) == 0 && Replies(appended[..i]) == 0
  }

  lemma {:induction false} HiddenSnoc(ms: seq<Message>, front: seq<Message>, m: Message)
    ensures NothingHidden(ms, front + [m]) <==>
              NothingHidden(ms, front) && (m.User? ==> TurnsConsumed(ms) == 0 && Replies(front) == 0)
  {
    var all := front + [m];
    assert all[..|front|] == front;
    forall i | 0 <= i < |front| ensures all[i] == front[i] && all[..i] == front[..i] {
    }
  }

  lemma {:induction false} CountExactly(ms: seq<Message>, appended: seq<Message>)
    ensures TurnsConsumed(ms + appended) <= TurnsConsumed(ms) + Replies(appended)
    ensures TurnsConsumed(ms + appended) == TurnsConsumed(ms) + Replies(appended) <==> NothingHidden(ms, appended)
  {
    if appended == [] {
      assert ms + appended == ms;
    } else {
      var n := |appended| - 1;
      var front, m := appended[..n], appended[n];
      assert front + [m] == appended && ms + front + [m] == ms + appended;
      CountExactly(ms, front);
      ConsumedSnoc(ms + front, m);
      RepliesSnoc(front, m);
      HiddenSnoc(ms, front, m);
    }
  }

  /**
   A run resumed from `ms` and interrupted leaves a history that counts the
   turns it went through exactly when it appended no user message after a turn
   that counts; otherwise it counts fewer.
   */
  lemma {:induction false} ResumedCountExactly(w: World, c: Config, ms: seq<Message>)
    ensures var o := RunFrom(w, c, TurnsConsumed(ms), Start(ms));
            o.Interrupted? ==>
              && ms <= o.state.messages
              && TurnsConsumed(o.state.messages) <= o.turn
              && (TurnsConsumed(o.state.messages) == o.turn <==> NothingHidden(ms, o.state.messages[|ms|..]))
  {
    var o := RunFrom(w, c, TurnsConsumed(ms), Start(ms));
    RunReplies(w, c, TurnsConsumed(ms), Start(ms));
    if o.Interrupted? {
      var appended := o.state.messages[|ms|..];
      assert o.state.messages == ms + appended;
      RepliesConcat(ms, appended);
      CountExactly(ms, appended);
    }
  }

  // ── A run that undercounts ───────────────────────────────────────────────────

  lemma {:induction false} NoFinish(w: World, turn: nat, calls: seq<ToolCall>, order: seq<nat>, x: Exec)
    requires Within(order, |calls|) && x.terminal.None? && forall i :: !w.hook(turn, i).Finish?
    ensures ExecAll(w, turn, calls, order, x).terminal.None?
  {
    if order != [] {
      NoFinish(w, turn, calls, order[..|order| - 1], x);
    }
  }

  lemma {:induction false} DispatchesNoFinish(w: World, turn: nat, calls: seq<ToolCall>, order: seq<nat>, x: Exec)
    requires Within(order, |calls|)
    ensures DispatchAll(w, turn, calls, order, x).terminal == x.terminal
  {
    if order != [] {
      DispatchesNoFinish(w, turn, calls, order[..|order| - 1], x);
    }
  }

  lemma {:induction false} ToolTurnGoesOn(w: World, c: Config, turn: nat, reply: Reply, s: LoopState)
    requires forall i :: !w.hook(turn, i).Finish?
    ensures AfterTools(w, c, turn, reply, s).Going?
  {
    var asked := s.(messages := s.messages + [Assistant(reply.text, reply.calls)]);
    SlotsKept(w, turn, reply.calls, asked);
    var x := Exec(EmptySlots(|reply.calls|), asked.pending, asked.filesRead, None, asked.trace);
    DispatchesNoFinish(w, turn, reply.calls, Concurrent(reply.calls), x);
    NoFinish(w, turn, reply.calls, OneByOne(reply.calls),
             DispatchAll(w, turn, reply.calls, Concurrent(reply.calls), x));
  }

  lemma {:induction false} ToolTurn(w: World, c: Config, turn: nat, s: LoopState, reply: Reply)
    requires reply.calls != [] && forall i :: !w.hook(turn, i).Finish?
    requires w.reply(turn, TurnHead(w, c, turn, s).messages) == Ok(reply)
    ensures RunTurn(w, c, turn, s).Going?
  {
    var h := TurnHead(w, c, turn, s);
    ToolTurnGoesOn(w, c, turn, reply, h.(usage := AddUsage(h.usage, reply.usage),
                                         trace := h.trace + [Asked(turn)] + [Answered(turn)]));
  }

  lemma {:induction false} HintedErrorTurn(w: World, c: Config, turn: nat, s: LoopState)
    requires w.hints(turn) != [] && w.reply(turn, TurnHead(w, c, turn, s).messages).Err?
    ensures RunTurn(w, c, turn, s).Broke? && TurnsConsumed(RunTurn(w, c, turn, s).state.messages) == 0
  {
    var t := Inject(w, s, Steering(w.hints(turn)));
    InjectCost(w, s, Steering(w.hints(turn)));
    InjectCost(w, t, Budget(turn + 1, c.maxTurns));
  }

  /** A tool turn, then a steering hint, then a provider error: the interrupted history counts no turn at all. */
  lemma {:induction false} HintThenError(w: World, c: Config, k: nat, next: nat, s: LoopState, reply: Reply,
                                         why: string)
    requires next == k + 1 < c.maxTurns && reply.calls != [] && w.hints(next) != []
    requires forall i :: !w.hook(k, i).Finish?
    requires forall ms :: w.reply(k, ms) == Ok(reply)
    requires forall ms :: w.reply(next, ms) == Err(why)
    ensures var o := RunFrom(w, c, k, s);
            o.Interrupted? && TurnsConsumed(o.state.messages) == 0 < o.turn == next
  {
    ToolTurn(w, c, k, s, reply);
    var t := RunTurn(w, c, k, s).state;
    RunStep(w, c, k, s);
    HintedErrorTurn(w, c, next, t);
    RunStep(w, c, next, t);
  }

  /** From every history some run is interrupted with a count below the turns it went through. */
  lemma {:induction false} SomeRunUndercounts(ms: seq<Message>) returns (w: World, c: Config)
    ensures var o := RunFrom(w, c, TurnsConsumed(ms), Start(ms));
            o.Interrupted? && TurnsConsumed(o.state.messages) < o.turn
  {
    var k := TurnsConsumed(ms);
    var reply := Reply("", [ToolCall("", "", "")], Usage(0, 0, 0, 0));
    w := World(
      n => if n == k + 1 then ["hint"] else [],
      (n, _) => if n == k then Ok(reply) else Err("connection reset"),
      (_, _) => Continue,
      (_, _) => ToolOutput("", []),
      _ => false, _ => None, (_, text) => text, _ => "", _ => "", (_, _) => 0);
    c := Config(k + 2, 0, 0);
    HintThenError(w, c, k, k + 1, Start(ms), reply, "connection reset");
  }

  // ── Edits across an interruption ─────────────────────────────────────────────

  /** A call of the loop on a history: the first, or a retry that resumes from a checkpoint. */
  function Leg(w: World, c: Config, messages: seq<Message>): Outcome {
    RunFrom(w, c, TurnsConsumed(messages), Start(messages))
  }

  /** Every successful edit of `path` is followed by a successful read of it. */
  predicate Verified(w: World, trace: seq<Act>, path: string) {
    forall j :: 0 <= j < |trace| && EditedOk(w, trace[j], path) ==>
      exists k :: j < k < |trace| && ReadOk(w, trace[k], path)
  }

  lemma {:induction false} TouchConcat(w: World, a: seq<Act>, b: seq<Act>, path: string)
    ensures LastTouch(w, a + b, path)
         == if LastTouch(w, b, path) == Untouched then LastTouch(w, a, path) else LastTouch(w, b, path)
  {
    if b == [] {
      assert a + b == a;
    } else {
      var n := |b| - 1;
      assert (a + b)[..|a + b| - 1] == a + b[..n] && (a + b)[|a + b| - 1] == b[n];
      TouchConcat(w, a, b[..n], path);
    }
  }

  /** A path last edited has an edit that no read follows. */
  lemma {:induction false} EditedLast(w: World, trace: seq<Act>, path: string) returns (j: nat)
    requires LastTouch(w, trace, path) == WasEdited
    ensures j < |trace| && EditedOk(w, trace[j], path)
    ensures forall k :: j < k < |trace| ==> !ReadOk(w, trace[k], path)
  {
    var n := |trace| - 1;
    if EditedOk(w, trace[n], path) {
      j := n;
    } else {
      j := EditedLast(w, trace[..n], path);
      forall k | j < k < |trace| ensures !ReadOk(w, trace[k], path) {
        assert k < n ==> trace[k] == trace[..n][k];
      }
    }
  }

  lemma {:induction false} VerifiedExactly(w: World, trace: seq<Act>, path: string)
    ensures Verified(w, trace, path) <==> LastTouch(w, trace, path) != WasEdited
  {
    TouchMeans(w, trace, path);
    if LastTouch(w, trace, path) == WasEdited {
      var j := EditedLast(w, trace, path);
    }
  }

  lemma {:induction false} UntouchedIsUnread(w: World, trace: seq<Act>, path: string, k: nat)
    requires k < |trace| && LastTouch(w, trace, path) == Untouched
    ensures !ReadOk(w, trace[k], path)
  {
    var n := |trace| - 1;
    if k < n {
      UntouchedIsUnread(w, trace[..n], path, k);
    }
  }

  /** The tables depend on the world only through the paths that arguments name. */
  lemma {:induction false} SameTouch(w: World, v: World, trace: seq<Act>, path: string)
    requires v.argPath == w.argPath
    ensures LastTouch(v, trace, path) == LastTouch(w, trace, path)
  {
    if trace != [] {
      SameTouch(w, v, trace[..|trace| - 1], path);
    }
  }

  /**
   A leg that was interrupted and a leg that resumes from its history and answers
   plainly: an edited path is verified over both exactly when the first leg owed no
   read of it, or the second reads it. The second leg starts with empty tables, so
   nothing makes it.
   */
  lemma {:induction false} ResumedAnswerExactly(w: World, v: World, c: Config, ms: seq<Message>, path: string)
    requires v.argPath == w.argPath && Leg(w, c, ms).Interrupted?
    requires var o := Leg(v, c, Leg(w, c, ms).state.messages); o.Answer? && o.plain
    ensures var first, second := Leg(w, c, ms).state, Leg(v, c, Leg(w, c, ms).state.messages).state;
            Verified(w, first.trace + second.trace, path) <==>
              || path !in first.pending
              || exists k :: 0 <= k < |second.trace| && ReadOk(w, second.trace[k], path)
  {
    var first := Leg(w, c, ms).state;
    var again := TurnsConsumed(first.messages);
    var second := RunFrom(v, c, again, Start(first.messages)).state;
    RunKeepsTables(w, c, TurnsConsumed(ms), Start(ms));
    RunKeepsTables(v, c, again, Start(first.messages));
    PlainMeansVerified(v, c, again, Start(first.messages));
    LegsTouch(w, v, first, second, path);
  }

  lemma {:induction false} LegsTouch(w: World, v: World, first: LoopState, second: LoopState, path: string)
    requires v.argPath == w.argPath && TablesOf(w, first) && TablesOf(v, second) && second.pending == map[]
    ensures Verified(w, first.trace + second.trace, path) <==>
              || path !in first.pending
              || exists k :: 0 <= k < |second.trace| && ReadOk(w, second.trace[k], path)
  {
    SameTouch(w, v, second.trace, path);
    assert path !in second.pending;
    TouchConcat(w, first.trace, second.trace, path);
    VerifiedExactly(w, first.trace + second.trace, path);
    TouchMeans(w, second.trace, path);
    if LastTouch(w, second.trace, path) == Untouched {
      forall k | 0 <= k < |second.trace| ensures !ReadOk(w, second.trace[k], path) {
        UntouchedIsUnread(w, second.trace, path, k);
      }
    }
  }

  /** A world in which the model answers at once, and nothing else is new. */
  function Answering(w: World, reply: Reply): World {
    w.(hints := (_: nat) => [], reply := (_: nat, _: seq<Message>) => Ok(reply))
  }

  lemma {:induction false} AnsweringTurn(w: World, c: Config, turn: nat, messages: seq<Message>, reply: Reply)
    requires turn < c.maxTurns && reply.calls == []
    ensures var o := RunFrom(Answering(w, reply), c, turn, Start(messages));
            o.Answer? && o.plain && o.state.trace == [Asked(turn), Answered(turn)]
  {
    var v := Answering(w, reply);
    assert Turns(v, c)(turn, Start(messages)) == RunTurn(v, c, turn, Start(messages));
    assert [] + [Asked(turn)] + [Answered(turn)] == [Asked(turn), Answered(turn)];
  }

  lemma {:induction false} OwedStaysUnread(w: World, first: LoopState, turn: nat, path: string)
    requires TablesOf(w, first) && path in first.pending
    ensures !Verified(w, first.trace + [Asked(turn), Answered(turn)], path)
  {
    var second := [Asked(turn), Answered(turn)];
    assert second[..1][..0] == [] && LastTouch(w, [], path) == Untouched;
    assert LastTouch(w, second[..1], path) == Untouched && LastTouch(w, second, path) == Untouched;
    TouchConcat(w, first.trace, second, path);
    VerifiedExactly(w, first.trace + second, path);
  }

  /** A provider error stops a run before the turn limit. */
  lemma {:induction false} BrokenInside(w: World, c: Config, turn: nat, s: LoopState)
    ensures var o := RunFrom(w, c, turn, s);
            o.Interrupted? && o.why.Provider? ==> o.turn < c.maxTurns
  {
    var after := (n: nat, e: TurnEnd) => n < c.maxTurns;
    RunInduction(Turns(w, c), c.maxTurns, turn, s, (n, t) => true, after);
  }

  lemma {:induction false} RoomToResume(w: World, c: Config, ms: seq<Message>)
    requires Leg(w, c, ms).Interrupted? && Leg(w, c, ms).why.Provider?
    ensures TurnsConsumed(Leg(w, c, ms).state.messages) < c.maxTurns
  {
    ConsumedNeverOvercounts(w, c, TurnsConsumed(ms), Start(ms));
    BrokenInside(w, c, TurnsConsumed(ms), Start(ms));
  }

  lemma {:induction false} LegTables(w: World, c: Config, ms: seq<Message>)
    ensures TablesOf(w, Leg(w, c, ms).state)
  {
    RunKeepsTables(w, c, TurnsConsumed(ms), Start(ms));
  }

  /** Whenever a leg breaks while it owes a read, some leg that resumes it answers plainly and never does that read. */
  lemma {:induction false} OwedReadsAreForgotten(w: World, c: Config, ms: seq<Message>, path: string) returns (v: World)
    requires Leg(w, c, ms).Interrupted? && Leg(w, c, ms).why.Provider? && path in Leg(w, c, ms).state.pending
    ensures v.argPath == w.argPath
    ensures var first := Leg(w, c, ms).state;
            var o := Leg(v, c, first.messages);
            && o.Answer? && o.plain && !Verified(w, first.trace + o.state.trace, path)
  {
    var first := Leg(w, c, ms).state;
    var reply := Reply("done", [], Usage(0, 0, 0, 0));
    v := Answering(w, reply);
    LegTables(w, c, ms);
    RoomToResume(w, c, ms);
    AnsweringTurn(w, c, TurnsConsumed(first.messages), first.messages, reply);
    OwedStaysUnread(w, first, TurnsConsumed(first.messages), path);
  }

  // ── A run that is interrupted while it owes a read ───────────────────────────

  /** A read of `path` and then an edit of it, when both go through, leave a read owed. */
  lemma {:induction false} ReadThenEdit(w: World, turn: nat, read: ToolCall, edit: ToolCall, x: Exec, path: string)
    requires x.terminal.None? && (forall i :: w.hook(turn, i).Continue?)
    requires forall i :: !w.isError(w.tool(turn, i).text)
    requires IsRead(read.name) && IsEdit(edit.name) && !IsEdit(read.name) && !IsRead(edit.name)
    requires w.argPath(read.args) == Some(path) == w.argPath(edit.args)
    ensures path in ExecCall(w, turn, edit, 1, ExecCall(w, turn, read, 0, x)).pending
  {
  }

  lemma {:induction false} InOrder(calls: seq<ToolCall>)
    requires |calls| == 2 && !IsParallelSafe(calls[0].name) && !IsParallelSafe(calls[1].name)
    ensures Concurrent(calls) == [] && OneByOne(calls) == [0, 1]
  {
    var flags := SafeFlags(calls);
    assert flags == [false, false];
    assert flags[..1] == [false] && [false][..0] == [];
    assert Indices([], true) == [] && Indices([], false) == [];
    assert Indices([false], true) == [] && Indices([false], false) == [0];
    assert Indices(flags, true) == [] && Indices(flags, false) == [0] + [1];
  }

  lemma {:induction false} BothExecuted(w: World, turn: nat, calls: seq<ToolCall>, x: Exec)
    requires |calls| == 2
    ensures Within([0, 1], |calls|)
    ensures ExecAll(w, turn, calls, [0, 1], x)
         == ExecCall(w, turn, calls[1], 1, ExecCall(w, turn, calls[0], 0, x))
  {
    assert [0, 1][..1] == [0] && [0][..0] == [];
    assert ExecAll(w, turn, calls, [], x) == x;
    assert ExecAll(w, turn, calls, [0], x) == ExecCall(w, turn, calls[0], 0, x);
  }

  predicate ReadAndEdit(w: World, calls: seq<ToolCall>, path: string) {
    && |calls| == 2 && IsRead(calls[0].name) && IsEdit(calls[1].name)
    && w.argPath(calls[0].args) == Some(path) == w.argPath(calls[1].args)
  }

  lemma {:induction false} NotBoth(name: string)
    requires IsRead(name) || IsEdit(name)
    ensures !IsParallelSafe(name) && !(IsRead(name) && IsEdit(name))
  {
    if IsParallelSafe(name) {
      ParallelSafeTouchesNoFiles(name);
    }
    EditIsNotRead(name);
  }

  lemma {:induction false} ReadEditTurn(w: World, turn: nat, calls: seq<ToolCall>, s: LoopState, path: string)
    requires ReadAndEdit(w, calls, path) && (forall i :: w.hook(turn, i).Continue?)
    requires forall i :: !w.isError(w.tool(turn, i).text)
    ensures path in ExecTurn(w, turn, calls, s).pending
  {
    var x := Exec(EmptySlots(|calls|), s.pending, s.filesRead, None, s.trace);
    NotBoth(calls[0].name);
    NotBoth(calls[1].name);
    InOrder(calls);
    BothExecuted(w, turn, calls, x);
    ReadThenEdit(w, turn, calls[0], calls[1], x, path);
  }

  lemma {:induction false} TailKeepsPending(w: World, c: Config, turn: nat, reply: Reply, s: LoopState)
    ensures var asked := s.(messages := s.messages + [Assistant(reply.text, reply.calls)]);
            AfterTools(w, c, turn, reply, s).state.pending == ExecTurn(w, turn, reply.calls, asked).pending
  {
    SlotsKept(w, turn, reply.calls, s.(messages := s.messages + [Assistant(reply.text, reply.calls)]));
  }

  lemma {:induction false} EditTurn(w: World, c: Config, turn: nat, s: LoopState, reply: Reply, path: string)
    requires ReadAndEdit(w, reply.calls, path) && (forall i :: w.hook(turn, i).Continue?)
    requires forall i :: !w.isError(w.tool(turn, i).text)
    requires w.reply(turn, TurnHead(w, c, turn, s).messages) == Ok(reply)
    ensures path in RunTurn(w, c, turn, s).state.pending && RunTurn(w, c, turn, s).Going?
  {
    var h := TurnHead(w, c, turn, s);
    var a := h.(usage := AddUsage(h.usage, reply.usage), trace := h.trace + [Asked(turn)] + [Answered(turn)]);
    TailKeepsPending(w, c, turn, reply, a);
    ReadEditTurn(w, turn, reply.calls, a.(messages := a.messages + [Assistant(reply.text, reply.calls)]), path);
    ToolTurn(w, c, turn, s, reply);
  }

  lemma {:induction false} ErrorKeepsPending(w: World, c: Config, turn: nat, s: LoopState)
    requires w.reply(turn, TurnHead(w, c, turn, s).messages).Err?
    ensures RunTurn(w, c, turn, s).Broke? && RunTurn(w, c, turn, s).state.pending == s.pending
  {
  }

  /** A turn that reads and edits a path, then a provider error: the run ends owing the read. */
  lemma {:induction false} EditThenError(w: World, c: Config, k: nat, next: nat, s: LoopState, reply: Reply,
                                         path: string)
    requires next == k + 1 < c.maxTurns && ReadAndEdit(w, reply.calls, path)
    requires (forall i :: w.hook(k, i).Continue?) && forall i :: !w.isError(w.tool(k, i).text)
    requires (forall ms :: w.reply(k, ms) == Ok(reply)) && forall ms :: w.reply(next, ms).Err?
    ensures var o := RunFrom(w, c, k, s);
            o.Interrupted? && o.why.Provider? && path in o.state.pending
  {
    EditTurn(w, c, k, s, reply, path);
    var t := RunTurn(w, c, k, s).state;
    RunStep(w, c, k, s);
    ErrorKeepsPending(w, c, next, t);
    RunStep(w, c, next, t);
  }

  /** From every history: an edit in a leg that breaks, a plain answer in the leg that resumes it, no read between. */
  lemma {:induction false} SomeEditStaysUnread(ms: seq<Message>, path: string) returns (w: World, v: World, c: Config)
    ensures v.argPath == w.argPath && Leg(w, c, ms).Interrupted?
    ensures var first := Leg(w, c, ms).state;
            var o := Leg(v, c, first.messages);
            && o.Answer? && o.plain && !Verified(w, first.trace + o.state.trace, path)
  {
    var k := TurnsConsumed(ms);
    var reply := Reply("", [ToolCall("r", "code_read", ""), ToolCall("e", "code_edit", "")], Usage(0, 0, 0, 0));
    w := World(
      _ => [],
      (n, _) => if n == k then Ok(reply) else Err("connection reset"),
      (_, _) => Continue,
      (_, _) => ToolOutput("", []),
      _ => false, _ => Some(path), (_, text) => text, _ => "", _ => "", (_, _) => 0);
    c := Config(k + 2, 0, 0);
    EditThenError(w, c, k, k + 1, Start(ms), reply, path);
    v := OwedReadsAreForgotten(w, c, ms, path);
  }
}
