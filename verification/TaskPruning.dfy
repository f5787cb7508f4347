/**
 Pruning and replay. A recording prunes before it applies its event, a load
 prunes after replaying everything: these lemmas say exactly when both give
 the same list, and that a crash between the steps of a recording is harmless.
 */
module TaskPruning {
  import opened Prelude
  import opened Tasks
  import opened TaskNormal

  /** The by-id update of the (first) task with `id`, as a function on lists. */
  function Replaced(ts: seq<AgentTask>, id: string, t: AgentTask): seq<AgentTask> {
    var i := IndexOf(ts, id);
    if i == |ts| then ts else ts[i := t]
  }

  /** Replacing looks from the back as well as from the front when ids are unique. */
  lemma {:induction false} ReplacedSnoc(front: seq<AgentTask>, last: AgentTask, id: string, t: AgentTask)
    requires !Holds(front, last.id)
    ensures Replaced(front + [last], id, t) == if last.id == id then front + [t] else Replaced(front, id, t) + [last]
  {
    IndexOfSnoc(front, last, id);
    IndexOfHolds(front, id);
  }

  lemma {:induction false} KeepMembers(ts: seq<AgentTask>, cap: nat)
    ensures forall t :: t in KeepTerminal(ts, cap) ==> t in ts
    ensures forall t :: t in ts && !IsTerminal(t.state) ==> t in KeepTerminal(ts, cap)
  {
    if ts != [] {
      var front, last := ts[..|ts| - 1], ts[|ts| - 1];
      KeepMembers(front, if IsTerminal(last.state) && cap > 0 then cap - 1 else cap);
      assert ts == front + [last];
    }
  }

  lemma {:induction false} KeepUnique(ts: seq<AgentTask>, cap: nat)
    requires UniqueIds(ts)
    ensures UniqueIds(KeepTerminal(ts, cap))
  {
    if ts != [] {
      var front, last := ts[..|ts| - 1], ts[|ts| - 1];
      var c := if IsTerminal(last.state) && cap > 0 then cap - 1 else cap;
      assert ts == front + [last];
      UniqueSnoc(front, last);
      KeepUnique(front, c);
      KeepMembers(front, c);
      UniqueSnoc(KeepTerminal(front, c), last);
    }
  }

  lemma {:induction false} TerminalsSnoc(front: seq<AgentTask>, last: AgentTask)
    ensures Terminals(front + [last]) == Terminals(front) + (if IsTerminal(last.state) then 1 else 0)
  {
    assert (front + [last])[..|front|] == front;
  }

  lemma {:induction false} KeepCount(ts: seq<AgentTask>, cap: nat)
    ensures Terminals(KeepTerminal(ts, cap)) == if Terminals(ts) <= cap then Terminals(ts) else cap
    ensures Terminals(ts) <= cap ==> KeepTerminal(ts, cap) == ts
  {
    if ts != [] {
      var front, last := ts[..|ts| - 1], ts[|ts| - 1];
      var c := if IsTerminal(last.state) && cap > 0 then cap - 1 else cap;
      assert ts == front + [last];
      KeepCount(front, c);
      TerminalsSnoc(KeepTerminal(front, c), last);
    }
  }

  lemma {:induction false} KeepTwice(ts: seq<AgentTask>, cap: nat, fewer: nat)
    requires fewer <= cap
    ensures KeepTerminal(KeepTerminal(ts, cap), fewer) == KeepTerminal(ts, fewer)
  {
    if ts != [] {
      var front, last := ts[..|ts| - 1], ts[|ts| - 1];
      if !IsTerminal(last.state) {
        KeepTwice(front, cap, fewer);
        KeepSnoc(KeepTerminal(front, cap), last, fewer);
      } else if cap == 0 {
        KeepTwice(front, 0, 0);
      } else {
        KeepTwice(front, cap - 1, if fewer == 0 then 0 else fewer - 1);
        KeepSnoc(KeepTerminal(front, cap - 1), last, fewer);
      }
    }
  }

  /** How many tasks from position `n` on are completed, failed or canceled. */
  function EndedFrom(ts: seq<AgentTask>, n: nat): nat
    decreases |ts| - n
  {
    if n >= |ts| then 0
    else
      var s := ts[n].state;
      EndedFrom(ts, n + 1) + (if s == Completed || s == Failed || s == Canceled then 1 else 0)
  }

  /** Of the first `n` tasks those that are open or have fewer than `cap` ended tasks after them, in order. */
  function Newest(ts: seq<AgentTask>, n: nat, cap: nat): seq<AgentTask>
    requires n <= |ts|
  {
    if n == 0 then []
    else
      var s := ts[n - 1].state;
      var open := s == Submitted || s == Working || s == InputRequired;
      Newest(ts, n - 1, cap) + (if open || EndedFrom(ts, n) < cap then [ts[n - 1]] else [])
  }

  lemma {:induction false} KeepIsNewest(ts: seq<AgentTask>, n: nat, cap: nat)
    requires n <= |ts|
    ensures KeepTerminal(ts[..n], if EndedFrom(ts, n) < cap then cap - EndedFrom(ts, n) else 0) == Newest(ts, n, cap)
  {
    if n > 0 {
      KeepIsNewest(ts, n - 1, cap);
      assert ts[..n] == ts[..n - 1] + [ts[n - 1]];
      KeepSnoc(ts[..n - 1], ts[n - 1], if EndedFrom(ts, n) < cap then cap - EndedFrom(ts, n) else 0);
    }
  }

  /** Pruning keeps, in order, the open tasks and those with fewer than a hundred ended tasks after them. */
  lemma {:induction false} PruneMeans(ts: seq<AgentTask>)
    ensures Prune(ts) == Newest(ts, |ts|, 100)
  {
    KeepIsNewest(ts, |ts|, 100);
    assert ts[..|ts|] == ts;
  }

  /** Pruning a list that was just pruned changes nothing. */
  lemma {:induction false} PruneIdempotent(ts: seq<AgentTask>)
    ensures Prune(Prune(ts)) == Prune(ts)
  {
    KeepTwice(ts, MAX_TERMINAL_TASKS, MAX_TERMINAL_TASKS);
  }

  lemma {:induction false} KeepSnoc(front: seq<AgentTask>, last: AgentTask, cap: nat)
    ensures KeepTerminal(front + [last], cap) ==
      if !IsTerminal(last.state) then KeepTerminal(front, cap) + [last]
      else if cap == 0 then KeepTerminal(front, 0)
      else KeepTerminal(front, cap - 1) + [last]
  {
    assert (front + [last])[..|front|] == front;
  }

  /** An update that does not reopen a terminal task commutes with pruning. */
  lemma {:induction false} ReplaceCommutes(ts: seq<AgentTask>, id: string, t: AgentTask, cap: nat, fewer: nat)
    requires UniqueIds(ts) && fewer <= cap && t.id == id
    requires forall x :: x in ts && x.id == id && IsTerminal(x.state) ==> IsTerminal(t.state)
    ensures KeepTerminal(Replaced(KeepTerminal(ts, cap), id, t), fewer) == KeepTerminal(Replaced(ts, id, t), fewer)
  {
    if ts != [] {
      var front, last := ts[..|ts| - 1], ts[|ts| - 1];
      assert ts == front + [last];
      var dropped := IsTerminal(last.state) && cap == 0;
      var c := if IsTerminal(last.state) && cap > 0 then cap - 1 else cap;
      var kept := KeepTerminal(front, c);
      KeepMembers(front, c);
      ReplacedSnoc(front, last, id, t);
      if !dropped {
        ReplacedSnoc(kept, last, id, t);
      }
      if last.id == id {
        AbsentReplace(kept, id, t);
        KeepSnoc(front, t, fewer);
        KeepSnoc(kept, t, fewer);
        KeepTwice(front, c, if IsTerminal(t.state) && fewer > 0 then fewer - 1 else if fewer <= c then fewer else c);
      } else {
        var f := if IsTerminal(last.state) && fewer > 0 then fewer - 1 else fewer;
        ReplaceCommutes(front, id, t, c, f);
        KeepSnoc(Replaced(front, id, t), last, fewer);
        KeepSnoc(Replaced(kept, id, t), last, fewer);
      }
    }
  }

  lemma {:induction false} AbsentReplace(ts: seq<AgentTask>, id: string, t: AgentTask)
    requires !Holds(ts, id)
    ensures Replaced(ts, id, t) == ts
  {
    IndexOfHolds(ts, id);
  }

  lemma {:induction false} KeepNone(ts: seq<AgentTask>)
    ensures forall t :: t in KeepTerminal(ts, 0) ==> !IsTerminal(t.state)
  {
    if ts != [] {
      KeepNone(ts[..|ts| - 1]);
    }
  }

  lemma {:induction false} WithoutSnoc(front: seq<AgentTask>, last: AgentTask, id: string)
    ensures Without(front + [last], id) == if last.id == id then Without(front, id) else Without(front, id) + [last]
  {
    assert (front + [last])[..|front|] == front;
  }

  /** Taking an id out commutes with pruning, unless it frees a slot that pruning had given away. */
  lemma {:induction false} WithoutCommutes(ts: seq<AgentTask>, id: string, cap: nat, fewer: nat)
    requires UniqueIds(ts) && fewer <= cap
    requires fewer < cap || forall x :: x in KeepTerminal(ts, cap) && x.id == id ==> !IsTerminal(x.state)
    ensures KeepTerminal(Without(KeepTerminal(ts, cap), id), fewer) == KeepTerminal(Without(ts, id), fewer)
  {
    if ts != [] {
      var front, last := ts[..|ts| - 1], ts[|ts| - 1];
      var c := if IsTerminal(last.state) && cap > 0 then cap - 1 else cap;
      var kept := KeepTerminal(front, c);
      WithoutSnoc(kept, last, id);
      if last.id == id {
        KeepMembers(front, c);
        assert !Holds(kept, id);
        KeepUnique(front, c);
        WithoutUnique(front, id);
        WithoutUnique(kept, id);
        if IsTerminal(last.state) && cap > 0 {
          assert last in KeepTerminal(ts, cap);
        }
        KeepTwice(front, c, fewer);
      } else {
        var f := if IsTerminal(last.state) && fewer > 0 then fewer - 1 else fewer;
        KeepNone(front);
        WithoutCommutes(front, id, c, f);
        KeepSnoc(Without(front, id), last, fewer);
        KeepSnoc(Without(kept, id), last, fewer);
      }
    }
  }

  lemma {:induction false} LookupLast(front: seq<AgentTask>, last: AgentTask, id: string)
    requires !Holds(front, last.id)
    ensures Lookup(front + [last], id) == if last.id == id then Some(last) else Lookup(front, id)
    ensures Lookup(front, last.id) == None
  {
    IndexOfSnoc(front, last, id);
    IndexOfHolds(front, id);
    IndexOfHolds(front, last.id);
  }

  /** 1 for a terminal task, 0 for an open or absent one. */
  function Weight(t: Option<AgentTask>): nat {
    if t.Some? && IsTerminal(t.value.state) then 1 else 0
  }

  lemma {:induction false} ReplacedCount(ts: seq<AgentTask>, id: string, t: AgentTask)
    requires UniqueIds(ts) && t.id == id && Lookup(ts, id).Some?
    ensures Terminals(Replaced(ts, id, t)) + Weight(Lookup(ts, id)) == Terminals(ts) + Weight(Some(t))
  {
    var front, last := ts[..|ts| - 1], ts[|ts| - 1];
    assert ts == front + [last];
    ReplacedSnoc(front, last, id, t);
    LookupLast(front, last, id);
    if last.id == id {
      TerminalsSnoc(front, t);
    } else {
      ReplacedCount(front, id, t);
      TerminalsSnoc(Replaced(front, id, t), last);
    }
  }

  lemma {:induction false} WithoutCount(ts: seq<AgentTask>, id: string)
    requires UniqueIds(ts)
    ensures Terminals(Without(ts, id)) + Weight(Lookup(ts, id)) == Terminals(ts)
  {
    if ts != [] {
      var front, last := ts[..|ts| - 1], ts[|ts| - 1];
      assert ts == front + [last];
      LookupLast(front, last, id);
      WithoutCount(front, id);
      TerminalsSnoc(Without(front, id), last);
    }
  }

  /** Pruning never changes what an id stands for; it may only forget a terminal task. */
  lemma {:induction false} KeptLookup(ts: seq<AgentTask>, id: string, cap: nat)
    requires UniqueIds(ts)
    ensures UniqueIds(KeepTerminal(ts, cap))
    ensures Lookup(KeepTerminal(ts, cap), id) == None || Lookup(KeepTerminal(ts, cap), id) == Lookup(ts, id)
    ensures Lookup(ts, id).Some? && !IsTerminal(Lookup(ts, id).value.state) ==>
              Lookup(KeepTerminal(ts, cap), id) == Lookup(ts, id)
  {
    var kept := KeepTerminal(ts, cap);
    KeepUnique(ts, cap);
    KeepMembers(ts, cap);
    if Lookup(kept, id).Some? {
      UniqueMember(ts, Lookup(kept, id).value);
    }
    if Lookup(ts, id).Some? && !IsTerminal(Lookup(ts, id).value.state) {
      assert Lookup(ts, id).value in ts;
      UniqueMember(kept, Lookup(ts, id).value);
    }
  }

  lemma {:induction false} ReopenKept(ts: seq<AgentTask>, u: AgentTask, cap: nat)
    requires UniqueIds(ts) && Terminals(ts) > cap && !IsTerminal(u.state)
    requires Weight(Lookup(KeepTerminal(ts, cap), u.id)) == Weight(Lookup(ts, u.id)) == 1
    ensures Terminals(KeepTerminal(Replaced(KeepTerminal(ts, cap), u.id, u), cap)) < cap
    ensures Terminals(KeepTerminal(Replaced(ts, u.id, u), cap)) == cap
  {
    var kept := KeepTerminal(ts, cap);
    KeepCount(ts, cap);
    KeepUnique(ts, cap);
    ReplacedCount(ts, u.id, u);
    ReplacedCount(kept, u.id, u);
    KeepCount(Replaced(ts, u.id, u), cap);
    KeepCount(Replaced(kept, u.id, u), cap);
  }

  lemma {:induction false} ReopenDropped(ts: seq<AgentTask>, u: AgentTask, cap: nat)
    requires Lookup(ts, u.id).Some? && !IsTerminal(u.state)
    requires Lookup(KeepTerminal(ts, cap), u.id) == None
    ensures u !in KeepTerminal(Replaced(KeepTerminal(ts, cap), u.id, u), cap)
    ensures u in KeepTerminal(Replaced(ts, u.id, u), cap)
  {
    var kept := KeepTerminal(ts, cap);
    IndexOfHolds(kept, u.id);
    assert Replaced(kept, u.id, u) == kept;
    KeepMembers(kept, cap);
    assert u in Replaced(ts, u.id, u) by {
      assert Replaced(ts, u.id, u)[IndexOf(ts, u.id)] == u;
    }
    KeepMembers(Replaced(ts, u.id, u), cap);
  }

  /** Replacing a task commutes with pruning unless it reopens a terminal task above the cap. */
  lemma {:induction false} ReplaceExact(ts: seq<AgentTask>, u: AgentTask, cap: nat)
    requires UniqueIds(ts) && Lookup(ts, u.id).Some?
    ensures KeepTerminal(Replaced(KeepTerminal(ts, cap), u.id, u), cap) == KeepTerminal(Replaced(ts, u.id, u), cap)
       <==> !(Terminals(ts) > cap && Weight(Lookup(ts, u.id)) > Weight(Some(u)))
  {
    if Weight(Lookup(ts, u.id)) <= Weight(Some(u)) {
      forall x | x in ts && x.id == u.id ensures Lookup(ts, u.id) == Some(x) {
        UniqueMember(ts, x);
      }
      ReplaceCommutes(ts, u.id, u, cap, cap);
    } else if Terminals(ts) <= cap {
      KeepCount(ts, cap);
    } else {
      KeptLookup(ts, u.id, cap);
      if Lookup(KeepTerminal(ts, cap), u.id) == None {
        ReopenDropped(ts, u, cap);
      } else {
        ReopenKept(ts, u, cap);
      }
    }
  }

  lemma {:induction false} RecreateKept(ts: seq<AgentTask>, id: string, cap: nat)
    requires UniqueIds(ts) && Terminals(ts) > cap && Weight(Lookup(KeepTerminal(ts, cap), id)) == 1
    ensures Terminals(KeepTerminal(Without(KeepTerminal(ts, cap), id), cap)) < cap
    ensures Terminals(KeepTerminal(Without(ts, id), cap)) == cap
  {
    var kept := KeepTerminal(ts, cap);
    KeptLookup(ts, id, cap);
    KeepCount(ts, cap);
    WithoutCount(ts, id);
    WithoutCount(kept, id);
    KeepCount(Without(ts, id), cap);
    KeepCount(Without(kept, id), cap);
  }

  lemma {:induction false} KeepAlike(a: seq<AgentTask>, b: seq<AgentTask>, n: AgentTask, cap: nat)
    requires var c := if IsTerminal(n.state) && cap > 0 then cap - 1 else cap;
             KeepTerminal(a, c) == KeepTerminal(b, c)
    ensures KeepTerminal(a + [n], cap) == KeepTerminal(b + [n], cap)
  {
    KeepSnoc(a, n, cap);
    KeepSnoc(b, n, cap);
  }

  /** Both ways of creating `n`: into the pruned list, and into the whole one. */
  lemma {:induction false} CreateTerminal(ts: seq<AgentTask>, n: AgentTask, cap: nat)
    requires UniqueIds(ts) && cap > 0 && IsTerminal(n.state)
    ensures KeepTerminal(Without(KeepTerminal(ts, cap), n.id) + [n], cap) == KeepTerminal(Without(ts, n.id) + [n], cap)
  {
    var kept := KeepTerminal(ts, cap);
    WithoutCommutes(ts, n.id, cap, cap - 1);
    KeepAlike(Without(kept, n.id), Without(ts, n.id), n, cap);
  }

  lemma {:induction false} CreateOpen(ts: seq<AgentTask>, n: AgentTask, cap: nat)
    requires UniqueIds(ts) && !IsTerminal(n.state) && Weight(Lookup(KeepTerminal(ts, cap), n.id)) == 0
    ensures KeepTerminal(Without(KeepTerminal(ts, cap), n.id) + [n], cap) == KeepTerminal(Without(ts, n.id) + [n], cap)
  {
    var kept := KeepTerminal(ts, cap);
    KeepUnique(ts, cap);
    forall x | x in kept && x.id == n.id ensures !IsTerminal(x.state) {
      UniqueMember(kept, x);
    }
    WithoutCommutes(ts, n.id, cap, cap);
    KeepAlike(Without(kept, n.id), Without(ts, n.id), n, cap);
  }

  lemma {:induction false} CreateOverKept(ts: seq<AgentTask>, n: AgentTask, cap: nat)
    requires UniqueIds(ts) && !IsTerminal(n.state) && Terminals(ts) > cap
    requires Weight(Lookup(KeepTerminal(ts, cap), n.id)) == 1
    ensures KeepTerminal(Without(KeepTerminal(ts, cap), n.id) + [n], cap) != KeepTerminal(Without(ts, n.id) + [n], cap)
  {
    var kept := KeepTerminal(ts, cap);
    KeepSnoc(Without(ts, n.id), n, cap);
    KeepSnoc(Without(kept, n.id), n, cap);
    RecreateKept(ts, n.id, cap);
    TerminalsSnoc(KeepTerminal(Without(kept, n.id), cap), n);
    TerminalsSnoc(KeepTerminal(Without(ts, n.id), cap), n);
  }

  /** Re-creating an id commutes with pruning unless it trades a kept terminal task above the cap for an open one. */
  lemma {:induction false} CreateExact(ts: seq<AgentTask>, n: AgentTask, cap: nat)
    requires UniqueIds(ts) && cap > 0
    ensures KeepTerminal(Without(KeepTerminal(ts, cap), n.id) + [n], cap) == KeepTerminal(Without(ts, n.id) + [n], cap)
       <==> !(Terminals(ts) > cap && Weight(Lookup(KeepTerminal(ts, cap), n.id)) > Weight(Some(n)))
  {
    if IsTerminal(n.state) {
      CreateTerminal(ts, n, cap);
    } else if Weight(Lookup(KeepTerminal(ts, cap), n.id)) == 0 {
      CreateOpen(ts, n, cap);
    } else if Terminals(ts) <= cap {
      KeepCount(ts, cap);
    } else {
      CreateOverKept(ts, n, cap);
    }
  }

  // ── When recording and reloading agree ───────────────────────────────────────

  /**
   The events on which pruning first and pruning last part ways. All need more
   terminal tasks than the cap: an update that reopens a terminal task, an update
   with an unreadable state name aimed at a task pruning has dropped, or an open
   task created under the id of a terminal task that pruning has kept.
   */
  predicate Disturbs(ts: seq<AgentTask>, e: Event) {
    && Terminals(ts) > MAX_TERMINAL_TASKS
    && match e
       case StateUpdated(id, name, _, _, _) =>
         && Weight(Lookup(ts, id)) == 1
         && (match ParseState(name)
             case None => Lookup(Prune(ts), id) == None
             case Some(state) => !IsTerminal(state))
       case Created(Some(task)) =>
         !IsTerminal(task.state) && Weight(Lookup(Prune(ts), task.id)) == 1
       case _ => false
  }

  lemma {:induction false} UpdateOutcome(t: AgentTask, e: Event)
    requires ById(e)
    ensures Updated(t, e) == None <==> e.StateUpdated? && ParseState(e.state) == None
    ensures Updated(t, e).Some? ==>
              && Updated(t, e).value.id == t.id
              && Updated(t, e).value.state == if e.StateUpdated? then ParseState(e.state).value else t.state
  {
  }

  lemma {:induction false} ApplyById(ts: seq<AgentTask>, e: Event)
    requires ById(e)
    ensures Lookup(ts, e.id) == None ==> Apply(ts, e) == Some(ts)
    ensures forall t :: Lookup(ts, e.id) == Some(t) ==>
              Apply(ts, e) == match Updated(t, e) case None => None case Some(u) => Some(Replaced(ts, e.id, u))
  {
  }

  /** The by-id events, on a task that the whole list knows. */
  lemma {:induction false} UpdateExact(ts: seq<AgentTask>, e: Event, t: AgentTask)
    requires UniqueIds(ts) && ById(e) && Lookup(ts, e.id) == Some(t)
    ensures PruneResult(Apply(Prune(ts), e)) == PruneResult(Apply(ts, e)) <==> !Disturbs(ts, e)
  {
    var cap := MAX_TERMINAL_TASKS;
    KeepCount(ts, cap);
    KeptLookup(ts, e.id, cap);
    PruneIdempotent(ts);
    ApplyById(ts, e);
    ApplyById(Prune(ts), e);
    UpdateOutcome(t, e);
    if Updated(t, e).Some? {
      ReplaceExact(ts, Updated(t, e).value, cap);
    }
  }

  /** An event that addresses no task changes nothing, pruned or not. */
  lemma {:induction false} UpdateNothing(ts: seq<AgentTask>, e: Event)
    requires UniqueIds(ts) && ById(e) && Lookup(ts, e.id) == None
    ensures PruneResult(Apply(Prune(ts), e)) == PruneResult(Apply(ts, e)) && !Disturbs(ts, e)
  {
    KeptLookup(ts, e.id, MAX_TERMINAL_TASKS);
    PruneIdempotent(ts);
    ApplyById(ts, e);
    ApplyById(Prune(ts), e);
  }

  /**
   Pruning commutes with an event exactly when the event does not disturb:
   pruning before and after it gives what pruning only after it gives.
   */
  lemma {:induction false} PruningCommutes(ts: seq<AgentTask>, e: Event)
    requires UniqueIds(ts)
    ensures PruneResult(Apply(Prune(ts), e)) == PruneResult(Apply(ts, e)) <==> !Disturbs(ts, e)
  {
    if ById(e) {
      if Lookup(ts, e.id).Some? {
        UpdateExact(ts, e, Lookup(ts, e.id).value);
      } else {
        UpdateNothing(ts, e);
      }
    } else if e.Created? && e.task.Some? {
      CreateExact(ts, Normalize(e.task.value), MAX_TERMINAL_TASKS);
    }
  }

  // ── The files ────────────────────────────────────────────────────────────────

  /** What the journal of (seeded) files replays to, before pruning. */
  function Replayed(f: Files): Option<seq<AgentTask>> {
    Replay([], Events(Seeded(f)))
  }

  lemma {:induction false} LoadOfJournal(f: Files)
    requires Events(f) != []
    ensures Load(f) == PruneResult(Replay([], Events(f)))
  {
    if Replay([], Events(f)).Some? {
      ReplayKeepsNormal([], Events(f));
    }
  }

  lemma {:induction false} LoadOfSeeded(f: Files)
    requires f.journal != Some([])
    ensures Load(Seeded(f)) == PruneResult(Replayed(f))
  {
    if Events(Seeded(f)) != [] {
      LoadOfJournal(Seeded(f));
    }
  }

  // ── An existing but empty journal ────────────────────────────────────────────

  /**
   The recordings that lose tasks: the journal file exists but is empty, so it
   is not seeded, and the snapshot beside it holds a task that the event does not
   replace.
   */
  predicate Forgets(f: Files, e: Event) {
    && f.journal == Some([]) && f.snapshot.Some? && f.snapshot.value.Some?
    && match e
       case Snapshot(_) => false
       case Created(Some(task)) => Without(f.snapshot.value.value, task.id) != []
       case _ => f.snapshot.value.value != []
  }

  lemma {:induction false} KeepSome(ts: seq<AgentTask>, cap: nat)
    requires cap > 0
    ensures KeepTerminal(ts, cap) == [] <==> ts == []
  {
  }

  /** Pruning leaves a single task alone exactly when nothing comes before it. */
  lemma {:induction false} KeepOnly(front: seq<AgentTask>, n: AgentTask)
    ensures Prune(front + [n]) == [n] <==> front == []
  {
    var c := if IsTerminal(n.state) then MAX_TERMINAL_TASKS - 1 else MAX_TERMINAL_TASKS;
    KeepSnoc(front, n, MAX_TERMINAL_TASKS);
    KeepSome(front, c);
    if Prune(front + [n]) == [n] {
      assert |KeepTerminal(front, c)| == 0;
    }
  }

  lemma {:induction false} WithoutNormalized(ts: seq<AgentTask>, id: string)
    ensures |Without(NormalizeAll(ts), id)| == |Without(ts, id)|
  {
    if ts != [] {
      var front := ts[..|ts| - 1];
      WithoutNormalized(front, id);
      assert NormalizeAll(ts)[..|ts| - 1] == NormalizeAll(front);
    }
  }

  lemma {:induction false} LoadOfFirst(f: Files, e: Event)
    requires f.journal == Some([]) && Prepared(f, e).Some?
    ensures Load(f).Some? && Recorded(f, e).snapshot == Some(PruneResult(Apply(Load(f).value, e)))
    ensures Load(Recorded(f, e)) == PruneResult(Apply([], e))
  {
    assert Events(Recorded(f, e)) == [e] && [e][..0] == [];
    LoadOfJournal(Recorded(f, e));
  }

  lemma {:induction false} ByIdKeepsLength(ts: seq<AgentTask>, e: Event)
    requires ById(e) && Apply(ts, e).Some?
    ensures |Apply(ts, e).value| == |ts|
  {
  }

  lemma {:induction false} KnownBeside(f: Files)
    requires f.journal == Some([]) && Load(f).Some?
    ensures Load(f).value == if f.snapshot.Some? then NormalizeAll(f.snapshot.value.value) else []
  {
  }

  lemma {:induction false} UpdateForgets(known: seq<AgentTask>, e: Event)
    requires ById(e) && Apply(known, e).Some?
    ensures PruneResult(Apply(known, e)) == PruneResult(Apply([], e)) <==> known == []
  {
    var after := Apply(known, e).value;
    ByIdKeepsLength(known, e);
    KeepSome(after, MAX_TERMINAL_TASKS);
    assert Apply([], e) == Some([]);
  }

  lemma {:induction false} CreateForgets(known: seq<AgentTask>, task: AgentTask)
    ensures PruneResult(Apply(known, Created(Some(task)))) == PruneResult(Apply([], Created(Some(task))))
       <==> Without(known, task.id) == []
  {
    var n := Normalize(task);
    KeepOnly(Without(known, task.id), n);
    KeepOnly(Without([], task.id), n);
    assert Without([], task.id) == [];
  }

  /** Forgetting, in terms of the tasks that were loaded. */
  lemma {:induction false} ForgetsLoaded(f: Files, e: Event)
    requires f.journal == Some([]) && Load(f).Some?
    ensures ById(e) ==> (Forgets(f, e) <==> Load(f).value != [])
    ensures e.Created? && e.task.Some? ==> (Forgets(f, e) <==> Without(Load(f).value, e.task.value.id) != [])
  {
    KnownBeside(f);
    if e.Created? && e.task.Some? {
      if f.snapshot.Some? {
        WithoutNormalized(f.snapshot.value.value, e.task.value.id);
      } else {
        assert Without([], e.task.value.id) == [];
      }
    }
  }

  /** Beside an empty journal, snapshot and journal agree after a recording exactly when it forgets nothing. */
  lemma {:induction false} EmptyJournalExactly(f: Files, e: Event)
    requires f.journal == Some([]) && Prepared(f, e).Some?
    ensures Recorded(f, e).snapshot == Some(Load(Recorded(f, e))) <==> !Forgets(f, e)
  {
    LoadOfFirst(f, e);
    ForgetsLoaded(f, e);
    if ById(e) {
      UpdateForgets(Load(f).value, e);
    } else if e.Created? {
      CreateForgets(Load(f).value, e.task.value);
    }
  }

  /** An empty journal file beside a snapshot: the recording starts a journal that forgets the snapshot. */
  lemma {:induction false} EmptyJournalForgets(known: AgentTask, added: AgentTask)
    requires known.id != added.id
    ensures var f0, e := Files(Some([]), Some(Some([known]))), Created(Some(added));
            var f := Recorded(f0, e);
            && Load(f0) == Some([Normalize(known)]) && Load(f) == Some([Normalize(added)])
            && Forgets(f0, e) && f.snapshot != Some(Load(f))
  {
    var f0, e := Files(Some([]), Some(Some([known]))), Created(Some(added));
    assert NormalizeAll([known]) == [Normalize(known)];
    assert [known][..0] == [];
    assert Without([known], added.id) == [known];
    EmptyJournalExactly(f0, e);
    LoadOfFirst(f0, e);
    KeepOnly([], Normalize(added));
    assert Without([], added.id) + [Normalize(added)] == [Normalize(added)] == [] + [Normalize(added)];
  }

  // ── Recordings and crashes ───────────────────────────────────────────────────

  /** The recordings after which snapshot and journal agree. */
  predicate Calm(f: Files, e: Event) {
    if f.journal == Some([]) then !Forgets(f, e) else Replayed(f).Some? && !Disturbs(Replayed(f).value, e)
  }

  /**
   After a successful recording the snapshot file holds what a load of the
   extended journal rebuilds, exactly when the event neither disturbs nor forgets.
   */
  lemma {:induction false} SnapshotAgrees(f: Files, e: Event)
    requires SnapshotsUnique(Events(Seeded(f))) && Prepared(f, e).Some?
    ensures Recorded(f, e).snapshot == Some(Load(Recorded(f, e))) <==> Calm(f, e)
  {
    if f.journal == Some([]) {
      EmptyJournalExactly(f, e);
    } else {
      LoadOfSeeded(f);
      var ts := Replayed(f).value;
      ReplayKeepsNormal([], Events(Seeded(f)));
      PruningCommutes(ts, e);
      var after := Recorded(f, e);
      LoadOfJournal(after);
      assert Events(after)[..|Events(after)| - 1] == Events(Seeded(f));
    }
  }

  lemma {:induction false} SeedingPrunes(f: Files)
    requires Load(Seeded(f)).Some?
    ensures Load(f).Some?
    ensures Load(Seeded(f)) == if f.journal.None? then Some(Prune(Load(f).value)) else Load(f)
  {
    if f.journal.None? {
      LoadOfSeeded(f);
      if f.snapshot.Some? {
        assert Replay([], []) == Some([]);
        assert Events(Seeded(f))[..0] == [];
        assert Replayed(f) == Apply([], Snapshot(f.snapshot.value));
      }
    }
  }

  /**
   A crash between the steps of a recording: after seeding a load still yields
   the old tasks (pruned if the journal was absent, which a snapshot written here
   already is), and once the line is appended it yields the new ones, saved or not.
   */
  lemma {:induction false} CrashAtomic(f: Files, e: Event)
    requires Prepared(f, e).Some?
    ensures Load(f).Some?
    ensures Load(Seeded(f)) == if f.journal.None? then Some(Prune(Load(f).value)) else Load(f)
    ensures Load(Seeded(f)) == Load(f) <==> f.journal.Some? || Terminals(Load(f).value) <= MAX_TERMINAL_TASKS
    ensures Load(Appended(Seeded(f), e)) == Load(Recorded(f, e))
  {
    SeedingPrunes(f);
    KeepCount(Load(f).value, MAX_TERMINAL_TASKS);
    LoadOfJournal(Appended(Seeded(f), e));
    LoadOfJournal(Recorded(f, e));
  }

  /** A recording that fails to apply leaves the journal as seeded and the snapshot alone. */
  lemma {:induction false} FailedRecordingIsSilent(f: Files, e: Event)
    requires Prepared(f, e).None?
    ensures Recorded(f, e).snapshot == f.snapshot && Events(Recorded(f, e)) == Events(Seeded(f))
  {
  }

  // ── Why the condition on pruning is there ────────────────────────────────────

  /** The journal of creating and completing tasks one after the other, as the public methods write it. */
  function Completing(ts: seq<AgentTask>, name: string): seq<Event> {
    if ts == [] then []
    else
      var t := ts[|ts| - 1];
      Completing(ts[..|ts| - 1], name) + [Created(Some(t))] + [StateUpdated(t.id, name, None, None, t.updatedAt)]
  }

  /** What that journal makes of a task. */
  function Done(t: AgentTask): AgentTask {
    Normalize(t).(state := Completed)
  }

  function AllDone(ts: seq<AgentTask>): seq<AgentTask> {
    if ts == [] then [] else AllDone(ts[..|ts| - 1]) + [Done(ts[|ts| - 1])]
  }

  lemma {:induction false} DoneShape(ts: seq<AgentTask>)
    requires UniqueIds(ts)
    ensures |AllDone(ts)| == |ts| == Terminals(AllDone(ts)) && UniqueIds(AllDone(ts))
    ensures forall id :: Holds(AllDone(ts), id) <==> Holds(ts, id)
    ensures forall t :: t in AllDone(ts) ==> IsTerminal(t.state)
  {
    if ts != [] {
      var front, last := ts[..|ts| - 1], ts[|ts| - 1];
      assert ts == front + [last];
      UniqueSnoc(front, last);
      DoneShape(front);
      DoneNext(AllDone(front), front, last, Done(last));
    }
  }

  lemma {:induction false} DoneNext(done: seq<AgentTask>, front: seq<AgentTask>, last: AgentTask, next: AgentTask)
    requires next.id == last.id && IsTerminal(next.state) && UniqueIds(done) && !Holds(front, last.id)
    requires forall id :: Holds(done, id) <==> Holds(front, id)
    ensures UniqueIds(done + [next]) && Terminals(done + [next]) == Terminals(done) + 1
    ensures forall id :: Holds(done + [next], id) <==> Holds(front + [last], id)
  {
    TerminalsSnoc(done, next);
    UniqueSnoc(done, next);
    forall id ensures Holds(done + [next], id) <==> Holds(front + [last], id) {
      HoldsSnoc(done, next, id);
      HoldsSnoc(front, last, id);
    }
  }

  lemma {:induction false} HoldsSnoc(ts: seq<AgentTask>, t: AgentTask, id: string)
    ensures Holds(ts + [t], id) <==> Holds(ts, id) || t.id == id
  {
    if Holds(ts, id) {
      var x :| x in ts && x.id == id;
      assert x in ts + [t];
    }
    assert t in ts + [t];
  }

  lemma {:induction false} ReplaySnoc(start: seq<AgentTask>, journal: seq<Event>, e: Event)
    ensures Replay(start, journal + [e]) == match Replay(start, journal) case None => None case Some(ts) => Apply(ts, e)
  {
    assert (journal + [e])[..|journal|] == journal;
  }

  lemma {:induction false} CompleteStep(ts: seq<AgentTask>, t: AgentTask, name: string, now: string)
    requires !Holds(ts, t.id) && ParseState(name) == Some(Completed)
    ensures Apply(ts + [t], StateUpdated(t.id, name, None, None, now)) ==
              Some(ts + [t.(state := Completed, updatedAt := now)])
  {
    IndexOfSnoc(ts, t, t.id);
    IndexOfHolds(ts, t.id);
    assert (ts + [t])[|ts| := t.(state := Completed, updatedAt := now)]
        == ts + [t.(state := Completed, updatedAt := now)];
  }

  lemma {:induction false} CreateStep(ts: seq<AgentTask>, t: AgentTask)
    requires UniqueIds(ts) && !Holds(ts, t.id)
    ensures Apply(ts, Created(Some(t))) == Some(ts + [Normalize(t)])
  {
    WithoutUnique(ts, t.id);
  }

  lemma {:induction false} CompletingReplays(ts: seq<AgentTask>, name: string)
    requires UniqueIds(ts) && ParseState(name) == Some(Completed)
    ensures Replay([], Completing(ts, name)) == Some(AllDone(ts))
  {
    if ts != [] {
      var front, last := ts[..|ts| - 1], ts[|ts| - 1];
      assert ts == front + [last];
      UniqueSnoc(front, last);
      CompletingReplays(front, name);
      DoneShape(front);
      CreateStep(AllDone(front), last);
      CompleteStep(AllDone(front), Normalize(last), name, last.updatedAt);
      var journal, created := Completing(front, name), Created(Some(last));
      ReplaySnoc([], journal, created);
      ReplaySnoc([], journal + [created], StateUpdated(last.id, name, None, None, last.updatedAt));
    }
  }

  lemma {:induction false} CompletingByApi(ts: seq<AgentTask>, name: string)
    requires name == StateName(Completed) && forall t :: t in ts ==> WrittenByApi(Created(Some(t)))
    ensures forall e :: e in Completing(ts, name) ==> WrittenByApi(e) && !e.Snapshot?
  {
    if ts != [] {
      var front, last := ts[..|ts| - 1], ts[|ts| - 1];
      assert ts == front + [last];
      CompletingByApi(front, name);
      assert WrittenByApi(StateUpdated(last.id, name, None, None, last.updatedAt));
    }
  }

  lemma {:induction false} NoSnapshotsUnique(journal: seq<Event>)
    requires forall e :: e in journal ==> !e.Snapshot?
    ensures SnapshotsUnique(journal)
  {
  }

  /**
   A journal of the public methods that creates and completes more tasks than
   the cap: reopening any of them makes the saved list and the reloaded list
   differ, whatever snapshot lies beside the journal.
   */
  lemma {:induction false} ReopeningAboveTheCap(
      ts: seq<AgentTask>, t: AgentTask, e: Event, name: string, snapshot: Option<Option<seq<AgentTask>>>)
    requires UniqueIds(ts) && |ts| > MAX_TERMINAL_TASKS && t in AllDone(ts) && name == StateName(Completed)
    requires forall t :: t in ts ==> WrittenByApi(Created(Some(t)))
    requires e.StateUpdated? && e.id == t.id && ParseState(e.state) == Some(Working)
    ensures forall e :: e in Completing(ts, name) ==> WrittenByApi(e)
    ensures var f := Files(Some(Completing(ts, name)), snapshot);
            Prepared(f, e).Some? && Recorded(f, e).snapshot != Some(Load(Recorded(f, e)))
  {
    var f := Files(Some(Completing(ts, name)), snapshot);
    CompletingReplays(ts, name);
    CompletingByApi(ts, name);
    NoSnapshotsUnique(Completing(ts, name));
    DoneShape(ts);
    LoadOfJournal(f);
    ReopeningDisturbs(AllDone(ts), t, e);
    UpdatesApply(Prune(AllDone(ts)), e);
    SnapshotAgrees(f, e);
  }

  /** There are as many such tasks as one likes. */
  lemma {:induction false} ManyTasks(n: nat) returns (ts: seq<AgentTask>)
    ensures |ts| == n && UniqueIds(ts) && forall t :: t in ts ==> WrittenByApi(Created(Some(t))) && |t.id| < n
  {
    ts := [];
    if n > 0 {
      ts := ManyTasks(n - 1);
      var t := NewTask(seq(n - 1, _ => 'x'), "agent", "message", "owner", "now");
      assert WrittenByApi(Created(Some(t)));
      UniqueSnoc(ts, t);
      ts := ts + [t];
    }
  }

  lemma {:induction false} UpdatesApply(ts: seq<AgentTask>, e: Event)
    requires e.StateUpdated? && ParseState(e.state).Some?
    ensures Apply(ts, e).Some?
  {
    var i := IndexOf(ts, e.id);
    if i < |ts| {
      UpdateOutcome(ts[i], e);
    }
  }

  lemma {:induction false} ReopeningDisturbs(ts: seq<AgentTask>, t: AgentTask, e: Event)
    requires UniqueIds(ts) && Terminals(ts) > MAX_TERMINAL_TASKS && t in ts && IsTerminal(t.state)
    requires e.StateUpdated? && e.id == t.id && ParseState(e.state) == Some(Working)
    ensures Disturbs(ts, e)
  {
    UniqueMember(ts, t);
  }
}
