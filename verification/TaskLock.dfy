/**
 The lock-file protocol around a recording, as a state machine: any number of
 writers interleave the steps of `record_event` under a lock file while any
 number of readers load the files without it. Writers may crash anywhere; a
 crashed writer's lock file stays (stale-lock removal is assumed not to fire).
 */
module TaskLock {
  import opened Prelude
  import opened Tasks
  import opened TaskNormal
  import opened TaskPruning

  /** Where a writer is in its current call. */
  datatype Pc =
    | Idle
    | Waiting(e: Event)                          // polling for the lock file
    | Holding(e: Event)                          // created the lock file
    | Sown(e: Event)                             // seeded the journal
    | Loaded(e: Event, tasks: seq<AgentTask>)    // loaded the files
    | Ready(e: Event, tasks: seq<AgentTask>)     // applied the event in memory
    | Written(e: Event, tasks: seq<AgentTask>)   // appended the line
    | Leaving(ok: bool)                          // closure returned, guard not yet dropped
    | Dead(held: bool, wrote: bool)

  datatype Outcome = Committed | Rejected | TimedOut

  /** A writer: where it is, what each of its calls asked for, how the finished ones ended. */
  datatype Writer = Writer(pc: Pc, asked: seq<Event>, outcomes: seq<Outcome>)

  /** A load a reader finished: which file it read, the journal length it reflects and what it returned. */
  datatype Seen = Seen(journal: bool, at: nat, tasks: Option<seq<AgentTask>>)

  /** A reader; `missed` while it has found no journal and is about to read the snapshot. */
  datatype Reader = Reader(missed: bool, seen: seq<Seen>)

  /** Who appended a line: writer and call number, or nobody (an initial or seeded line). */
  datatype Origin = Base | By(writer: nat, call: nat)

  /** `saved` is the journal length at the last save (0 before the first). */
  datatype State = State(
    lock: Option<nat>, files: Files, origins: seq<Origin>, saved: nat,
    writers: seq<Writer>, readers: seq<Reader>, initial: Files)

  datatype Step =
    | Begin(p: nat, e: Event)
    | Acquire(p: nat)
    | GiveUp(p: nat)
    | Seed(p: nat)
    | ReadBack(p: nat)
    | Prepare(p: nat)
    | Append(p: nat)
    | Save(p: nat)
    | Release(p: nat)
    | Crash(p: nat)
    | ReadJournal(r: nat)
    | ReadSnapshot(r: nat)

  predicate Inside(pc: Pc) {
    pc.Holding? || pc.Sown? || pc.Loaded? || pc.Ready? || pc.Written? || pc.Leaving? || (pc.Dead? && pc.held)
  }

  /** Whether the current call's line is in the journal. */
  predicate Wrote(pc: Pc) {
    pc.Written? || (pc.Leaving? && pc.ok) || (pc.Dead? && pc.wrote)
  }

  function At(s: State, p: nat, pc: Pc): State
    requires p < |s.writers|
  {
    s.(writers := s.writers[p := s.writers[p].(pc := pc)])
  }

  function Ended(s: State, p: nat, outcome: Outcome): State
    requires p < |s.writers|
  {
    var w := s.writers[p];
    s.(writers := s.writers[p := w.(pc := Idle, outcomes := w.outcomes + [outcome])])
  }

  function SnapshotLoad(f: Files): Option<seq<AgentTask>> {
    Load(f.(journal := None))
  }

  function Saw(s: State, r: nat, missed: bool, seen: seq<Seen>): State
    requires r < |s.readers|
  {
    s.(readers := s.readers[r := Reader(missed, s.readers[r].seen + seen)])
  }

  function AfterLoad(e: Event, loaded: Option<seq<AgentTask>>): Pc {
    if loaded.Some? then Loaded(e, loaded.value) else Leaving(false)
  }

  function AfterApply(e: Event, applied: Option<seq<AgentTask>>): Pc {
    if applied.Some? then Ready(e, applied.value) else Leaving(false)
  }

  /** What a writer's step does; `None` when it is not enabled. */
  function WriterNext(s: State, step: Step): Option<State>
    requires !step.ReadJournal? && !step.ReadSnapshot?
  {
    var p := step.p;
    if p >= |s.writers| then None
    else
      var w := s.writers[p];
      match (step, w.pc)
      case (Begin(_, e), Idle) =>
        if e.Snapshot? then None else Some(s.(writers := s.writers[p := w.(pc := Waiting(e), asked := w.asked + [e])]))
      case (Acquire(_), Waiting(e)) =>
        if s.lock.Some? then None else Some(At(s, p, Holding(e)).(lock := Some(p)))
      case (GiveUp(_), Waiting(_)) =>
        if s.lock.None? then None else Some(Ended(s, p, TimedOut))
      case (Seed(_), Holding(e)) =>
        var files := Seeded(s.files);
        Some(At(s, p, Sown(e)).(files := files, origins := if files == s.files then s.origins else [Base]))
      case (ReadBack(_), Sown(e)) =>
        Some(At(s, p, AfterLoad(e, Load(s.files))))
      case (Prepare(_), Loaded(e, tasks)) =>
        Some(At(s, p, AfterApply(e, Apply(tasks, e))))
      case (Append(_), Ready(e, tasks)) =>
        Some(At(s, p, Written(e, tasks)).(files := Appended(s.files, e), origins := s.origins + [By(p, |w.outcomes|)]))
      case (Save(_), Written(e, tasks)) =>
        Some(At(s, p, Leaving(true)).(files := Saved(s.files, Prune(tasks)), saved := |Events(s.files)|))
      case (Release(_), Leaving(ok)) =>
        Some(Ended(s, p, if ok then Committed else Rejected).(lock := None))
      case (Crash(_), Dead(_, _)) => None
      case (Crash(_), pc) => Some(At(s, p, Dead(Inside(pc), Wrote(pc))))
      case _ => None
  }

  function Next(s: State, step: Step): Option<State> {
    match step
    case ReadJournal(r) =>
      if r >= |s.readers| || s.readers[r].missed then None
      else if Events(s.files) == [] then Some(Saw(s, r, true, []))
      else Some(Saw(s, r, false, [Seen(true, |Events(s.files)|, Load(s.files))]))
    case ReadSnapshot(r) =>
      if r >= |s.readers| || !s.readers[r].missed then None
      else Some(Saw(s, r, false, [Seen(false, s.saved, SnapshotLoad(s.files))]))
    case _ => WriterNext(s, step)
  }

  function Run(s: State, steps: seq<Step>): Option<State> {
    if steps == [] then Some(s)
    else
      match Run(s, steps[..|steps| - 1])
      case None => None
      case Some(t) => Next(t, steps[|steps| - 1])
  }

  predicate Initial(s: State) {
    && s.lock.None? && s.saved == 0 && s.files == s.initial
    && SnapshotsUnique(Events(Seeded(s.files)))
    && s.origins == seq(|Events(s.files)|, _ => Base)
    && (forall p :: 0 <= p < |s.writers| ==> s.writers[p] == Writer(Idle, [], []))
    && (forall r :: 0 <= r < |s.readers| ==> s.readers[r] == Reader(false, []))
  }

  // ── Invariants ───────────────────────────────────────────────────────────────

  /** The lock file exists exactly while some writer is inside, and only that one is. */
  predicate LockHeld(s: State) {
    && (s.lock.Some? ==> s.lock.value < |s.writers| && Inside(s.writers[s.lock.value].pc))
    && (forall p :: 0 <= p < |s.writers| && Inside(s.writers[p].pc) ==> s.lock == Some(p))
  }

  /** The files without the last journal line; without the only one, those of the start. */
  function Before(initial: Files, f: Files): Files
    requires Events(f) != []
  {
    var n := |Events(f)| - 1;
    if n == 0 then initial else f.(journal := Some(Events(f)[..n]))
  }

  /** What a writer inside knows about the files. */
  predicate Knows(initial: Files, f: Files, pc: Pc) {
    match pc
    case Waiting(e) => !e.Snapshot?
    case Holding(e) => !e.Snapshot?
    case Sown(e) => !e.Snapshot? && Seeded(f) == f
    case Loaded(e, tasks) => !e.Snapshot? && Seeded(f) == f && Load(f) == Some(tasks)
    case Ready(e, tasks) => !e.Snapshot? && Seeded(f) == f && Prepared(f, e) == Some(tasks)
    case Written(e, tasks) =>
      && Events(f) != [] && Events(f)[|Events(f)| - 1] == e
      && Seeded(Before(initial, f)) == Before(initial, f) && Prepared(Before(initial, f), e) == Some(tasks)
    case _ => true
  }

  predicate LocalKnowledge(s: State) {
    forall p :: 0 <= p < |s.writers| ==> Knows(s.initial, s.files, s.writers[p].pc)
  }

  predicate JournalShape(s: State) {
    && SnapshotsUnique(Events(Seeded(s.files)))
    && |s.origins| == |Events(s.files)|
    && (Events(s.files) == [] ==> s.files == s.initial)
    && BaseLines(s)
  }

  /** The lines nobody in this run recorded are the initial (or seeded) ones, and come first. */
  predicate BaseLines(s: State) {
    var base := Events(Seeded(s.initial));
    s.files.journal.Some? ==>
      && base <= Events(s.files)
      && (forall i :: 0 <= i < |s.origins| ==> (s.origins[i].Base? <==> i < |base|))
  }

  /** The lines of one writer stand in the order of its calls, one line per call. */
  predicate LinesOrdered(origins: seq<Origin>) {
    forall i, j :: 0 <= i < j < |origins| ==> CallOrder(origins[i], origins[j])
  }

  predicate CallOrder(a: Origin, b: Origin) {
    a.By? && b.By? && a.writer == b.writer ==> a.call < b.call
  }

  /** Every line not present or seeded belongs to one call and repeats what that call asked for. */
  predicate LinesTraced(s: State)
    requires |s.origins| == |Events(s.files)|
  {
    && (forall i :: 0 <= i < |s.origins| ==> LineTraced(s.writers, s.origins[i], Events(s.files)[i]))
    && LinesOrdered(s.origins)
  }

  /** A line is what the call it belongs to asked for. */
  predicate LineTraced(writers: seq<Writer>, o: Origin, e: Event) {
    o.By? ==>
      && o.writer < |writers| && o.call < |writers[o.writer].asked|
      && writers[o.writer].asked[o.call] == e
  }

  function EventOf(pc: Pc): Option<Event> {
    match pc
    case Waiting(e) => Some(e)
    case Holding(e) => Some(e)
    case Sown(e) => Some(e)
    case Loaded(e, _) => Some(e)
    case Ready(e, _) => Some(e)
    case Written(e, _) => Some(e)
    case _ => None
  }

  /** A call is open from `Begin` to its outcome, and the writer works on the event it was asked for. */
  predicate CallOpen(w: Writer) {
    && |w.asked| == |w.outcomes| + (if w.pc.Idle? || (w.pc.Dead? && |w.asked| == |w.outcomes|) then 0 else 1)
    && (EventOf(w.pc).Some? ==> w.asked[|w.outcomes|] == EventOf(w.pc).value)
    && (Wrote(w.pc) ==> |w.asked| == |w.outcomes| + 1)
  }

  /**
   A finished call has its line in the journal exactly when it committed, the
   open one exactly when it has appended, later ones not.
   */
  predicate LinesOf(origins: seq<Origin>, p: nat, w: Writer) {
    && (By(p, |w.outcomes|) in origins <==> Wrote(w.pc))
    && (forall n: nat :: n < |w.outcomes| ==> (By(p, n) in origins <==> w.outcomes[n] == Committed))
  }

  predicate CallsAccounted(s: State) {
    forall p :: 0 <= p < |s.writers| ==> CallOpen(s.writers[p]) && LinesOf(s.origins, p, s.writers[p])
  }

  /**
   The last event of a journal did not disturb the tasks before it; or, as the
   first line of a journal that existed empty, forgot none of the snapshot's.
   */
  predicate LastCalm(initial: Files, journal: seq<Event>) {
    && journal != []
    && var front, e := journal[..|journal| - 1], journal[|journal| - 1];
       if front == [] && initial.journal == Some([]) then !Forgets(initial, e)
       else Replay([], front).Some? && !Disturbs(Replay([], front).value, e)
  }

  /** A saved snapshot is the pruned replay of `journal`, exactly when its last event was calm. */
  predicate Agrees(initial: Files, snapshot: Option<Option<seq<AgentTask>>>, journal: seq<Event>) {
    && snapshot.Some? && snapshot.value.Some? && AllNormal(snapshot.value.value)
    && (snapshot == Some(PruneResult(Replay([], journal))) <==> LastCalm(initial, journal))
  }

  predicate SaveOutstanding(s: State) {
    s.lock.Some? && s.lock.value < |s.writers| &&
    (s.writers[s.lock.value].pc.Written? || s.writers[s.lock.value].pc.Dead?)
  }

  predicate SnapshotTracks(s: State) {
    && s.saved <= |Events(s.files)|
    && (s.saved == 0 ==> s.files.snapshot == s.initial.snapshot)
    && (s.saved > 0 ==> Agrees(s.initial, s.files.snapshot, Events(s.files)[..s.saved]))
    && (!SaveOutstanding(s) ==>
          s.saved == |Events(s.files)| || (s.saved == 0 && forall o :: o in s.origins ==> o.Base?))
  }

  /**
   What a load returned is the state of the journal prefix it is filed under:
   always if it read the journal, and from the snapshot exactly if the prefix ends calmly.
   */
  predicate SeenRight(s: State, seen: Seen) {
    && seen.at <= |Events(s.files)|
    && (seen.at == 0 ==> !seen.journal && seen.tasks == SnapshotLoad(s.initial))
    && (seen.at > 0 ==>
          var prefix := Events(s.files)[..seen.at];
          seen.tasks == PruneResult(Replay([], prefix)) <==> seen.journal || LastCalm(s.initial, prefix))
  }

  predicate ReaderRight(s: State, r: Reader) {
    && (forall i :: 0 <= i < |r.seen| ==> SeenRight(s, r.seen[i]))
    && (forall i, j :: 0 <= i < j < |r.seen| ==> r.seen[i].at <= r.seen[j].at)
    && (r.missed ==> forall i :: 0 <= i < |r.seen| ==> r.seen[i].at == 0)
  }

  predicate ReadersRight(s: State) {
    forall r :: 0 <= r < |s.readers| ==> ReaderRight(s, s.readers[r])
  }

  predicate Inv(s: State) {
    && LockHeld(s) && LocalKnowledge(s) && JournalShape(s) && LinesTraced(s)
    && CallsAccounted(s) && SnapshotTracks(s) && ReadersRight(s)
  }

  // ── Every step keeps them ────────────────────────────────────────────────────

  lemma {:induction false} LockKept(s: State, step: Step, t: State)
    requires LockHeld(s) && Next(s, step) == Some(t)
    ensures LockHeld(t)
  {
  }

  lemma {:induction false} AppendedBefore(initial: Files, f: Files, e: Event)
    requires Events(f) == [] ==> f == initial
    ensures Before(initial, Appended(f, e)) == f
  {
    assert (Events(f) + [e])[..|Events(f)|] == Events(f);
  }

  lemma {:induction false} KnowledgeKept(s: State, step: Step, t: State)
    requires LockHeld(s) && LocalKnowledge(s) && JournalShape(s) && Next(s, step) == Some(t)
    ensures LocalKnowledge(t)
  {
    if step.ReadJournal? || step.ReadSnapshot? {
    } else {
      var p := step.p;
      assert Knows(s.initial, s.files, s.writers[p].pc);
      if step.Append? {
        AppendedBefore(s.initial, s.files, s.writers[p].pc.e);
      }
      forall q | 0 <= q < |t.writers| ensures Knows(t.initial, t.files, t.writers[q].pc) {
        assert Knows(s.initial, s.files, s.writers[q].pc);
      }
    }
  }

  lemma {:induction false} ShapeKept(s: State, step: Step, t: State)
    requires LocalKnowledge(s) && JournalShape(s) && Next(s, step) == Some(t)
    ensures JournalShape(t)
  {
    if step.Append? {
      var e := s.writers[step.p].pc.e;
      assert Knows(s.initial, s.files, s.writers[step.p].pc);
      assert Events(t.files) == Events(Seeded(s.files)) + [e];
      forall f | f in Events(t.files) && f.Snapshot? && f.tasks.Some? ensures UniqueIds(f.tasks.value) {
        assert f in Events(Seeded(s.files));
      }
    }
  }

  /** How one step moves the writer that takes it. */
  predicate Moves(w: Writer, step: Step, v: Writer) {
    if step.Append? then
      v.asked == w.asked && v.outcomes == w.outcomes && !Wrote(w.pc) && Wrote(v.pc)
    else if step.GiveUp? || step.Release? then
      v.asked == w.asked && !Wrote(v.pc) &&
      exists o :: v.outcomes == w.outcomes + [o] && (o == Committed <==> Wrote(w.pc))
    else
      w.asked <= v.asked && v.outcomes == w.outcomes && Wrote(v.pc) == Wrote(w.pc)
  }

  lemma {:induction false} WriterMoves(s: State, step: Step, t: State)
    requires !step.ReadJournal? && !step.ReadSnapshot? && Next(s, step) == Some(t)
    ensures |t.writers| == |s.writers| && step.p < |s.writers| && t.readers == s.readers && t.initial == s.initial
    ensures t.writers == s.writers[step.p := t.writers[step.p]]
    ensures Moves(s.writers[step.p], step, t.writers[step.p])
  {
    var w, v := s.writers[step.p], t.writers[step.p];
    if step.GiveUp? {
      assert v.outcomes == w.outcomes + [TimedOut];
    } else if step.Release? {
      assert v.outcomes == w.outcomes + [if w.pc.ok then Committed else Rejected];
    }
  }

  lemma {:induction false} OpenKept(s: State, step: Step, t: State)
    requires CallsAccounted(s) && Next(s, step) == Some(t)
    ensures forall p :: 0 <= p < |t.writers| ==> CallOpen(t.writers[p])
  {
    if !step.ReadJournal? && !step.ReadSnapshot? {
      WriterMoves(s, step, t);
      assert CallOpen(s.writers[step.p]);
    }
  }

  /** A step appends at most one line, its writer's open call, or seeds an absent journal. */
  lemma {:induction false} JournalGrows(s: State, step: Step, t: State)
    requires JournalShape(s) && Next(s, step) == Some(t)
    ensures Events(s.files) <= Events(t.files) && s.origins <= t.origins && |t.origins| == |Events(t.files)|
    ensures step.Append? ==> (
              && t.origins == s.origins + [By(step.p, |s.writers[step.p].outcomes|)]
              && EventOf(s.writers[step.p].pc).Some?
              && Events(t.files) == Events(s.files) + [EventOf(s.writers[step.p].pc).value])
    ensures !step.Append? ==> forall o :: o in t.origins ==> o.Base? || o in s.origins
  {
  }

  lemma {:induction false} TracesKept(s: State, step: Step, t: State)
    requires LocalKnowledge(s) && JournalShape(s) && LinesTraced(s) && CallsAccounted(s)
    requires Next(s, step) == Some(t)
    ensures |t.origins| == |Events(t.files)| && LinesTraced(t)
  {
    JournalGrows(s, step, t);
    if !step.ReadJournal? && !step.ReadSnapshot? {
      WriterMoves(s, step, t);
      LinesStayTraced(s, step, t);
      LinesStayOrdered(s, step, t);
    }
  }

  lemma {:induction false} LinesStayTraced(s: State, step: Step, t: State)
    requires JournalShape(s) && LinesTraced(s) && CallsAccounted(s)
    requires !step.ReadJournal? && !step.ReadSnapshot? && Next(s, step) == Some(t)
    ensures |t.origins| == |Events(t.files)|
    ensures forall i :: 0 <= i < |t.origins| ==> LineTraced(t.writers, t.origins[i], Events(t.files)[i])
  {
    JournalGrows(s, step, t);
    WriterMoves(s, step, t);
    assert CallOpen(s.writers[step.p]);
    forall i | 0 <= i < |t.origins| ensures LineTraced(t.writers, t.origins[i], Events(t.files)[i]) {
      if i < |s.origins| {
        LineStays(s.writers, t.writers, s.origins[i], Events(s.files)[i]);
      }
    }
  }

  lemma {:induction false} LineStays(writers: seq<Writer>, later: seq<Writer>, o: Origin, e: Event)
    requires LineTraced(writers, o, e)
    requires |later| == |writers| && forall q :: 0 <= q < |writers| ==> writers[q].asked <= later[q].asked
    ensures LineTraced(later, o, e)
  {
  }

  lemma {:induction false} LinesStayOrdered(s: State, step: Step, t: State)
    requires JournalShape(s) && LinesTraced(s) && CallsAccounted(s)
    requires !step.ReadJournal? && !step.ReadSnapshot? && Next(s, step) == Some(t)
    ensures LinesOrdered(t.origins)
  {
    JournalGrows(s, step, t);
    if step.Append? {
      assert s.writers[step.p].pc.Ready?;
      NextLine(s, step.p);
    } else {
      SeededOrdered(s.origins, t.origins);
    }
  }

  /** The open call of a writer about to append is later than every call of it that has a line. */
  lemma {:induction false} NextLine(s: State, p: nat)
    requires |s.origins| == |Events(s.files)| && LinesTraced(s) && CallsAccounted(s)
    requires p < |s.writers| && s.writers[p].pc.Ready?
    ensures LinesOrdered(s.origins + [By(p, |s.writers[p].outcomes|)])
  {
    var w := s.writers[p];
    assert CallOpen(w) && LinesOf(s.origins, p, w);
    forall i | 0 <= i < |s.origins| ensures CallOrder(s.origins[i], By(p, |w.outcomes|)) {
      assert s.origins[i] in s.origins;
    }
  }

  lemma {:induction false} SeededOrdered(origins: seq<Origin>, more: seq<Origin>)
    requires LinesOrdered(origins) && origins <= more
    requires more == origins || more == [Base]
    ensures LinesOrdered(more)
  {
  }

  lemma {:induction false} CallsKept(s: State, step: Step, t: State)
    requires LocalKnowledge(s) && JournalShape(s) && LinesTraced(s) && CallsAccounted(s)
    requires Next(s, step) == Some(t)
    ensures CallsAccounted(t)
  {
    JournalGrows(s, step, t);
    OpenKept(s, step, t);
    if step.ReadJournal? || step.ReadSnapshot? {
      assert t.writers == s.writers && t.origins == s.origins;
      return;
    }
    WriterMoves(s, step, t);
    forall q | 0 <= q < |t.writers| ensures LinesOf(t.origins, q, t.writers[q]) {
      assert CallOpen(s.writers[q]) && LinesOf(s.origins, q, s.writers[q]);
      if q != step.p {
        OthersLines(s, step, t, q);
      } else if step.GiveUp? || step.Release? {
        NoLaterLine(s, q, |s.writers[q].outcomes| + 1);
      }
    }
  }

  lemma {:induction false} OthersLines(s: State, step: Step, t: State, q: nat)
    requires q < |s.writers| && LinesOf(s.origins, q, s.writers[q]) && s.origins <= t.origins
    requires !step.ReadJournal? && !step.ReadSnapshot? && q != step.p < |s.writers|
    requires step.Append? ==> t.origins == s.origins + [By(step.p, |s.writers[step.p].outcomes|)]
    requires !step.Append? ==> forall o :: o in t.origins ==> o.Base? || o in s.origins
    ensures LinesOf(t.origins, q, s.writers[q])
  {
    forall n: nat ensures By(q, n) in t.origins <==> By(q, n) in s.origins {
      assert By(q, n) in s.origins ==> By(q, n) in t.origins;
    }
  }

  lemma {:induction false} NoLaterLine(s: State, p: nat, n: nat)
    requires p < |s.writers| && |s.origins| == |Events(s.files)| && LinesTraced(s) && n >= |s.writers[p].asked|
    ensures By(p, n) !in s.origins
  {
  }

  // ── The snapshot and the readers ─────────────────────────────────────────────

  lemma {:induction false} PrunedNormal(ts: seq<AgentTask>)
    requires AllNormal(ts)
    ensures AllNormal(Prune(ts)) && NormalizeAll(Prune(ts)) == Prune(ts)
  {
    KeepMembers(ts, MAX_TERMINAL_TASKS);
    NormalizeAllFixpoint(Prune(ts));
  }

  lemma {:induction false} LoadNormal(f: Files)
    requires Load(f).Some?
    ensures AllNormal(Load(f).value)
  {
    if Events(f) != [] {
      var ts := Replay([], Events(f)).value;
      NormalizeAllFixpoint(ts);
      PrunedNormal(NormalizeAll(ts));
    } else if f.snapshot.Some? {
      NormalizeAllFixpoint(f.snapshot.value.value);
    }
  }

  /** Saving after an append puts into the snapshot what the journal says, exactly if the event was calm. */
  lemma {:induction false} SaveAgrees(initial: Files, f: Files, e: Event, tasks: seq<AgentTask>)
    requires Events(initial) == [] || |Events(f)| > 1
    requires Knows(initial, f, Written(e, tasks)) && SnapshotsUnique(Events(Seeded(Before(initial, f))))
    ensures Agrees(initial, Some(Some(Prune(tasks))), Events(f))
  {
    LineBefore(initial, f);
    AgreesAfter(initial, Before(initial, f), e, tasks, Events(f));
  }

  lemma {:induction false} LineBefore(initial: Files, f: Files)
    requires Events(f) != [] && (Events(initial) == [] || |Events(f)| > 1)
    ensures var before := Before(initial, f);
            && Events(f) == Events(before) + [Events(f)[|Events(f)| - 1]]
            && if |Events(f)| == 1 then before == initial else before.journal.Some?
  {
  }

  lemma {:induction false} AgreesAfter(initial: Files, before: Files, e: Event, tasks: seq<AgentTask>,
                                       journal: seq<Event>)
    requires Seeded(before) == before && Prepared(before, e) == Some(tasks)
    requires SnapshotsUnique(Events(before)) && journal == Events(before) + [e]
    requires if |journal| == 1 then before == initial else before.journal.Some?
    ensures Agrees(initial, Some(Some(Prune(tasks))), journal)
  {
    assert Events(before) == journal[..|journal| - 1] && journal[|journal| - 1] == e;
    CalmBefore(initial, before, journal);
    RecordedAgrees(before, e, tasks, journal);
    PreparedNormal(before, e);
    PrunedNormal(tasks);
  }

  lemma {:induction false} RecordedAgrees(before: Files, e: Event, tasks: seq<AgentTask>, journal: seq<Event>)
    requires Seeded(before) == before && Prepared(before, e) == Some(tasks)
    requires SnapshotsUnique(Events(before)) && journal == Events(before) + [e]
    ensures Some(Prune(tasks)) == PruneResult(Replay([], journal)) <==> Calm(before, e)
  {
    SnapshotAgrees(before, e);
    LoadOfJournal(Recorded(before, e));
  }

  lemma {:induction false} PreparedNormal(f: Files, e: Event)
    requires Prepared(f, e).Some?
    ensures AllNormal(Prepared(f, e).value)
  {
    LoadNormal(Seeded(f));
    ApplyKeepsNormal(Load(Seeded(f)).value, e);
  }

  lemma {:induction false} CalmBefore(initial: Files, before: Files, journal: seq<Event>)
    requires journal != [] && Events(before) == journal[..|journal| - 1] && Seeded(before) == before
    requires if |journal| == 1 then before == initial else before.journal.Some?
    ensures LastCalm(initial, journal) <==> Calm(before, journal[|journal| - 1])
  {
  }

  lemma {:induction false} BeforeUnique(s: State)
    requires JournalShape(s) && Events(s.files) != []
      && Seeded(Before(s.initial, s.files)) == Before(s.initial, s.files)
    requires Events(s.initial) == [] || |Events(s.files)| > 1
    ensures SnapshotsUnique(Events(Seeded(Before(s.initial, s.files))))
  {
    forall e | e in Events(Before(s.initial, s.files)) ensures e in Events(s.files) {
    }
  }

  /** The only line of a journal can only have been written to a journal without lines. */
  lemma {:induction false} OnlyLine(s: State, p: nat)
    requires JournalShape(s) && CallsAccounted(s) && p < |s.writers| && s.writers[p].pc.Written?
    ensures Events(s.initial) == [] || |Events(s.files)| > 1
  {
    var o := By(p, |s.writers[p].outcomes|);
    assert LinesOf(s.origins, p, s.writers[p]);
    var i :| 0 <= i < |s.origins| && s.origins[i] == o;
  }

  lemma {:induction false} SaveTracks(s: State, p: nat)
    requires LocalKnowledge(s) && JournalShape(s) && CallsAccounted(s) && p < |s.writers| && s.writers[p].pc.Written?
    ensures Events(s.files) != [] && Agrees(s.initial, Some(Some(Prune(s.writers[p].pc.tasks))), Events(s.files))
  {
    var pc := s.writers[p].pc;
    assert Knows(s.initial, s.files, pc);
    OnlyLine(s, p);
    BeforeUnique(s);
    SaveAgrees(s.initial, s.files, pc.e, pc.tasks);
  }

  lemma {:induction false} SnapshotKept(s: State, step: Step, t: State)
    requires Inv(s) && Next(s, step) == Some(t)
    ensures SnapshotTracks(t)
  {
    JournalGrows(s, step, t);
    if step.Save? {
      SaveTracks(s, step.p);
      assert Events(t.files)[..t.saved] == Events(s.files);
    } else {
      SnapshotStays(s, step, t);
    }
  }

  lemma {:induction false} OnlySavesSave(s: State, step: Step, t: State)
    requires Next(s, step) == Some(t) && !step.Save?
    ensures t.files.snapshot == s.files.snapshot && t.saved == s.saved && t.initial == s.initial
  {
  }

  lemma {:induction false} SnapshotStays(s: State, step: Step, t: State)
    requires LockHeld(s) && JournalShape(s) && SnapshotTracks(s) && Next(s, step) == Some(t) && !step.Save?
    ensures SnapshotTracks(t)
  {
    OnlySavesSave(s, step, t);
    JournalGrows(s, step, t);
    if !SaveOutstanding(t) {
      OutstandingKept(s, step, t);
    }
    TracksStay(s, t);
  }

  lemma {:induction false} TracksStay(s: State, t: State)
    requires SnapshotTracks(s) && Events(s.files) <= Events(t.files)
    requires t.files.snapshot == s.files.snapshot && t.saved == s.saved && t.initial == s.initial
    requires !SaveOutstanding(t) ==>
               && !SaveOutstanding(s) && (|Events(t.files)| == |Events(s.files)| || s.saved == 0)
               && forall o :: o in t.origins ==> o.Base? || o in s.origins
    requires |s.origins| == |Events(s.files)|
    ensures SnapshotTracks(t)
  {
    assert Events(t.files)[..s.saved] == Events(s.files)[..s.saved];
  }

  lemma {:induction false} OutstandingKept(s: State, step: Step, t: State)
    requires LockHeld(s) && SnapshotTracks(s) && Next(s, step) == Some(t) && !step.Save? && !SaveOutstanding(t)
    ensures !step.Append? && !SaveOutstanding(s)
    ensures |Events(t.files)| == |Events(s.files)| || s.saved == 0
  {
    if !step.ReadJournal? && !step.ReadSnapshot? {
      assert Inside(s.writers[step.p].pc) ==> s.lock == Some(step.p);
    }
  }

  /** A reader that found no journal and now reads the snapshot sees the last save. */
  lemma {:induction false} SnapshotSeen(s: State)
    requires JournalShape(s) && SnapshotTracks(s) && (s.saved == 0 ==> s.files.snapshot == s.initial.snapshot)
    ensures SeenRight(s, Seen(false, s.saved, SnapshotLoad(s.files)))
  {
    if s.saved > 0 {
      NormalizeAllFixpoint(s.files.snapshot.value.value);
    }
  }

  lemma {:induction false} SeenStays(s: State, t: State, seen: Seen)
    requires SeenRight(s, seen) && Events(s.files) <= Events(t.files) && t.initial == s.initial
    ensures SeenRight(t, seen)
  {
    assert Events(t.files)[..seen.at] == Events(s.files)[..seen.at];
  }

  lemma {:induction false} ReaderStays(s: State, t: State, reader: Reader)
    requires ReaderRight(s, reader) && Events(s.files) <= Events(t.files) && t.initial == s.initial
    ensures ReaderRight(t, reader)
  {
    forall i | 0 <= i < |reader.seen| ensures SeenRight(t, reader.seen[i]) {
      SeenStays(s, t, reader.seen[i]);
    }
  }

  lemma {:induction false} JournalSeen(s: State)
    requires JournalShape(s) && Events(s.files) != []
    ensures SeenRight(s, Seen(true, |Events(s.files)|, Load(s.files)))
  {
    LoadOfJournal(s.files);
    assert Events(s.files)[..|Events(s.files)|] == Events(s.files);
  }

  lemma {:induction false} ReaderSees(s: State, reader: Reader, seen: Seen)
    requires ReaderRight(s, reader) && SeenRight(s, seen)
      && forall i :: 0 <= i < |reader.seen| ==> reader.seen[i].at <= seen.at
    ensures ReaderRight(s, Reader(false, reader.seen + [seen]))
  {
  }

  lemma {:induction false} NothingSeen(s: State, reader: Reader)
    requires ReaderRight(s, reader) && Events(s.files) == []
    ensures ReaderRight(s, Reader(true, reader.seen + []))
  {
    assert reader.seen + [] == reader.seen;
    forall i | 0 <= i < |reader.seen| ensures reader.seen[i].at == 0 {
      assert SeenRight(s, reader.seen[i]);
    }
  }

  /** A reader that finishes a load sees a prefix at least as long as the last one. */
  lemma {:induction false} ReaderReads(s: State, r: nat, step: Step, t: State)
    requires JournalShape(s) && SnapshotTracks(s) && ReadersRight(s)
    requires r < |s.readers| && (step == ReadJournal(r) || step == ReadSnapshot(r)) && Next(s, step) == Some(t)
    ensures ReaderRight(t, t.readers[r])
  {
    var reader := s.readers[r];
    assert ReaderRight(s, reader);
    if step.ReadSnapshot? {
      SnapshotSeen(s);
      ReaderSees(s, reader, Seen(false, s.saved, SnapshotLoad(s.files)));
    } else if Events(s.files) == [] {
      NothingSeen(s, reader);
    } else {
      JournalSeen(s);
      forall i | 0 <= i < |reader.seen| ensures reader.seen[i].at <= |Events(s.files)| {
        assert SeenRight(s, reader.seen[i]);
      }
      ReaderSees(s, reader, Seen(true, |Events(s.files)|, Load(s.files)));
    }
    ReaderStays(s, t, t.readers[r]);
  }

  lemma {:induction false} ReadersKept(s: State, step: Step, t: State)
    requires Inv(s) && Next(s, step) == Some(t)
    ensures ReadersRight(t)
  {
    JournalGrows(s, step, t);
    if !step.ReadJournal? && !step.ReadSnapshot? {
      WriterMoves(s, step, t);
    }
    forall r | 0 <= r < |t.readers| ensures ReaderRight(t, t.readers[r]) {
      assert ReaderRight(s, s.readers[r]);
      if step == ReadJournal(r) || step == ReadSnapshot(r) {
        ReaderReads(s, r, step, t);
      } else {
        assert t.readers[r] == s.readers[r];
        ReaderStays(s, t, s.readers[r]);
      }
    }
  }

  /** Every step keeps every invariant. */
  lemma {:induction false} StepKeeps(s: State, step: Step, t: State)
    requires Inv(s) && Next(s, step) == Some(t)
    ensures Inv(t)
  {
    LockKept(s, step, t);
    KnowledgeKept(s, step, t);
    ShapeKept(s, step, t);
    TracesKept(s, step, t);
    CallsKept(s, step, t);
    SnapshotKept(s, step, t);
    ReadersKept(s, step, t);
  }

  /** Every interleaving from a fresh start keeps the invariants. */
  lemma {:induction false} RunKeeps(s: State, steps: seq<Step>)
    requires Initial(s) && Run(s, steps).Some?
    ensures Inv(Run(s, steps).value)
  {
    RunReaches(s, steps, Run(s, steps).value);
  }

  lemma {:induction false} InitialShape(s: State)
    requires Initial(s)
    ensures JournalShape(s)
  {
    assert forall i :: 0 <= i < |s.origins| ==> s.origins[i] == Base;
  }

  lemma {:induction false} InitialTraces(s: State)
    requires Initial(s)
    ensures |s.origins| == |Events(s.files)| && LinesTraced(s)
  {
    assert forall i :: 0 <= i < |s.origins| ==> s.origins[i] == Base;
  }

  lemma {:induction false} NoCallsYet(origins: seq<Origin>, p: nat)
    requires forall i :: 0 <= i < |origins| ==> origins[i] == Base
    ensures CallOpen(Writer(Idle, [], [])) && LinesOf(origins, p, Writer(Idle, [], []))
  {
  }

  lemma {:induction false} InitialCalls(s: State)
    requires Initial(s)
    ensures CallsAccounted(s)
  {
    forall p | 0 <= p < |s.writers| ensures CallOpen(s.writers[p]) && LinesOf(s.origins, p, s.writers[p]) {
      NoCallsYet(s.origins, p);
    }
  }

  lemma {:induction false} InitialTracks(s: State)
    requires Initial(s)
    ensures SnapshotTracks(s) && ReadersRight(s)
  {
    assert forall o :: o in s.origins ==> o == Base;
  }

  lemma {:induction false} InitialKeeps(s: State)
    requires Initial(s)
    ensures Inv(s)
  {
    InitialShape(s);
    InitialTraces(s);
    InitialCalls(s);
    InitialTracks(s);
  }

  lemma {:induction false} RunReaches(s: State, steps: seq<Step>, t: State)
    requires Initial(s) && Run(s, steps) == Some(t)
    ensures Inv(t)
  {
    if steps == [] {
      InitialKeeps(s);
    } else {
      var front, step := steps[..|steps| - 1], steps[|steps| - 1];
      var before := Run(s, front).value;
      RunReaches(s, front, before);
      StepKeeps(before, step, t);
    }
  }

  // ── What the protocol guarantees ─────────────────────────────────────────────

  /** In every reachable state at most one writer is inside, and none while the lock file is absent. */
  lemma {:induction false} MutualExclusion(s: State, steps: seq<Step>, p: nat, q: nat)
    requires Initial(s) && Run(s, steps).Some?
    requires p < |s.writers| && q < |s.writers|
    ensures |Run(s, steps).value.writers| == |s.writers|
    ensures var t := Run(s, steps).value;
            Inside(t.writers[p].pc) && Inside(t.writers[q].pc) ==> p == q && t.lock == Some(p)
  {
    RunKeeps(s, steps);
    SameWriters(s, steps);
  }

  lemma {:induction false} SameCast(s: State, step: Step, t: State)
    requires Next(s, step) == Some(t)
    ensures |t.writers| == |s.writers| && |t.readers| == |s.readers| && t.initial == s.initial
  {
  }

  lemma {:induction false} SameWriters(s: State, steps: seq<Step>)
    requires Run(s, steps).Some?
    ensures |Run(s, steps).value.writers| == |s.writers| && |Run(s, steps).value.readers| == |s.readers|
    ensures Run(s, steps).value.initial == s.initial
  {
    if steps != [] {
      SameWriters(s, steps[..|steps| - 1]);
      SameCast(Run(s, steps[..|steps| - 1]).value, steps[|steps| - 1], Run(s, steps).value);
    }
  }

  /**
   In every reachable state the journal is the initial (or seeded) lines
   followed by one line per committed call: each such line repeats what its call
   asked for, those of one writer stand in the order of its calls and no call has
   two, and a finished call has one exactly when it committed.
   */
  lemma {:induction false} JournalIsTheCommits(s: State, steps: seq<Step>)
    requires Initial(s) && Run(s, steps).Some?
    ensures var t := Run(s, steps).value;
            && |t.origins| == |Events(t.files)| && BaseLines(t) && LinesTraced(t)
            && t.initial == s.files
            && forall p, n: nat :: 0 <= p < |t.writers| && n < |t.writers[p].outcomes| ==>
                 (By(p, n) in t.origins <==> t.writers[p].outcomes[n] == Committed)
  {
    RunKeeps(s, steps);
    SameWriters(s, steps);
    var t := Run(s, steps).value;
    forall p, n: nat | 0 <= p < |t.writers| && n < |t.writers[p].outcomes|
      ensures By(p, n) in t.origins <==> t.writers[p].outcomes[n] == Committed
    {
      assert LinesOf(t.origins, p, t.writers[p]);
    }
  }

  /**
   Whenever the lock file is absent and something was recorded, the snapshot
   file is the pruned replay of the journal, exactly when the last event was calm.
   */
  lemma {:induction false} SnapshotIsTheReplay(s: State, steps: seq<Step>)
    requires Initial(s) && Run(s, steps).Some? && Run(s, steps).value.lock == None
    ensures var t := Run(s, steps).value;
            if AnyRecorded(t.origins)
            then t.files.snapshot == Some(Load(t.files)) <==> LastCalm(s.files, Events(t.files))
            else t.files.snapshot == s.files.snapshot
  {
    RunKeeps(s, steps);
    SameWriters(s, steps);
    var t := Run(s, steps).value;
    assert Events(t.files)[..|Events(t.files)|] == Events(t.files);
    if AnyRecorded(t.origins) {
      LoadOfJournal(t.files);
    } else if t.saved > 0 {
      SavedMeansRecorded(s, steps);
    }
  }

  predicate AnyRecorded(origins: seq<Origin>) {
    exists o :: o in origins && o.By?
  }

  lemma {:induction false} SavingRecorded(u: State, step: Step, t: State)
    requires Inv(u) && Next(u, step) == Some(t)
    requires u.saved > 0 ==> AnyRecorded(u.origins)
    ensures t.saved > 0 ==> AnyRecorded(t.origins)
  {
    JournalGrows(u, step, t);
    if step.Save? {
      assert LinesOf(u.origins, step.p, u.writers[step.p]);
      assert t.origins == u.origins;
    } else if u.saved > 0 {
      var o :| o in u.origins && o.By?;
      assert o in t.origins;
    } else {
      assert t.saved == u.saved;
    }
  }

  lemma {:induction false} SavedMeansRecorded(s: State, steps: seq<Step>)
    requires Initial(s) && Run(s, steps).Some?
    ensures Run(s, steps).value.saved > 0 ==> AnyRecorded(Run(s, steps).value.origins)
  {
    if steps != [] {
      var front := steps[..|steps| - 1];
      SavedMeansRecorded(s, front);
      RunKeeps(s, front);
      SavingRecorded(Run(s, front).value, steps[|steps| - 1], Run(s, steps).value);
    }
  }

  /**
   Every load by a lock-free reader is the state of some prefix of the journal:
   of the journal always, of the snapshot exactly when that prefix ended calmly. A
   reader's prefixes never shrink.
   */
  lemma {:induction false} ReadersSeePrefixes(s: State, steps: seq<Step>, r: nat)
    requires Initial(s) && Run(s, steps).Some? && r < |s.readers|
    ensures |Run(s, steps).value.readers| == |s.readers|
    ensures var t := Run(s, steps).value;
            var seen := t.readers[r].seen;
            && (forall i :: 0 <= i < |seen| ==> SeenRight(t, seen[i]))
            && (forall i, j :: 0 <= i < j < |seen| ==> seen[i].at <= seen[j].at)
  {
    RunKeeps(s, steps);
    SameWriters(s, steps);
    var t := Run(s, steps).value;
    assert ReaderRight(t, t.readers[r]);
  }

  lemma {:induction false} RunSnoc(s: State, steps: seq<Step>, step: Step)
    ensures Run(s, steps + [step]) == match Run(s, steps) case None => None case Some(t) => Next(t, step)
  {
    assert (steps + [step])[..|steps|] == steps;
  }

  lemma {:induction false} RunNext(s: State, steps: seq<Step>, t: State, step: Step, u: State)
    requires Run(s, steps) == Some(t) && Next(t, step) == Some(u)
    ensures Run(s, steps + [step]) == Some(u)
  {
    RunSnoc(s, steps, step);
  }

  /** The state with writer `p` replaced. */
  function With(s: State, p: nat, w: Writer, lock: Option<nat>, files: Files): State
    requires p < |s.writers|
  {
    s.(writers := s.writers[p := w], lock := lock, files := files)
  }

  lemma {:induction false} SoloEnter(s: State, p: nat, e: Event) returns (t: State)
    requires p < |s.writers| && s.writers[p].pc == Idle && s.lock == None && !e.Snapshot?
    ensures Run(s, [] + [Begin(p, e)] + [Acquire(p)]) == Some(t)
    ensures t == With(s, p, s.writers[p].(pc := Holding(e), asked := s.writers[p].asked + [e]), Some(p), s.files)
  {
    var u := With(s, p, s.writers[p].(pc := Waiting(e), asked := s.writers[p].asked + [e]), None, s.files);
    RunNext(s, [], s, Begin(p, e), u);
    t := Next(u, Acquire(p)).value;
    RunNext(s, [] + [Begin(p, e)], u, Acquire(p), t);
  }

  lemma {:induction false} SoloSeed(s: State, steps: seq<Step>, t: State, p: nat, e: Event) returns (u: State)
    requires Run(s, steps) == Some(t) && p < |t.writers| && t.writers[p].pc == Holding(e)
    ensures Run(s, steps + [Seed(p)]) == Some(u)
    ensures u.writers == t.writers[p := t.writers[p].(pc := Sown(e))]
    ensures u.files == Seeded(t.files)
  {
    u := Next(t, Seed(p)).value;
    RunNext(s, steps, t, Seed(p), u);
  }

  lemma {:induction false} SoloLoad(s: State, steps: seq<Step>, t: State, p: nat, e: Event, tasks: seq<AgentTask>)
    returns (u: State)
    requires Run(s, steps) == Some(t) && p < |t.writers| && t.writers[p].pc == Sown(e)
    requires Load(t.files) == Some(tasks)
    ensures Run(s, steps + [ReadBack(p)]) == Some(u)
    ensures u.writers == t.writers[p := t.writers[p].(pc := Loaded(e, tasks))]
    ensures u.files == t.files
  {
    u := At(t, p, Loaded(e, tasks));
    ReadBackNext(t, p, e, tasks);
    RunNext(s, steps, t, ReadBack(p), u);
  }

  lemma {:induction false} ReadBackNext(t: State, p: nat, e: Event, tasks: seq<AgentTask>)
    requires p < |t.writers| && t.writers[p].pc == Sown(e) && Load(t.files) == Some(tasks)
    ensures Next(t, ReadBack(p)) == Some(At(t, p, Loaded(e, tasks)))
  {
  }

  lemma {:induction false} SoloPrepare(s: State, steps: seq<Step>, t: State, p: nat, e: Event, tasks: seq<AgentTask>,
                                       after: seq<AgentTask>)
    returns (u: State)
    requires Run(s, steps) == Some(t) && p < |t.writers| && t.writers[p].pc == Loaded(e, tasks)
    requires Apply(tasks, e) == Some(after)
    ensures Run(s, steps + [Prepare(p)]) == Some(u)
    ensures u.writers == t.writers[p := t.writers[p].(pc := Ready(e, after))] && u.files == t.files
  {
    u := At(t, p, Ready(e, after));
    RunNext(s, steps, t, Prepare(p), u);
  }

  lemma {:induction false} SoloAppend(s: State, steps: seq<Step>, t: State, p: nat, e: Event, tasks: seq<AgentTask>)
    returns (u: State)
    requires Run(s, steps) == Some(t) && p < |t.writers| && t.writers[p].pc == Ready(e, tasks)
    ensures Run(s, steps + [Append(p)]) == Some(u)
    ensures u.writers == t.writers[p := t.writers[p].(pc := Written(e, tasks))] && u.files == Appended(t.files, e)
  {
    u := At(t, p, Written(e, tasks)).(files := Appended(t.files, e),
                                      origins := t.origins + [By(p, |t.writers[p].outcomes|)]);
    RunNext(s, steps, t, Append(p), u);
  }

  lemma {:induction false} SoloSave(s: State, steps: seq<Step>, t: State, p: nat, e: Event, tasks: seq<AgentTask>)
    returns (u: State)
    requires Run(s, steps) == Some(t) && p < |t.writers| && t.writers[p].pc == Written(e, tasks)
    ensures Run(s, steps + [Save(p)]) == Some(u)
    ensures u.files == Saved(t.files, Prune(tasks)) && u.writers == t.writers[p := t.writers[p].(pc := Leaving(true))]
  {
    u := Next(t, Save(p)).value;
    RunNext(s, steps, t, Save(p), u);
  }

  lemma {:induction false} SoloRelease(s: State, steps: seq<Step>, t: State, p: nat) returns (u: State)
    requires Run(s, steps) == Some(t) && p < |t.writers| && t.writers[p].pc == Leaving(true)
    ensures Run(s, steps + [Release(p)]) == Some(u)
    ensures u.files == t.files && u.lock == None
    ensures p < |u.writers| && u.writers[p].outcomes == t.writers[p].outcomes + [Committed]
  {
    u := Next(t, Release(p)).value;
    RunNext(s, steps, t, Release(p), u);
  }

  predicate Solo(steps: seq<Step>, p: nat) {
    forall step :: step in steps ==> !step.ReadJournal? && !step.ReadSnapshot? && step.p == p
  }

  lemma {:induction false} SoloReads(s: State, p: nat, e: Event, tasks: seq<AgentTask>)
    returns (steps: seq<Step>, t: State)
    requires p < |s.writers| && s.writers[p].pc == Idle && s.lock == None && !e.Snapshot?
    requires Load(Seeded(s.files)) == Some(tasks)
    ensures Solo(steps, p) && Run(s, steps) == Some(t) && p < |t.writers|
    ensures t.writers[p].pc == Loaded(e, tasks) && t.writers[p].outcomes == s.writers[p].outcomes
    ensures t.files == Seeded(s.files)
  {
    t := SoloEnter(s, p, e);
    steps := [] + [Begin(p, e)] + [Acquire(p)];
    t := SoloSeed(s, steps, t, p, e);
    steps := steps + [Seed(p)];
    t := SoloLoad(s, steps, t, p, e, tasks);
    steps := steps + [ReadBack(p)];
  }

  lemma {:induction false} SoloWrites(s: State, steps: seq<Step>, t: State, p: nat, e: Event, tasks: seq<AgentTask>,
                                      after: seq<AgentTask>)
    returns (more: seq<Step>, u: State)
    requires Run(s, steps) == Some(t) && p < |t.writers| && t.writers[p].pc == Loaded(e, tasks)
    requires Apply(tasks, e) == Some(after) && Solo(steps, p)
    ensures Solo(more, p) && Run(s, more) == Some(u) && p < |u.writers|
    ensures u.writers[p] == t.writers[p].(pc := Written(e, after)) && u.files == Appended(t.files, e)
  {
    u := SoloPrepare(s, steps, t, p, e, tasks, after);
    more := steps + [Prepare(p)];
    u := SoloAppend(s, more, u, p, e, after);
    more := more + [Append(p)];
  }

  lemma {:induction false} SoloFinishes(s: State, steps: seq<Step>, t: State, p: nat, e: Event, after: seq<AgentTask>)
    returns (more: seq<Step>, u: State)
    requires Run(s, steps) == Some(t) && p < |t.writers| && t.writers[p].pc == Written(e, after) && Solo(steps, p)
    ensures Solo(more, p) && Run(s, more) == Some(u) && p < |u.writers| && u.lock == None
    ensures u.files == Saved(t.files, Prune(after))
    ensures u.writers[p].outcomes == t.writers[p].outcomes + [Committed]
  {
    u := SoloSave(s, steps, t, p, e, after);
    more := steps + [Save(p)];
    u := SoloRelease(s, more, u, p);
    more := more + [Release(p)];
  }

  /** One call run without interference changes the files as a recording does. */
  lemma {:induction false} SoloCallRecords(s: State, p: nat, e: Event) returns (steps: seq<Step>)
    requires p < |s.writers| && s.writers[p].pc == Idle && s.lock == None && !e.Snapshot?
    requires Prepared(s.files, e).Some?
    ensures Solo(steps, p)
    ensures Run(s, steps).Some? && p < |Run(s, steps).value.writers|
    ensures Run(s, steps).value.files == Recorded(s.files, e) && Run(s, steps).value.lock == None
    ensures Run(s, steps).value.writers[p].outcomes == s.writers[p].outcomes + [Committed]
  {
    var tasks, after := Load(Seeded(s.files)).value, Prepared(s.files, e).value;
    var t;
    steps, t := SoloReads(s, p, e, tasks);
    steps, t := SoloWrites(s, steps, t, p, e, tasks, after);
    steps, t := SoloFinishes(s, steps, t, p, e, after);
  }
}
