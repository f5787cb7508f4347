/**
 The bounded windows of a task against its unbounded history: whatever the
 journal, the stored messages, notes and header are the ends of the sequences
 of everything ever accepted.
 */
module TaskWindows {
  import opened Prelude
  import opened Text
  import opened Tasks
  import opened TaskNormal

  // ── History: what a journal says about one task, without any cap ─────────────

  /** The message an event adds to the task `id`, if any. */
  function Spoken(e: Event, id: string, agent: string): seq<TaskMessage> {
    match e
    case StateUpdated(i, _, author, Some(text), timestamp) =>
      if i == id then [TaskMessage(if author.Some? then author.value else agent, text, timestamp)] else []
    case MessageAppended(i, sender, text, timestamp) =>
      if i == id then [TaskMessage(sender, text, timestamp)] else []
    case _ => []
  }

  /** The note an event adds to the given section of the task `id`, if any. */
  function Scratched(e: Event, id: string, header: bool): seq<Note> {
    match e
    case ScratchpadAppended(i, sender, note, kind, section, timestamp) =>
      if i == id && (section == "header") == header then [Note(sender, note, timestamp, kind)] else []
    case _ => []
  }

  function Messages(journal: seq<Event>, id: string, agent: string): seq<TaskMessage> {
    if journal == [] then []
    else Messages(journal[..|journal| - 1], id, agent) + Spoken(journal[|journal| - 1], id, agent)
  }

  function Notes(journal: seq<Event>, id: string, header: bool): seq<Note> {
    if journal == [] then []
    else Notes(journal[..|journal| - 1], id, header) + Scratched(journal[|journal| - 1], id, header)
  }

  /** The result a history leaves: the text of the last update of the task to an end state that carried one. */
  function ResultOf(journal: seq<Event>, id: string, start: Option<string>): Option<string> {
    if journal == [] then start
    else
      var before := ResultOf(journal[..|journal| - 1], id, start);
      match journal[|journal| - 1]
      case StateUpdated(i, name, _, Some(text), _) =>
        if i == id && (name == "completed" || name == "failed" || name == "canceled") then Some(text) else before
      case _ => before
  }

  /** The state a history leaves: the one last named for the task. */
  function StateOf(journal: seq<Event>, id: string, start: TaskState): TaskState {
    if journal == [] then start
    else
      var before := StateOf(journal[..|journal| - 1], id, start);
      match journal[|journal| - 1]
      case StateUpdated(i, name, _, _, _) =>
        if i != id then before
        else if name == "submitted" then Submitted
        else if name == "working" then Working
        else if name == "input_required" then InputRequired
        else if name == "completed" then Completed
        else if name == "failed" then Failed
        else if name == "canceled" then Canceled
        else before
      case _ => before
  }

  /** When a history last touched the task. */
  function LastTouched(journal: seq<Event>, id: string, start: string): string {
    if journal == [] then start
    else
      var e := journal[|journal| - 1];
      if !e.Snapshot? && !e.Created? && e.id == id then e.timestamp
      else LastTouched(journal[..|journal| - 1], id, start)
  }

  /** All header notes of a history, each moved to the back when its kind is written again. */
  function MoveToBack(start: seq<Note>, notes: seq<Note>): seq<Note> {
    if notes == [] then start
    else
      var last := notes[|notes| - 1];
      WithoutKind(MoveToBack(start, notes[..|notes| - 1]), last.kind) + [last]
  }

  /** A window that is cut to `cap` whenever something is added, and only then. */
  function Window<T>(start: seq<T>, added: seq<T>, cap: nat): seq<T> {
    if added == [] then start else LastN(start + added, cap)
  }

  /** No kind occurs twice. */
  predicate DistinctKinds(notes: seq<Note>) {
    notes != [] ==> DistinctKinds(notes[..|notes| - 1]) && NoKind(notes[..|notes| - 1], notes[|notes| - 1].kind)
  }

  predicate NoKind(notes: seq<Note>, kind: string) {
    forall n :: n in notes ==> n.kind != kind
  }

  /** Neither replaces the list nor re-creates the task `id`. */
  predicate Spares(e: Event, id: string) {
    !e.Snapshot? && (e.Created? && e.task.Some? ==> e.task.value.id != id)
  }

  // ── One step ─────────────────────────────────────────────────────────────────

  lemma {:induction false} LookupSnoc(front: seq<AgentTask>, last: AgentTask, id: string)
    ensures Lookup(front + [last], id) ==
      if Lookup(front, id).Some? then Lookup(front, id) else if last.id == id then Some(last) else None
  {
    IndexOfSnoc(front, last, id);
    IndexOfHolds(front, id);
  }

  lemma {:induction false} LookupWithout(ts: seq<AgentTask>, other: string, id: string)
    requires other != id
    ensures Lookup(Without(ts, other), id) == Lookup(ts, id)
  {
    if ts != [] {
      var front, last := ts[..|ts| - 1], ts[|ts| - 1];
      assert ts == front + [last];
      LookupWithout(front, other, id);
      LookupSnoc(front, last, id);
      LookupSnoc(Without(front, other), last, id);
    }
  }

  lemma {:induction false} LookupUpdated(ts: seq<AgentTask>, i: nat, u: AgentTask, id: string)
    requires i < |ts| && u.id == ts[i].id && i == IndexOf(ts, u.id)
    ensures Lookup(ts[i := u], id) == if id == u.id then Some(u) else Lookup(ts, id)
  {
    var us := ts[i := u];
    assert forall k :: 0 <= k < |ts| ==> us[k].id == ts[k].id;
    var j, k := IndexOf(ts, id), IndexOf(us, id);
    assert j == k;
  }

  /** An event that spares a task leaves it alone or updates it in place. */
  lemma {:induction false} OneEvent(ts: seq<AgentTask>, e: Event, t: AgentTask)
    requires Lookup(ts, t.id) == Some(t) && Spares(e, t.id) && Apply(ts, e).Some?
    ensures ById(e) && e.id == t.id ==> Updated(t, e).Some?
    ensures Lookup(Apply(ts, e).value, t.id) == Some(if ById(e) && e.id == t.id then Updated(t, e).value else t)
  {
    if e.Created? {
      LookupWithout(ts, e.task.value.id, t.id);
      LookupSnoc(Without(ts, e.task.value.id), Normalize(e.task.value), t.id);
    } else {
      var i := IndexOf(ts, e.id);
      if i < |ts| {
        LookupUpdated(ts, i, Updated(ts[i], e).value, t.id);
      }
    }
  }

  /** An update in place adds what the history says, to the section it says. */
  lemma {:induction false} OneUpdate(t: AgentTask, e: Event)
    requires ById(e) && Updated(t, e).Some?
    ensures var u, id, said := Updated(t, e).value, e.id, Spoken(e, e.id, t.agent);
            && u.id == t.id && u.agent == t.agent
            && u.messages == Window(t.messages, said, MAX_MESSAGES_PER_TASK)
            && u.scratchpad == Window(t.scratchpad, Scratched(e, id, false), MAX_SCRATCHPAD_ENTRIES)
            && u.header == (if Scratched(e, id, true) == [] then t.header
                            else LastN(MoveToBack(t.header, Scratched(e, id, true)), MAX_SCRATCHPAD_HEADER_ENTRIES))
            && u.revision == t.revision + |Scratched(e, id, true)| + |Scratched(e, id, false)|
  {
    if e.ScratchpadAppended? {
      var n := Note(e.sender, e.note, e.timestamp, e.kind);
      assert MoveToBack(t.header, [n]) == WithoutKind(t.header, n.kind) + [n] by {
        assert [n][..0] == [];
      }
    }
  }

  lemma {:induction false} WindowStep<T>(start: seq<T>, added: seq<T>, more: seq<T>, cap: nat)
    ensures Window(Window(start, added, cap), more, cap) == Window(start, added + more, cap)
  {
    if more == [] {
      assert added + more == added;
    } else if added == [] {
      assert added + more == more;
    } else {
      assert added + more != [] && start + added + more == start + (added + more);
      LastNConcat(start + added, more, cap);
    }
  }

  // ── The header ───────────────────────────────────────────────────────────────

  lemma {:induction false} WithoutKindSnoc(front: seq<Note>, last: Note, kind: string)
    ensures WithoutKind(front + [last], kind) ==
      if last.kind == kind then WithoutKind(front, kind) else WithoutKind(front, kind) + [last]
  {
    assert (front + [last])[..|front|] == front;
  }

  lemma {:induction false} WithoutKindMembers(notes: seq<Note>, kind: string)
    ensures forall n :: n in WithoutKind(notes, kind) ==> n in notes && n.kind != kind
    ensures NoKind(notes, kind) ==> WithoutKind(notes, kind) == notes
  {
    if notes != [] {
      var front := notes[..|notes| - 1];
      assert notes == front + [notes[|notes| - 1]];
      WithoutKindMembers(front, kind);
    }
  }

  lemma {:induction false} DistinctSnoc(front: seq<Note>, last: Note)
    ensures DistinctKinds(front + [last]) <==> DistinctKinds(front) && NoKind(front, last.kind)
  {
    assert (front + [last])[..|front|] == front;
  }

  lemma {:induction false} WithoutKindDistinct(notes: seq<Note>, kind: string)
    requires DistinctKinds(notes)
    ensures DistinctKinds(WithoutKind(notes, kind))
  {
    if notes != [] {
      var front, last := notes[..|notes| - 1], notes[|notes| - 1];
      WithoutKindDistinct(front, kind);
      WithoutKindMembers(front, kind);
      DistinctSnoc(WithoutKind(front, kind), last);
    }
  }

  lemma {:induction false} CutAtKind(front: seq<Note>, last: Note, n: nat)
    requires NoKind(front, last.kind)
    ensures LastN(WithoutKind(front + [last], last.kind), n)
         == LastN(WithoutKind(LastN(front + [last], n + 1), last.kind), n)
  {
    LastNAppend(front, last, n + 1);
    WithoutKindSnoc(front, last, last.kind);
    WithoutKindSnoc(LastN(front, n), last, last.kind);
    WithoutKindMembers(front, last.kind);
    assert NoKind(LastN(front, n), last.kind);
    WithoutKindMembers(LastN(front, n), last.kind);
    LastNTwice(front, n, n);
  }

  /** Cutting before or after a kind is moved away makes no difference, with one slot of slack. */
  lemma {:induction false} CutCommutes(notes: seq<Note>, kind: string, n: nat)
    requires DistinctKinds(notes)
    ensures LastN(WithoutKind(notes, kind), n) == LastN(WithoutKind(LastN(notes, n + 1), kind), n)
  {
    if notes != [] && n > 0 {
      var front, last := notes[..|notes| - 1], notes[|notes| - 1];
      assert notes == front + [last];
      if last.kind == kind {
        CutAtKind(front, last, n);
      } else {
        CutCommutes(front, kind, n - 1);
        CutPast(front, last, kind, n);
      }
    }
  }

  lemma {:induction false} CutPast(front: seq<Note>, last: Note, kind: string, n: nat)
    requires n > 0 && last.kind != kind
    requires LastN(WithoutKind(front, kind), n - 1) == LastN(WithoutKind(LastN(front, n), kind), n - 1)
    ensures LastN(WithoutKind(front + [last], kind), n) == LastN(WithoutKind(LastN(front + [last], n + 1), kind), n)
  {
    LastNAppend(front, last, n + 1);
    WithoutKindSnoc(front, last, kind);
    WithoutKindSnoc(LastN(front, n), last, kind);
    LastNAppend(WithoutKind(front, kind), last, n);
    LastNAppend(WithoutKind(LastN(front, n), kind), last, n);
  }

  lemma {:induction false} MoveToBackDistinct(start: seq<Note>, notes: seq<Note>)
    requires DistinctKinds(start)
    ensures DistinctKinds(MoveToBack(start, notes))
  {
    if notes != [] {
      var front, last := notes[..|notes| - 1], notes[|notes| - 1];
      MoveToBackDistinct(start, front);
      WithoutKindDistinct(MoveToBack(start, front), last.kind);
      WithoutKindMembers(MoveToBack(start, front), last.kind);
      DistinctSnoc(WithoutKind(MoveToBack(start, front), last.kind), last);
    }
  }

  lemma {:induction false} MoveSnoc(start: seq<Note>, notes: seq<Note>, last: Note)
    ensures MoveToBack(start, notes + [last]) == WithoutKind(MoveToBack(start, notes), last.kind) + [last]
  {
    assert (notes + [last])[..|notes|] == notes;
  }

  /** The capped header follows the uncapped one. */
  lemma {:induction false} HeaderStep(start: seq<Note>, notes: seq<Note>, last: Note, cap: nat)
    requires DistinctKinds(start) && cap > 0
    ensures MoveToBack(start, notes + [last]) == WithoutKind(MoveToBack(start, notes), last.kind) + [last]
    ensures LastN(MoveToBack(LastN(MoveToBack(start, notes), cap), [last]), cap)
         == LastN(MoveToBack(start, notes + [last]), cap)
  {
    var full := MoveToBack(start, notes);
    MoveSnoc(start, notes, last);
    MoveOne(LastN(full, cap), last);
    MoveToBackDistinct(start, notes);
    CutStep(full, last, cap);
  }

  lemma {:induction false} MoveOne(start: seq<Note>, last: Note)
    ensures MoveToBack(start, [last]) == WithoutKind(start, last.kind) + [last]
  {
    MoveSnoc(start, [], last);
    assert [] + [last] == [last];
  }

  lemma {:induction false} CutStep(full: seq<Note>, last: Note, cap: nat)
    requires DistinctKinds(full) && cap > 0
    ensures LastN(WithoutKind(LastN(full, cap), last.kind) + [last], cap)
         == LastN(WithoutKind(full, last.kind) + [last], cap)
  {
    CutCommutes(full, last.kind, cap - 1);
    LastNAppend(WithoutKind(full, last.kind), last, cap);
    LastNAppend(WithoutKind(LastN(full, cap), last.kind), last, cap);
  }

  // ── Any journal ──────────────────────────────────────────────────────────────

  /** The header a history of header notes leaves. */
  function HeaderWindow(start: seq<Note>, notes: seq<Note>): seq<Note> {
    if notes == [] then start else LastN(MoveToBack(start, notes), MAX_SCRATCHPAD_HEADER_ENTRIES)
  }

  /** A task as its history says it should be. */
  predicate FollowsHistory(t: AgentTask, journal: seq<Event>, u: AgentTask) {
    && u.id == t.id && u.agent == t.agent
    && u.messages == Window(t.messages, Messages(journal, t.id, t.agent), MAX_MESSAGES_PER_TASK)
    && u.scratchpad == Window(t.scratchpad, Notes(journal, t.id, false), MAX_SCRATCHPAD_ENTRIES)
    && u.header == HeaderWindow(t.header, Notes(journal, t.id, true))
    && u.revision == t.revision + |Notes(journal, t.id, true)| + |Notes(journal, t.id, false)|
    && StandsAt(t, journal, u)
  }

  /** Result, state and last change are what the history says; owner and creation stay. */
  predicate StandsAt(t: AgentTask, journal: seq<Event>, u: AgentTask) {
    && u.outcome == ResultOf(journal, t.id, t.outcome)
    && u.state == StateOf(journal, t.id, t.state)
    && u.updatedAt == LastTouched(journal, t.id, t.updatedAt)
    && u.owner == t.owner && u.createdAt == t.createdAt
  }

  lemma {:induction false} StandStep(t: AgentTask, front: seq<Event>, e: Event, u: AgentTask)
    requires StandsAt(t, front, u) && ById(e) && e.id == t.id && Updated(u, e).Some?
    ensures StandsAt(t, front + [e], Updated(u, e).value)
  {
    assert (front + [e])[..|front|] == front;
    if e.StateUpdated? {
      assert ParseState(e.state).Some?;
    }
  }

  lemma {:induction false} StandSkip(t: AgentTask, front: seq<Event>, e: Event, u: AgentTask)
    requires StandsAt(t, front, u) && !(ById(e) && e.id == t.id)
    ensures StandsAt(t, front + [e], u)
  {
    assert (front + [e])[..|front|] == front;
  }

  lemma {:induction false} FollowStep(t: AgentTask, front: seq<Event>, e: Event, u: AgentTask)
    requires DistinctKinds(t.header) && FollowsHistory(t, front, u)
    requires ById(e) && e.id == t.id && Updated(u, e).Some?
    ensures FollowsHistory(t, front + [e], Updated(u, e).value)
  {
    var journal := front + [e];
    assert journal[..|front|] == front;
    OneUpdate(u, e);
    StandStep(t, front, e, u);
    WindowStep(t.messages, Messages(front, t.id, t.agent), Spoken(e, t.id, t.agent), MAX_MESSAGES_PER_TASK);
    WindowStep(t.scratchpad, Notes(front, t.id, false), Scratched(e, t.id, false), MAX_SCRATCHPAD_ENTRIES);
    HeaderWindowStep(t.header, Notes(front, t.id, true), Scratched(e, t.id, true));
  }

  lemma {:induction false} HeaderWindowStep(start: seq<Note>, noted: seq<Note>, note: seq<Note>)
    requires DistinctKinds(start) && |note| <= 1
    ensures HeaderWindow(HeaderWindow(start, noted), note) == HeaderWindow(start, noted + note)
  {
    if note == [] {
      assert noted + note == noted;
    } else if noted == [] {
      assert noted + note == note;
    } else {
      HeaderStep(start, noted, note[0], MAX_SCRATCHPAD_HEADER_ENTRIES);
      assert note == [note[0]];
    }
  }

  lemma {:induction false} FollowSkip(t: AgentTask, front: seq<Event>, e: Event, u: AgentTask)
    requires FollowsHistory(t, front, u) && !(ById(e) && e.id == t.id)
    ensures FollowsHistory(t, front + [e], u)
  {
    var journal := front + [e];
    assert journal[..|front|] == front;
    StandSkip(t, front, e, u);
    assert Messages(journal, t.id, t.agent) == Messages(front, t.id, t.agent);
    assert Notes(journal, t.id, true) == Notes(front, t.id, true);
    assert Notes(journal, t.id, false) == Notes(front, t.id, false);
  }

  lemma {:induction false} HeaderDistinct(start: seq<Note>, notes: seq<Note>)
    requires DistinctKinds(start)
    ensures DistinctKinds(HeaderWindow(start, notes))
  {
    MoveToBackDistinct(start, notes);
    SuffixDistinct(MoveToBack(start, notes), MAX_SCRATCHPAD_HEADER_ENTRIES);
  }

  lemma {:induction false} SuffixDistinct(notes: seq<Note>, n: nat)
    requires DistinctKinds(notes)
    ensures DistinctKinds(LastN(notes, n))
  {
    if notes != [] && n > 0 {
      var front, last := notes[..|notes| - 1], notes[|notes| - 1];
      assert notes == front + [last];
      SuffixDistinct(front, n - 1);
      LastNAppend(front, last, n);
      assert NoKind(LastN(front, n - 1), last.kind);
      DistinctSnoc(LastN(front, n - 1), last);
    }
  }

  lemma {:induction false} FollowEvent(t: AgentTask, front: seq<Event>, e: Event, ts: seq<AgentTask>)
    requires DistinctKinds(t.header) && Lookup(ts, t.id).Some? && Spares(e, t.id) && Apply(ts, e).Some?
    requires FollowsHistory(t, front, Lookup(ts, t.id).value)
    ensures Lookup(Apply(ts, e).value, t.id).Some?
    ensures FollowsHistory(t, front + [e], Lookup(Apply(ts, e).value, t.id).value)
  {
    var u := Lookup(ts, t.id).value;
    OneEvent(ts, e, u);
    if ById(e) && e.id == t.id {
      FollowStep(t, front, e, u);
    } else {
      FollowSkip(t, front, e, u);
    }
  }

  /**
   After any journal that spares a task, its messages are the last 30 of all
   messages it ever accepted, its scratchpad the last 50 of all notes, its header
   the last 12 of the uncapped move-to-back list (one per kind), and its revision
   counts every scratchpad event. Its result is the text of the last update to an
   end state that carried one, its state the last one named, and it was last
   changed when an event last named it.
   */
  lemma {:induction false} WindowsFollowHistory(ts: seq<AgentTask>, journal: seq<Event>, t: AgentTask)
    requires Lookup(ts, t.id) == Some(t) && DistinctKinds(t.header)
    requires forall e :: e in journal ==> Spares(e, t.id)
    requires Replay(ts, journal).Some?
    ensures Lookup(Replay(ts, journal).value, t.id).Some?
    ensures FollowsHistory(t, journal, Lookup(Replay(ts, journal).value, t.id).value)
    ensures DistinctKinds(Lookup(Replay(ts, journal).value, t.id).value.header)
  {
    HeaderDistinct(t.header, Notes(journal, t.id, true));
    FollowsAfter(ts, journal, t, Replay(ts, journal).value);
  }

  lemma {:induction false} ReplayBack(ts: seq<AgentTask>, journal: seq<Event>, after: seq<AgentTask>)
    returns (before: seq<AgentTask>)
    requires journal != [] && Replay(ts, journal) == Some(after)
    ensures Replay(ts, journal[..|journal| - 1]) == Some(before) && Apply(before, journal[|journal| - 1]) == Some(after)
  {
    before := Replay(ts, journal[..|journal| - 1]).value;
  }

  lemma {:induction false} FollowsAfter(ts: seq<AgentTask>, journal: seq<Event>, t: AgentTask, after: seq<AgentTask>)
    requires Lookup(ts, t.id) == Some(t) && DistinctKinds(t.header)
    requires forall e :: e in journal ==> Spares(e, t.id)
    requires Replay(ts, journal) == Some(after)
    ensures Lookup(after, t.id).Some? && FollowsHistory(t, journal, Lookup(after, t.id).value)
  {
    if journal != [] {
      var front, e := journal[..|journal| - 1], journal[|journal| - 1];
      assert journal == front + [e];
      var before := ReplayBack(ts, journal, after);
      FollowsAfter(ts, front, t, before);
      FollowEvent(t, front, e, before);
    }
  }

  /** Participants only grow, and the actor of every event of the task is among them from then on. */
  predicate Registers(t: AgentTask, journal: seq<Event>, u: AgentTask) {
    && NormalForm(u) && u.id == t.id && u.agent == t.agent && t.participants <= u.participants
    && (forall k :: 0 <= k < |journal| && ById(journal[k]) && journal[k].id == t.id ==>
          Names(u.participants, Actor(t, journal[k])))
    && forall name :: name in u.participants ==> name in t.participants || IsActor(t, journal, name)
  }

  /** Someone of this name acted on the task. */
  predicate IsActor(t: AgentTask, journal: seq<Event>, name: string) {
    exists k :: 0 <= k < |journal| && ById(journal[k]) && journal[k].id == t.id && Trim(Actor(t, journal[k])) == name
  }

  lemma {:induction false} NamesGrow(before: seq<string>, after: seq<string>, name: string)
    requires Names(before, name) && before <= after
    ensures Names(after, name)
  {
    assert forall n :: n in before ==> n in after;
  }

  lemma {:induction false} RegistersNobodyElse(t: AgentTask, front: seq<Event>, e: Event, u: AgentTask)
    requires Registers(t, front, u) && (ById(e) && e.id == t.id ==> Updated(u, e).Some?)
    ensures var v := if ById(e) && e.id == t.id then Updated(u, e).value else u;
            forall name :: name in v.participants ==> name in t.participants || IsActor(t, front + [e], name)
  {
    var journal, v := front + [e], if ById(e) && e.id == t.id then Updated(u, e).value else u;
    assert journal[|front|] == e;
    forall name | name in v.participants ensures name in t.participants || IsActor(t, journal, name) {
      if name in u.participants {
        if name !in t.participants {
          var k :| 0 <= k < |front| && ById(front[k]) && front[k].id == t.id && Trim(Actor(t, front[k])) == name;
          assert journal[k] == front[k];
        }
      } else {
        assert Trim(Actor(t, e)) == name;
      }
    }
  }

  lemma {:induction false} RegistersNext(t: AgentTask, front: seq<Event>, e: Event, u: AgentTask)
    requires Registers(t, front, u) && (ById(e) && e.id == t.id ==> Updated(u, e).Some?)
    ensures Registers(t, front + [e], if ById(e) && e.id == t.id then Updated(u, e).value else u)
  {
    var journal, v := front + [e], if ById(e) && e.id == t.id then Updated(u, e).value else u;
    RegistersNobodyElse(t, front, e, u);
    if ById(e) && e.id == t.id {
      UpdateKeepsNormal(u, e);
    }
    forall k | 0 <= k < |journal| && ById(journal[k]) && journal[k].id == t.id
      ensures Names(v.participants, Actor(t, journal[k]))
    {
      if k < |front| {
        assert journal[k] == front[k];
        NamesGrow(u.participants, v.participants, Actor(t, front[k]));
      }
    }
  }

  lemma {:induction false} RegistersAfter(ts: seq<AgentTask>, journal: seq<Event>, t: AgentTask, after: seq<AgentTask>)
    requires Lookup(ts, t.id) == Some(t) && NormalForm(t)
    requires forall e :: e in journal ==> Spares(e, t.id)
    requires Replay(ts, journal) == Some(after)
    ensures Lookup(after, t.id).Some? && Registers(t, journal, Lookup(after, t.id).value)
  {
    if journal != [] {
      var front, e := journal[..|journal| - 1], journal[|journal| - 1];
      assert journal == front + [e];
      var before := ReplayBack(ts, journal, after);
      RegistersAfter(ts, front, t, before);
      var u := Lookup(before, t.id).value;
      OneEvent(before, e, u);
      RegistersNext(t, front, e, u);
    }
  }

  /** After any journal that spares a task, its participants are those it had and everyone who acted on it. */
  lemma {:induction false} ActorsAreParticipants(ts: seq<AgentTask>, journal: seq<Event>, t: AgentTask, k: nat)
    requires Lookup(ts, t.id) == Some(t) && NormalForm(t)
    requires forall e :: e in journal ==> Spares(e, t.id)
    requires Replay(ts, journal).Some?
    requires k < |journal| && ById(journal[k]) && journal[k].id == t.id
    ensures var u := Lookup(Replay(ts, journal).value, t.id);
            && u.Some? && t.participants <= u.value.participants
            && Names(u.value.participants, Actor(t, journal[k]))
            && forall name :: name in u.value.participants ==> name in t.participants || IsActor(t, journal, name)
  {
    RegistersAfter(ts, journal, t, Replay(ts, journal).value);
  }

  /** For a task made by `create`, under any id: the caps hold, and the windows start from its first message alone. */
  lemma {:induction false} CreatedTaskWindows(before: seq<AgentTask>, t: AgentTask, journal: seq<Event>,
                                              message: string, now: string)
    requires t == NewTask(t.id, t.agent, message, t.owner, now)
    requires forall e :: e in journal ==> Spares(e, t.id)
    requires Replay(before, [Created(Some(t))] + journal).Some?
    ensures Lookup(Replay(before, [Created(Some(t))] + journal).value, t.id).Some?
    ensures AsCreated(t, journal, Lookup(Replay(before, [Created(Some(t))] + journal).value, t.id).value)
  {
    ReplaySplit(before, Created(Some(t)), journal);
    var n := Normalize(t);
    var made := Without(before, t.id) + [n];
    LookupOfWithout(before, t.id);
    LookupSnoc(Without(before, t.id), n, t.id);
    OwnerDefaults(t);
    assert [t.owner] + [t.owner] + ["parent"] == [t.owner, t.owner, "parent"];
    WindowsFollowHistory(made, journal, n);
    HeaderDistinct([], Notes(journal, t.id, true));
    assert [] + Notes(journal, t.id, false) == Notes(journal, t.id, false);
    assert t.messages + [] == t.messages;
  }

  predicate AsCreated(t: AgentTask, journal: seq<Event>, u: AgentTask) {
    var noted := Notes(journal, t.id, true);
    && u.messages == LastN(t.messages + Messages(journal, t.id, t.agent), 30)
    && u.scratchpad == LastN(Notes(journal, t.id, false), 50)
    && u.header == LastN(MoveToBack([], noted), 12)
    && DistinctKinds(u.header)
    && u.revision == |noted| + |Notes(journal, t.id, false)|
    && u.outcome == ResultOf(journal, t.id, None)
    && u.state == StateOf(journal, t.id, Submitted)
    && u.updatedAt == LastTouched(journal, t.id, t.createdAt)
    && u.createdAt == t.createdAt
    && u.owner == (if Trim(t.owner) == "" then "parent" else t.owner)
  }

  lemma {:induction false} LookupOfWithout(ts: seq<AgentTask>, id: string)
    ensures Lookup(Without(ts, id), id) == None
  {
    WithoutMembers(ts, id);
    IndexOfHolds(Without(ts, id), id);
  }

  lemma {:induction false} ReplaySplit(start: seq<AgentTask>, e: Event, journal: seq<Event>)
    ensures Replay(start, [e] + journal) ==
      match Apply(start, e) case None => None case Some(ts) => Replay(ts, journal)
  {
    var all := [e] + journal;
    if journal == [] {
      assert all == [e] && [e][..0] == [];
    } else {
      ReplaySplit(start, e, journal[..|journal| - 1]);
      assert all[..|all| - 1] == [e] + journal[..|journal| - 1];
    }
  }
}
