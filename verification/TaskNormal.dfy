/** Normal form, unique ids and error-free replay: what every journal event keeps. */
module TaskNormal {
  import opened Prelude
  import opened Text
  import opened Tasks

  predicate Holds(ts: seq<AgentTask>, id: string) {
    exists t :: t in ts && t.id == id
  }

  /** No id occurs twice. */
  predicate UniqueIds(ts: seq<AgentTask>) {
    ts != [] ==> UniqueIds(ts[..|ts| - 1]) && !Holds(ts[..|ts| - 1], ts[|ts| - 1].id)
  }

  lemma {:induction false} UniqueSnoc(front: seq<AgentTask>, last: AgentTask)
    ensures UniqueIds(front + [last]) <==> UniqueIds(front) && !Holds(front, last.id)
  {
    assert (front + [last])[..|front|] == front;
  }

  lemma {:induction false} IndexOfHolds(ts: seq<AgentTask>, id: string)
    ensures Holds(ts, id) <==> IndexOf(ts, id) < |ts|
  {
    var i := IndexOf(ts, id);
    if i < |ts| {
      assert ts[i] in ts;
    }
  }

  lemma {:induction false} IndexOfSnoc(front: seq<AgentTask>, last: AgentTask, id: string)
    ensures IndexOf(front + [last], id) ==
      if Holds(front, id) then IndexOf(front, id) else if last.id == id then |front| else |front| + 1
  {
    IndexOfHolds(front, id);
    var ts, i := front + [last], IndexOf(front, id);
    assert forall k :: 0 <= k < |front| ==> ts[k] == front[k];
    assert ts[|front|] == last;
    if i < |front| {
      assert ts[i].id == id;
    }
  }

  /** With unique ids, looking a member's id up finds that member. */
  lemma {:induction false} UniqueMember(ts: seq<AgentTask>, t: AgentTask)
    requires UniqueIds(ts) && t in ts
    ensures Lookup(ts, t.id) == Some(t)
  {
    var front, last := ts[..|ts| - 1], ts[|ts| - 1];
    assert ts == front + [last];
    IndexOfSnoc(front, last, t.id);
    if t in front {
      UniqueMember(front, t);
    }
  }

  lemma {:induction false} UniqueByIds(ts: seq<AgentTask>, us: seq<AgentTask>)
    requires UniqueIds(ts) && |us| == |ts|
    requires forall i :: 0 <= i < |ts| ==> us[i].id == ts[i].id
    ensures UniqueIds(us)
  {
    if ts != [] {
      UniqueByIds(ts[..|ts| - 1], us[..|us| - 1]);
    }
  }

  /** Snapshot lines list each id once. */
  predicate SnapshotsUnique(journal: seq<Event>) {
    forall e :: e in journal && e.Snapshot? && e.tasks.Some? ==> UniqueIds(e.tasks.value)
  }

  lemma {:induction false} ParticipantsOnlyGrow(participants: seq<string>, name: string)
    ensures participants <= AddParticipant(participants, name)
    ensures Names(AddParticipant(participants, name), name)
    ensures forall other :: Names(participants, other) ==> Names(AddParticipant(participants, name), other)
  {
    TrimIsTrimmed(name);
  }

  /** The first of some names that is not blank. */
  function FirstNamed(names: seq<string>): string {
    if names == [] then "" else if Trim(names[0]) != "" then names[0] else FirstNamed(names[1..])
  }

  /** A missing owner is taken from the first message, and is "parent" without one. */
  lemma {:induction false} OwnerDefaults(t: AgentTask)
    ensures var authors := if t.messages == [] then [] else [t.messages[0].author];
            Normalize(t).owner == FirstNamed([t.owner] + authors + ["parent"])
  {
    TrimTrimmed("parent");
    assert FirstNamed(["parent"]) == "parent";
    if t.messages != [] {
      var author := t.messages[0].author;
      assert [author, "parent"][1..] == ["parent"];
      assert ([t.owner] + [author] + ["parent"])[1..] == [author, "parent"];
    } else {
      assert ([t.owner] + [] + ["parent"])[1..] == ["parent"];
    }
  }

  /** Normalizing reaches the normal form, and changes a task exactly when it is not in it. */
  lemma {:induction false} NormalizeFixpoint(t: AgentTask)
    ensures NormalForm(Normalize(t))
    ensures Normalize(t) == t <==> NormalForm(t)
    ensures Normalize(Normalize(t)) == Normalize(t)
  {
    var owner := OwnerOf(t);
    assert Trim("parent") == "parent" by { TrimTrimmed("parent"); }
    assert Trim(owner) != "";
    var once := AddParticipant(t.participants, owner);
    ParticipantsOnlyGrow(t.participants, owner);
    ParticipantsOnlyGrow(once, t.agent);
    var n := Normalize(t);
    assert NormalForm(n);
    assert OwnerOf(n) == n.owner;
    assert Normalize(n) == n;
  }

  lemma {:induction false} NormalizeAllFixpoint(ts: seq<AgentTask>)
    ensures AllNormal(NormalizeAll(ts))
    ensures AllNormal(ts) ==> NormalizeAll(ts) == ts
    ensures UniqueIds(ts) ==> UniqueIds(NormalizeAll(ts))
  {
    forall t | t in NormalizeAll(ts) ensures NormalForm(t) {
      var i :| 0 <= i < |ts| && t == NormalizeAll(ts)[i];
      NormalizeFixpoint(ts[i]);
    }
    forall i | 0 <= i < |ts| && NormalForm(ts[i]) ensures NormalizeAll(ts)[i] == ts[i] {
      NormalizeFixpoint(ts[i]);
    }
    if UniqueIds(ts) {
      UniqueByIds(ts, NormalizeAll(ts));
    }
  }

  /** The author a by-id event names, the addressed task's agent standing in for a missing one. */
  function Actor(t: AgentTask, e: Event): string
    requires ById(e)
  {
    match e
    case StateUpdated(_, _, author, message, _) =>
      if message.Some? && author.Some? then author.value else t.agent
    case MessageAppended(_, sender, _, _) => sender
    case ScratchpadAppended(_, sender, _, _, _, _) => sender
    case ParticipantAdded(_, participant, _) => participant
  }

  /** A by-id event keeps identity and normal form, appends to the participants only, and registers its actor. */
  lemma {:induction false} UpdateKeepsNormal(t: AgentTask, e: Event)
    requires ById(e) && NormalForm(t) && Updated(t, e).Some?
    ensures var u := Updated(t, e).value;
            && NormalForm(u)
            && u.id == t.id && u.owner == t.owner && u.agent == t.agent
            && t.participants <= u.participants
            && Names(u.participants, Actor(t, e))
  {
    var actor := Actor(t, e);
    ParticipantsOnlyGrow(t.participants, actor);
  }

  lemma {:induction false} WithoutMembers(ts: seq<AgentTask>, id: string)
    ensures forall t :: t in Without(ts, id) <==> t in ts && t.id != id
  {
    if ts != [] {
      var front := ts[..|ts| - 1];
      WithoutMembers(front, id);
      assert ts == front + [ts[|ts| - 1]];
    }
  }

  lemma {:induction false} WithoutUnique(ts: seq<AgentTask>, id: string)
    requires UniqueIds(ts)
    ensures UniqueIds(Without(ts, id))
    ensures !Holds(ts, id) ==> Without(ts, id) == ts
  {
    if ts != [] {
      var front, last := ts[..|ts| - 1], ts[|ts| - 1];
      assert ts == front + [last];
      UniqueSnoc(front, last);
      WithoutUnique(front, id);
      WithoutMembers(front, id);
      UniqueSnoc(Without(front, id), last);
    }
  }

  /** Every event keeps the list normal and its ids unique. */
  lemma {:induction false} ApplyKeepsNormal(ts: seq<AgentTask>, e: Event)
    requires AllNormal(ts) && Apply(ts, e).Some?
    ensures AllNormal(Apply(ts, e).value)
    ensures UniqueIds(ts) && SnapshotsUnique([e]) ==> UniqueIds(Apply(ts, e).value)
  {
    if e.Snapshot? {
      NormalizeAllFixpoint(e.tasks.value);
      assert e in [e];
    } else if e.Created? {
      var task := e.task.value;
      WithoutMembers(ts, task.id);
      NormalizeFixpoint(task);
      if UniqueIds(ts) {
        WithoutUnique(ts, task.id);
        UniqueSnoc(Without(ts, task.id), Normalize(task));
      }
    } else {
      var i := IndexOf(ts, e.id);
      if i < |ts| {
        UpdateKeepsNormal(ts[i], e);
        if UniqueIds(ts) {
          UniqueByIds(ts, Apply(ts, e).value);
        }
      }
    }
  }

  lemma {:induction false} ReplayKeepsNormal(start: seq<AgentTask>, journal: seq<Event>)
    requires AllNormal(start) && Replay(start, journal).Some?
    ensures AllNormal(Replay(start, journal).value)
    ensures NormalizeAll(Replay(start, journal).value) == Replay(start, journal).value
    ensures UniqueIds(start) && SnapshotsUnique(journal) ==> UniqueIds(Replay(start, journal).value)
  {
    if journal != [] {
      var front, e := journal[..|journal| - 1], journal[|journal| - 1];
      ReplayKeepsNormal(start, front);
      ApplyKeepsNormal(Replay(start, front).value, e);
      assert journal == front + [e];
    }
    NormalizeAllFixpoint(Replay(start, journal).value);
  }

  // ── Journals written through the public methods ──────────────────────────────

  function NewTask(id: string, agent: string, message: string, owner: string, now: string): AgentTask {
    AgentTask(id, agent, owner, [owner, agent], Submitted, now, now, None,
              [TaskMessage(owner, message, now)], [], [], 0)
  }

  /** The events the public methods build (seeding adds a snapshot that decodes). */
  ghost predicate WrittenByApi(e: Event) {
    match e
    case Snapshot(tasks) => tasks.Some?
    case Created(task) => task.Some? && exists m, now ::
      task.value == NewTask(task.value.id, task.value.agent, m, task.value.owner, now)
    case StateUpdated(_, name, _, _, _) => exists s :: name == StateName(s)
    case _ => true
  }

  /**
   A journal written through the public methods replays without an error, to
   normal tasks; their ids are unique if those of every seeded snapshot are.
   */
  lemma {:induction false} ApiJournalReplays(start: seq<AgentTask>, journal: seq<Event>)
    requires AllNormal(start) && forall e :: e in journal ==> WrittenByApi(e)
    ensures Replay(start, journal).Some?
    ensures AllNormal(Replay(start, journal).value)
    ensures UniqueIds(start) && SnapshotsUnique(journal) ==> UniqueIds(Replay(start, journal).value)
  {
    if journal != [] {
      var front, e := journal[..|journal| - 1], journal[|journal| - 1];
      assert forall f :: f in front ==> f in journal;
      ApiJournalReplays(start, front);
      assert WrittenByApi(e);
    }
    ReplayKeepsNormal(start, journal);
  }
}
