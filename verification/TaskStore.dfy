/**
 The registry as the program runs it: a task updated field by field, a list of
 tasks updated in place, and the two files, each method tied to its meaning in
 `Tasks`.
 */
module TaskStore {
  import opened Prelude
  import opened Text
  import opened Tasks
  import opened TaskNormal
  import opened TaskPruning
  import opened TaskWindows

  /** One task while it is mutably borrowed from the list. */
  class TaskCell {
    var id: string
    var agent: string
    var owner: string
    var participants: seq<string>
    var state: TaskState
    var createdAt: string
    var updatedAt: string
    var outcome: Option<string>
    var messages: seq<TaskMessage>
    var header: seq<Note>
    var scratchpad: seq<Note>
    var revision: nat

    function View(): AgentTask
      reads this
    {
      AgentTask(id, agent, owner, participants, state, createdAt, updatedAt,
                outcome, messages, header, scratchpad, revision)
    }

    constructor (t: AgentTask)
      ensures View() == t
    {
      id, agent, owner, participants, state := t.id, t.agent, t.owner, t.participants, t.state;
      createdAt, updatedAt, outcome := t.createdAt, t.updatedAt, t.outcome;
      messages, header, scratchpad, revision := t.messages, t.header, t.scratchpad, t.revision;
    }

    method AddParticipantName(participant: string)
      modifies this`participants
      ensures participants == AddParticipant(old(participants), participant)
    {
      var name := Trim(participant);
      if name == "" {
        return;
      }
      if name !in participants {
        participants := participants + [name];
      }
    }

    method CapMessages()
      modifies this`messages
      ensures messages == LastN(old(messages), MAX_MESSAGES_PER_TASK)
    {
      if |messages| > MAX_MESSAGES_PER_TASK {
        messages := messages[|messages| - MAX_MESSAGES_PER_TASK..];
      }
    }

    method NormalizeTask()
      modifies this
      ensures View() == Normalize(old(View()))
    {
      if Trim(owner) == "" {
        owner := if messages != [] && Trim(messages[0].author) != "" then messages[0].author else "parent";
      }
      AddParticipantName(owner);
      AddParticipantName(agent);
      if revision == 0 {
        revision := |header| + |scratchpad|;
      }
    }

    /** The header section's `retain`, in place. */
    method DropHeaderKind(kind: string)
      modifies this`header
      ensures header == WithoutKind(old(header), kind)
    {
      var kept, i := [], 0;
      while i < |header|
        invariant 0 <= i <= |header| && header == old(header)
        invariant kept == WithoutKind(header[..i], kind)
      {
        WithoutKindSnoc(header[..i], header[i], kind);
        assert header[..i + 1] == header[..i] + [header[i]];
        if header[i].kind != kind {
          kept := kept + [header[i]];
        }
        i := i + 1;
      }
      assert header[..i] == header;
      header := kept;
    }

    method PushNote(entry: Note, section: string)
      modifies this`header, this`scratchpad
      ensures View() == WithNote(old(View()), entry, section)
    {
      if section == "header" {
        DropHeaderKind(entry.kind);
        header := header + [entry];
        if |header| > MAX_SCRATCHPAD_HEADER_ENTRIES {
          header := header[|header| - MAX_SCRATCHPAD_HEADER_ENTRIES..];
        }
      } else {
        scratchpad := scratchpad + [entry];
        if |scratchpad| > MAX_SCRATCHPAD_ENTRIES {
          scratchpad := scratchpad[|scratchpad| - MAX_SCRATCHPAD_ENTRIES..];
        }
      }
    }

    method AppendMessage(sender: string, text: string, timestamp: string)
      modifies this`messages
      ensures View() == WithMessage(old(View()), TaskMessage(sender, text, timestamp))
    {
      messages := messages + [TaskMessage(sender, text, timestamp)];
      CapMessages();
    }

    method UpdateState(e: Event) returns (ok: bool)
      requires e.StateUpdated?
      modifies this
      ensures ok <==> Updated(old(View()), e).Some?
      ensures ok ==> View() == Updated(old(View()), e).value
    {
      var parsed := ParseState(e.state);
      if parsed == None {
        return false;
      }
      state := parsed.value;
      updatedAt := e.timestamp;
      if e.message.Some? {
        var actor := if e.author.Some? then e.author.value else agent;
        AddParticipantName(actor);
        if IsTerminal(state) {
          outcome := e.message;
        }
        AppendMessage(actor, e.message.value, e.timestamp);
      }
      return true;
    }

    /** The body of a by-id event; `false` is the source's error return on an unknown state name. */
    method ApplyTo(e: Event) returns (ok: bool)
      requires ById(e)
      modifies this
      ensures ok <==> Updated(old(View()), e).Some?
      ensures ok ==> View() == Updated(old(View()), e).value
    {
      match e
      case StateUpdated(_, _, _, _, _) =>
        ok := UpdateState(e);
      case MessageAppended(_, sender, text, timestamp) =>
        updatedAt := timestamp;
        AddParticipantName(sender);
        AppendMessage(sender, text, timestamp);
        return true;
      case ScratchpadAppended(_, sender, note, kind, section, timestamp) =>
        AddParticipantName(sender);
        updatedAt := timestamp;
        revision := revision + 1;
        PushNote(Note(sender, note, timestamp, kind), section);
        return true;
      case ParticipantAdded(_, participant, timestamp) =>
        updatedAt := timestamp;
        AddParticipantName(participant);
        return true;
    }
  }

  /** What the retain closure of pruning keeps: everything but the first `n` terminal tasks. */
  function DropTerminal(ts: seq<AgentTask>, n: nat): seq<AgentTask> {
    if ts == [] then []
    else
      var front, last := ts[..|ts| - 1], ts[|ts| - 1];
      if IsTerminal(last.state) && Terminals(front) < n then DropTerminal(front, n) else DropTerminal(front, n) + [last]
  }

  lemma {:induction false} DropSaturates(ts: seq<AgentTask>, n: nat)
    requires Terminals(ts) <= n
    ensures DropTerminal(ts, n) == DropTerminal(ts, Terminals(ts))
  {
    if ts != [] {
      var front := ts[..|ts| - 1];
      DropSaturates(front, n);
      DropSaturates(front, Terminals(ts));
    }
  }

  /** Dropping the oldest surplus keeps the newest `cap`. */
  lemma {:induction false} DropOldestKeepsNewest(ts: seq<AgentTask>, cap: nat)
    ensures KeepTerminal(ts, cap) == if Terminals(ts) > cap then DropTerminal(ts, Terminals(ts) - cap) else ts
  {
    if Terminals(ts) <= cap {
      KeepCount(ts, cap);
    } else {
      var front, last := ts[..|ts| - 1], ts[|ts| - 1];
      assert ts == front + [last];
      if !IsTerminal(last.state) {
        DropOldestKeepsNewest(front, cap);
      } else if cap == 0 {
        DropOldestKeepsNewest(front, 0);
        DropSaturates(front, Terminals(ts));
        if Terminals(front) == 0 {
          DropNone(front);
        }
      } else {
        DropOldestKeepsNewest(front, cap - 1);
      }
    }
  }

  lemma {:induction false} DropNone(ts: seq<AgentTask>)
    ensures DropTerminal(ts, 0) == ts
  {
    if ts != [] {
      DropNone(ts[..|ts| - 1]);
    }
  }

  class TaskList {
    var tasks: seq<AgentTask>

    constructor (tasks: seq<AgentTask>)
      ensures this.tasks == tasks
    {
      this.tasks := tasks;
    }

    method CountTerminal() returns (n: nat)
      ensures n == Terminals(tasks)
    {
      n := 0;
      for i := 0 to |tasks|
        invariant n == Terminals(tasks[..i])
      {
        assert tasks[..i + 1] == tasks[..i] + [tasks[i]];
        TerminalsSnoc(tasks[..i], tasks[i]);
        if IsTerminal(tasks[i].state) {
          n := n + 1;
        }
      }
      assert tasks[..|tasks|] == tasks;
    }

    method PruneTerminal()
      modifies this
      ensures tasks == Prune(old(tasks))
    {
      DropOldestKeepsNewest(tasks, MAX_TERMINAL_TASKS);
      var terminal := CountTerminal();
      if terminal > MAX_TERMINAL_TASKS {
        var toRemove, removed, kept := terminal - MAX_TERMINAL_TASKS, 0, [];
        for i := 0 to |tasks|
          invariant tasks == old(tasks)
          invariant removed == if Terminals(tasks[..i]) < toRemove then Terminals(tasks[..i]) else toRemove
          invariant kept == DropTerminal(tasks[..i], toRemove)
        {
          assert tasks[..i + 1][..i] == tasks[..i];
          if removed >= toRemove {
            kept := kept + [tasks[i]];
          } else if IsTerminal(tasks[i].state) {
            removed := removed + 1;
          } else {
            kept := kept + [tasks[i]];
          }
        }
        assert tasks[..|tasks|] == tasks;
        tasks := kept;
      }
    }

    method NormalizeEvery()
      modifies this
      ensures tasks == NormalizeAll(old(tasks))
    {
      var i := 0;
      while i < |tasks|
        invariant 0 <= i <= |tasks| == |old(tasks)|
        invariant forall k :: 0 <= k < i ==> tasks[k] == Normalize(old(tasks)[k])
        invariant forall k :: i <= k < |tasks| ==> tasks[k] == old(tasks)[k]
      {
        var cell := new TaskCell(tasks[i]);
        cell.NormalizeTask();
        tasks := tasks[i := cell.View()];
        i := i + 1;
      }
    }

    method Remove(id: string)
      modifies this
      ensures tasks == Without(old(tasks), id)
    {
      var kept, i := [], 0;
      while i < |tasks|
        invariant 0 <= i <= |tasks| && tasks == old(tasks)
        invariant kept == Without(tasks[..i], id)
      {
        WithoutSnoc(tasks[..i], tasks[i], id);
        assert tasks[..i + 1] == tasks[..i] + [tasks[i]];
        if tasks[i].id != id {
          kept := kept + [tasks[i]];
        }
        i := i + 1;
      }
      assert tasks[..i] == tasks;
      tasks := kept;
    }

    method Find(id: string) returns (i: nat)
      ensures i == IndexOf(tasks, id)
    {
      i := 0;
      while i < |tasks| && tasks[i].id != id
        invariant 0 <= i <= |tasks|
        invariant forall k :: 0 <= k < i ==> tasks[k].id != id
      {
        i := i + 1;
      }
    }

    /** Applies one event; on `false` (the error return) the caller discards the list. */
    method ApplyEvent(e: Event) returns (ok: bool)
      modifies this
      ensures ok <==> Apply(old(tasks), e).Some?
      ensures ok ==> tasks == Apply(old(tasks), e).value
    {
      match e
      case Snapshot(None) => return false;
      case Snapshot(Some(snapshot)) =>
        tasks := snapshot;
        NormalizeEvery();
        return true;
      case Created(None) => return false;
      case Created(Some(task)) =>
        var cell := new TaskCell(task);
        cell.NormalizeTask();
        Remove(task.id);
        tasks := tasks + [cell.View()];
        return true;
      case _ =>
        var i := Find(e.id);
        if i == |tasks| {
          return true;
        }
        var cell := new TaskCell(tasks[i]);
        ok := cell.ApplyTo(e);
        if ok {
          tasks := tasks[i := cell.View()];
        }
    }
  }

  /** The journal and the snapshot beside it. */
  class Registry {
    var journal: Option<seq<Event>>
    var snapshot: Option<Option<seq<AgentTask>>>

    function View(): Files
      reads this
    {
      Files(journal, snapshot)
    }

    constructor (files: Files)
      ensures View() == files
    {
      journal, snapshot := files.journal, files.snapshot;
    }

    method SeedJournal()
      modifies this`journal
      ensures View() == Seeded(old(View()))
    {
      if journal.None? && snapshot.Some? {
        AppendEvent(Snapshot(snapshot.value));
        assert [] + [Snapshot(snapshot.value)] == [Snapshot(snapshot.value)];
      }
    }

    method AppendEvent(e: Event)
      modifies this`journal
      ensures View() == Appended(old(View()), e)
    {
      journal := Some((if journal.Some? then journal.value else []) + [e]);
      assert [] + [e] == [e];
    }

    method LoadUnlocked() returns (r: Option<seq<AgentTask>>)
      ensures r == Load(View())
    {
      var list := new TaskList([]);
      if journal.Some? && journal.value != [] {
        var events, i := journal.value, 0;
        while i < |events|
          invariant 0 <= i <= |events|
          invariant Replay([], events[..i]) == Some(list.tasks)
        {
          assert events[..i + 1][..i] == events[..i];
          var ok := list.ApplyEvent(events[i]);
          if !ok {
            ReplayPrefix([], events, i + 1);
            return None;
          }
          i := i + 1;
        }
        assert events[..i] == events;
        list.NormalizeEvery();
        list.PruneTerminal();
        return Some(list.tasks);
      }
      match snapshot
      case None => return Some([]);
      case Some(None) => return None;
      case Some(Some(tasks)) =>
        list.tasks := tasks;
        list.NormalizeEvery();
        return Some(list.tasks);
    }

    /** One recording, under the lock. `ok` is false when it returns an error. */
    method RecordEvent(e: Event) returns (ok: bool)
      modifies this
      ensures View() == Recorded(old(View()), e)
      ensures ok <==> Prepared(old(View()), e).Some?
    {
      SeedJournal();
      var loaded := LoadUnlocked();
      if loaded == None {
        return false;
      }
      var list := new TaskList(loaded.value);
      ok := list.ApplyEvent(e);
      if ok {
        AppendEvent(e);
        list.PruneTerminal();
        snapshot := Some(Some(list.tasks));
      }
    }

    /** Pins a header note; writing the note that is already pinned records nothing. */
    method SetHeader(id: string, sender: string, kind: string, note: string, now: string) returns (ok: bool)
      modifies this
      ensures Load(old(View())) == None ==> !ok && View() == old(View())
      ensures Load(old(View())).Some? ==>
                var e := ScratchpadAppended(id, sender, note, kind, "header", now);
                if Pinned(Load(old(View())).value, id, sender, kind, note)
                then ok && View() == old(View())
                else View() == Recorded(old(View()), e) && (ok <==> Prepared(old(View()), e).Some?)
    {
      var loaded := LoadUnlocked();
      if loaded == None {
        return false;
      }
      var list := new TaskList(loaded.value);
      var i := list.Find(id);
      if i < |list.tasks|
         && exists n :: n in list.tasks[i].header && n.kind == kind && n.author == sender && n.note == note {
        return true;
      }
      ok := RecordEvent(ScratchpadAppended(id, sender, note, kind, "header", now));
    }
  }

  predicate Pinned(ts: seq<AgentTask>, id: string, sender: string, kind: string, note: string) {
    var t := Lookup(ts, id);
    t.Some? && exists n :: n in t.value.header && n.kind == kind && n.author == sender && n.note == note
  }

  /** Once a header note is recorded it is pinned, so writing it again records nothing. */
  lemma {:induction false} RecordedHeaderIsPinned(f: Files, e: Event)
    requires SnapshotsUnique(Events(Seeded(f)))
    requires e.ScratchpadAppended? && e.section == "header" && Prepared(f, e).Some?
    requires Load(Recorded(f, e)).Some? && Lookup(Load(Recorded(f, e)).value, e.id).Some?
    ensures Pinned(Load(Recorded(f, e)).value, e.id, e.sender, e.kind, e.note)
  {
    var g := Recorded(f, e);
    LoadOfJournal(g);
    LoadOfSeeded(f);
    assert Events(g)[..|Events(g)| - 1] == Events(Seeded(f));
    var ts := Replayed(f).value;
    ReplayKeepsNormal([], Events(Seeded(f)));
    ApplyKeepsNormal(ts, e) by {
      assert SnapshotsUnique([e]);
    }
    KeptLookup(Apply(ts, e).value, e.id, MAX_TERMINAL_TASKS);
    HeaderNoted(ts, e);
  }

  lemma {:induction false} HeaderNoted(ts: seq<AgentTask>, e: Event)
    requires e.ScratchpadAppended? && e.section == "header"
    ensures Lookup(Apply(ts, e).value, e.id).Some? ==>
              Note(e.sender, e.note, e.timestamp, e.kind) in Lookup(Apply(ts, e).value, e.id).value.header
  {
    var i := IndexOf(ts, e.id);
    if i < |ts| {
      var u := Updated(ts[i], e).value;
      LookupUpdated(ts, i, u, e.id);
      var n := Note(e.sender, e.note, e.timestamp, e.kind);
      LastNAppend(WithoutKind(ts[i].header, n.kind), n, MAX_SCRATCHPAD_HEADER_ENTRIES);
    }
  }

  /** A replay that fails on a prefix fails on the whole journal. */
  lemma {:induction false} ReplayPrefix(start: seq<AgentTask>, journal: seq<Event>, n: nat)
    requires n <= |journal| && Replay(start, journal[..n]) == None
    ensures Replay(start, journal) == None
    decreases |journal| - n
  {
    if n == |journal| {
      assert journal[..n] == journal;
    } else {
      assert journal[..n + 1][..n] == journal[..n];
      ReplayPrefix(start, journal, n + 1);
    }
  }
}
