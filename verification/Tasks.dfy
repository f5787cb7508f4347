/**
 Agent tasks, the journal events that change them, and the meaning of both:
 what one event does to a list of tasks, what replaying a journal yields, and
 what the registry loads, seeds and records.
 */
module Tasks {
  import opened Prelude
  import opened Text

  datatype TaskState = Submitted | Working | InputRequired | Completed | Failed | Canceled

  predicate IsTerminal(s: TaskState) {
    s.Completed? || s.Failed? || s.Canceled?
  }

  function ParseState(name: string): Option<TaskState> {
    match name
    case "submitted" => Some(Submitted)
    case "working" => Some(Working)
    case "input_required" => Some(InputRequired)
    case "completed" => Some(Completed)
    case "failed" => Some(Failed)
    case "canceled" => Some(Canceled)
    case _ => None
  }

  /** The name written to the journal; reading it back gives the state. */
  function StateName(s: TaskState): (name: string)
    ensures ParseState(name) == Some(s)
  {
    match s
    case Submitted => "submitted"
    case Working => "working"
    case InputRequired => "input_required"
    case Completed => "completed"
    case Failed => "failed"
    case Canceled => "canceled"
  }

  datatype TaskMessage = TaskMessage(author: string, text: string, timestamp: string)

  datatype Note = Note(author: string, note: string, timestamp: string, kind: string)

  datatype AgentTask = AgentTask(
    id: string, agent: string, owner: string, participants: seq<string>, state: TaskState,
    createdAt: string, updatedAt: string, outcome: Option<string>, messages: seq<TaskMessage>,
    header: seq<Note>, scratchpad: seq<Note>, revision: nat)

  const MAX_TERMINAL_TASKS: nat := 100
  const MAX_MESSAGES_PER_TASK: nat := 30
  const MAX_SCRATCHPAD_ENTRIES: nat := 50
  const MAX_SCRATCHPAD_HEADER_ENTRIES: nat := 12

  /** A journal line. `None` in `Snapshot` and `Created` is JSON that is not a task (list). */
  datatype Event =
    | Snapshot(tasks: Option<seq<AgentTask>>)
    | Created(task: Option<AgentTask>)
    | StateUpdated(id: string, state: string, author: Option<string>, message: Option<string>, timestamp: string)
    | MessageAppended(id: string, sender: string, text: string, timestamp: string)
    | ScratchpadAppended(id: string, sender: string, note: string, kind: string, section: string, timestamp: string)
    | ParticipantAdded(id: string, participant: string, timestamp: string)

  /** Events that address one existing task by its id. */
  predicate ById(e: Event) {
    !e.Snapshot? && !e.Created?
  }

  function AddParticipant(participants: seq<string>, name: string): seq<string> {
    var name := Trim(name);
    if name == "" || name in participants then participants else participants + [name]
  }

  function OwnerOf(t: AgentTask): string {
    if Trim(t.owner) != "" then t.owner
    else if t.messages != [] && Trim(t.messages[0].author) != "" then t.messages[0].author
    else "parent"
  }

  function Normalize(t: AgentTask): AgentTask {
    var owner := OwnerOf(t);
    t.(owner := owner,
       participants := AddParticipant(AddParticipant(t.participants, owner), t.agent),
       revision := if t.revision == 0 then |t.header| + |t.scratchpad| else t.revision)
  }

  function NormalizeAll(ts: seq<AgentTask>): seq<AgentTask> {
    seq(|ts|, i requires 0 <= i < |ts| => Normalize(ts[i]))
  }

  predicate Names(participants: seq<string>, name: string) {
    Trim(name) == "" || Trim(name) in participants
  }

  /** The shape normalization aims at. */
  predicate NormalForm(t: AgentTask) {
    && Trim(t.owner) != ""
    && Names(t.participants, t.owner)
    && Names(t.participants, t.agent)
    && (t.revision == 0 ==> t.header == [] && t.scratchpad == [])
  }

  predicate AllNormal(ts: seq<AgentTask>) {
    forall t :: t in ts ==> NormalForm(t)
  }

  function IndexOf(ts: seq<AgentTask>, id: string): (i: nat)
    ensures i <= |ts|
    ensures i < |ts| ==> ts[i].id == id
    ensures forall k :: 0 <= k < i ==> ts[k].id != id
  {
    if ts == [] || ts[0].id == id then 0 else 1 + IndexOf(ts[1..], id)
  }

  /** The (first) task with `id`. */
  function Lookup(ts: seq<AgentTask>, id: string): Option<AgentTask> {
    var i := IndexOf(ts, id);
    if i == |ts| then None else Some(ts[i])
  }

  /** The tasks whose id is not `id`, in order. */
  function Without(ts: seq<AgentTask>, id: string): seq<AgentTask> {
    if ts == [] then []
    else
      var last := ts[|ts| - 1];
      if last.id == id then Without(ts[..|ts| - 1], id) else Without(ts[..|ts| - 1], id) + [last]
  }

  /** The notes whose kind is not `kind`, in order. */
  function WithoutKind(notes: seq<Note>, kind: string): seq<Note> {
    if notes == [] then []
    else
      var last := notes[|notes| - 1];
      if last.kind == kind then WithoutKind(notes[..|notes| - 1], kind)
      else WithoutKind(notes[..|notes| - 1], kind) + [last]
  }

  function WithMessage(t: AgentTask, m: TaskMessage): AgentTask {
    t.(messages := LastN(t.messages + [m], MAX_MESSAGES_PER_TASK))
  }

  function WithNote(t: AgentTask, n: Note, section: string): AgentTask {
    if section == "header" then
      t.(header := LastN(WithoutKind(t.header, n.kind) + [n], MAX_SCRATCHPAD_HEADER_ENTRIES))
    else
      t.(scratchpad := LastN(t.scratchpad + [n], MAX_SCRATCHPAD_ENTRIES))
  }

  /** What one by-id event does to the task it addresses; `None` when its state name is unknown. */
  function Updated(t: AgentTask, e: Event): Option<AgentTask>
    requires ById(e)
  {
    match e
    case StateUpdated(_, name, author, message, timestamp) =>
      (match ParseState(name)
       case None => None
       case Some(state) =>
         var t := t.(state := state, updatedAt := timestamp);
         match message
         case None => Some(t)
         case Some(text) =>
           var actor := if author.Some? then author.value else t.agent;
           var t := t.(participants := AddParticipant(t.participants, actor),
                       outcome := if IsTerminal(state) then Some(text) else t.outcome);
           Some(WithMessage(t, TaskMessage(actor, text, timestamp))))
    case MessageAppended(_, sender, text, timestamp) =>
      var t := t.(updatedAt := timestamp, participants := AddParticipant(t.participants, sender));
      Some(WithMessage(t, TaskMessage(sender, text, timestamp)))
    case ScratchpadAppended(_, sender, note, kind, section, timestamp) =>
      var t := t.(participants := AddParticipant(t.participants, sender), updatedAt := timestamp,
                  revision := t.revision + 1);
      Some(WithNote(t, Note(sender, note, timestamp, kind), section))
    case ParticipantAdded(_, participant, timestamp) =>
      Some(t.(updatedAt := timestamp, participants := AddParticipant(t.participants, participant)))
  }

  /** What one event does to the list; `None` is the source's error return. */
  function Apply(ts: seq<AgentTask>, e: Event): Option<seq<AgentTask>> {
    match e
    case Snapshot(None) => None
    case Snapshot(Some(tasks)) => Some(NormalizeAll(tasks))
    case Created(None) => None
    case Created(Some(task)) => Some(Without(ts, task.id) + [Normalize(task)])
    case _ =>
      var i := IndexOf(ts, e.id);
      if i == |ts| then Some(ts)
      else
        match Updated(ts[i], e)
        case None => None
        case Some(t) => Some(ts[i := t])
  }

  function Replay(start: seq<AgentTask>, journal: seq<Event>): Option<seq<AgentTask>> {
    if journal == [] then Some(start)
    else
      match Replay(start, journal[..|journal| - 1])
      case None => None
      case Some(ts) => Apply(ts, journal[|journal| - 1])
  }

  function Terminals(ts: seq<AgentTask>): nat {
    if ts == [] then 0
    else Terminals(ts[..|ts| - 1]) + (if IsTerminal(ts[|ts| - 1].state) then 1 else 0)
  }

  /** All open tasks and the last `cap` terminal ones, in order. */
  function KeepTerminal(ts: seq<AgentTask>, cap: nat): seq<AgentTask> {
    if ts == [] then []
    else
      var last, front := ts[|ts| - 1], ts[..|ts| - 1];
      if !IsTerminal(last.state) then KeepTerminal(front, cap) + [last]
      else if cap == 0 then KeepTerminal(front, 0)
      else KeepTerminal(front, cap - 1) + [last]
  }

  function Prune(ts: seq<AgentTask>): seq<AgentTask> {
    KeepTerminal(ts, MAX_TERMINAL_TASKS)
  }

  function PruneResult(r: Option<seq<AgentTask>>): Option<seq<AgentTask>> {
    match r
    case None => None
    case Some(ts) => Some(Prune(ts))
  }

  /** The two files: the journal (absent, or its events) and the snapshot (absent, not a task list, or tasks). */
  datatype Files = Files(journal: Option<seq<Event>>, snapshot: Option<Option<seq<AgentTask>>>)

  function Events(f: Files): seq<Event> {
    if f.journal.Some? then f.journal.value else []
  }

  function Load(f: Files): Option<seq<AgentTask>> {
    if Events(f) != [] then
      match Replay([], Events(f))
      case None => None
      case Some(ts) => Some(Prune(NormalizeAll(ts)))
    else
      match f.snapshot
      case None => Some([])
      case Some(None) => None
      case Some(Some(ts)) => Some(NormalizeAll(ts))
  }

  function Seeded(f: Files): Files {
    if f.journal.Some? || f.snapshot.None? then f
    else f.(journal := Some([Snapshot(f.snapshot.value)]))
  }

  function Appended(f: Files, e: Event): Files {
    f.(journal := Some(Events(f) + [e]))
  }

  function Saved(f: Files, ts: seq<AgentTask>): Files {
    f.(snapshot := Some(Some(ts)))
  }

  /** What a recording works on before its append: the seeded files' load with the event applied. */
  function Prepared(f: Files, e: Event): Option<seq<AgentTask>> {
    match Load(Seeded(f))
    case None => None
    case Some(ts) => Apply(ts, e)
  }

  function Recorded(f: Files, e: Event): Files {
    match Prepared(f, e)
    case None => Seeded(f)
    case Some(ts) => Saved(Appended(Seeded(f), e), Prune(ts))
  }
}
