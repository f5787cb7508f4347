/**
 The server-sent-event loop of a chat-completions stream: line buffer, tool
 slots, the flushes at finish, `[DONE]` and end of stream, and the fold of the
 emitted events into a turn. JSON decoding is an arbitrary function.
 */
module SseStream {
  import opened Prelude
  import opened LineBuffer
  import AgentLoop

  type Usage = AgentLoop.Usage

  const NO_USAGE := AgentLoop.Usage(0, 0, 0, 0)

  /** One entry of `tool_calls`: a start when it has an id, otherwise a continuation. */
  datatype CallDelta = CallDelta(index: nat, id: Option<string>, name: Option<string>, args: Option<string>)

  datatype Choice = Choice(content: Option<string>, calls: seq<CallDelta>, finished: bool)

  /** A usage object; the cached counts change only when present. */
  datatype UsageReport = UsageReport(prompt: nat, completion: nat, cached: Option<nat>, written: Option<nat>)

  datatype Payload = Payload(error: Option<string>, usage: Option<UsageReport>, choice: Option<Choice>)

  datatype Slot = Slot(id: string, name: string, args: string)

  /** What the loop emits. `Calls` stands for the completions of its slots, in any order. */
  datatype TurnEvent =
    | TextDelta(text: string)
    | Calls(slots: map<nat, Slot>)
    | TurnEnd(fullText: string, usage: Usage)
    | Error(message: string)

  /** What the stream tells the loop, one thing at a time. */
  datatype Act =
    | Said(text: string)
    | Opened(index: nat, id: string, name: string, args: string)
    | Continued(index: nat, name: string, args: string)
    | Used(report: UsageReport)
    | Flushed

  datatype Status = Running | Finished | Failed(message: string)

  /** The loop's variables; `acts` records what it was told. */
  datatype Stream = Stream(
    text: string, usage: Usage, slots: map<nat, Slot>, events: seq<TurnEvent>, status: Status, acts: seq<Act>)

  const FRESH := Stream("", NO_USAGE, map[], [], Running, [])

  // ── One thing at a time ──────────────────────────────────────────────────────

  function Or<T>(o: Option<T>, default: T): T {
    if o.Some? then o.value else default
  }

  function Report(u: Usage, r: UsageReport): Usage {
    AgentLoop.Usage(r.prompt, r.completion, Or(r.cached, u.cacheRead), Or(r.written, u.cacheWrite))
  }

  function Extend(s: Slot, name: string, args: string): Slot {
    Slot(s.id, if s.name == "" then name else s.name, s.args + args)
  }

  /** The slots that have a name; the others are dropped by a flush. */
  function Named(slots: map<nat, Slot>): map<nat, Slot> {
    map i | i in slots && slots[i].name != "" :: slots[i]
  }

  function Take(s: Stream, a: Act): Stream {
    var s := s.(acts := s.acts + [a]);
    match a
    case Said(text) => s.(text := s.text + text, events := s.events + [TextDelta(text)])
    case Opened(i, id, name, args) => s.(slots := s.slots[i := Slot(id, name, args)])
    case Continued(i, name, args) =>
      if i in s.slots then s.(slots := s.slots[i := Extend(s.slots[i], name, args)]) else s
    case Used(report) => s.(usage := Report(s.usage, report))
    case Flushed => s.(events := s.events + [Calls(Named(s.slots)), TurnEnd(s.text, s.usage)], slots := map[])
  }

  function TakeAll(s: Stream, acts: seq<Act>): Stream {
    if acts == [] then s else Take(TakeAll(s, acts[..|acts| - 1]), acts[|acts| - 1])
  }

  function CallAct(d: CallDelta): Act {
    match d.id
    case Some(id) => Opened(d.index, id, Or(d.name, ""), Or(d.args, ""))
    case None => Continued(d.index, Or(d.name, ""), Or(d.args, ""))
  }

  function CallActs(ds: seq<CallDelta>): seq<Act> {
    seq(|ds|, i requires 0 <= i < |ds| => CallAct(ds[i]))
  }

  function ChoiceActs(c: Choice): seq<Act> {
    (if c.content.Some? && c.content.value != "" then [Said(c.content.value)] else [])
    + CallActs(c.calls)
    + (if c.finished then [Flushed] else [])
  }

  // ── One line ─────────────────────────────────────────────────────────────────

  function TrimCr(s: string): string {
    if s != "" && s[|s| - 1] == '\r' then TrimCr(s[..|s| - 1]) else s
  }

  /** The text after the `data: ` prefix. */
  function DataOf(line: string): Option<string> {
    if |line| >= 6 && line[..6] == "data: " then Some(line[6..]) else None
  }

  function TakePayload(s: Stream, p: Payload): Stream {
    if p.error.Some? then s.(events := s.events + [Error(p.error.value)], status := Failed(p.error.value))
    else
      var s := if p.usage.Some? then Take(s, Used(p.usage.value)) else s;
      if p.choice.Some? then TakeAll(s, ChoiceActs(p.choice.value)) else s
  }

  type Decoder = string -> Option<Payload>

  function TakeData(decode: Decoder, s: Stream, data: string): Stream {
    if data == "[DONE]" then Take(s, Flushed).(status := Finished)
    else
      match decode(data)
      case None => s
      case Some(p) => TakePayload(s, p)
  }

  function TakeLine(decode: Decoder, s: Stream, raw: string): Stream {
    match DataOf(TrimCr(raw))
    case None => s
    case Some(data) => TakeData(decode, s, data)
  }

  /** How the chunks stop coming: the stream closes, or the transport fails or times out. */
  datatype Close = Closed | Lost(message: string)

  function AtClose(s: Stream, close: Close): Stream {
    if !s.status.Running? then s
    else
      match close
      case Closed => Take(s, Flushed).(status := Finished)
      case Lost(message) => s.(status := Failed(message))
  }

  function Lines(decode: Decoder): Consumer<Stream> {
    Consumer((s: Stream) => s.status.Running?, (s: Stream, line: string) => TakeLine(decode, s, line))
  }

  function Turn(decode: Decoder, chunks: seq<string>, close: Close): Stream {
    AtClose(Feed(Lines(decode), Buffered(FRESH, ""), chunks).state, close)
  }

  // ── Chunk boundaries do not matter ───────────────────────────────────────────

  lemma {:induction false} TurnIsDrain(decode: Decoder, chunks: seq<string>, close: Close)
    ensures Turn(decode, chunks, close) == AtClose(Drain(Lines(decode), FRESH, Concat(chunks)).state, close)
  {
    FeedIsDrain(Lines(decode), Buffered(FRESH, ""), chunks);
    assert "" + Concat(chunks) == Concat(chunks);
  }

  /** Everything a turn does depends on the concatenated text alone, early exits included. */
  lemma {:induction false} ChunkingIsIrrelevant(decode: Decoder, chunks: seq<string>, others: seq<string>, close: Close)
    requires Concat(chunks) == Concat(others)
    ensures Turn(decode, chunks, close) == Turn(decode, others, close)
  {
    TurnIsDrain(decode, chunks, close);
    TurnIsDrain(decode, others, close);
  }

  lemma {:induction false} CrIsTrimmed(decode: Decoder, s: Stream, line: string)
    ensures Lines(decode).take(s, line + "\r") == Lines(decode).take(s, line)
  {
    assert (line + "\r")[..|line|] == line;
    assert TrimCr(line + "\r") == TrimCr(line);
  }

  /** Line feeds and carriage-return line feeds separate lines alike. */
  lemma {:induction false} LineEndingsAreIrrelevant(decode: Decoder, chunks: seq<string>, others: seq<string>,
                                                    close: Close)
    requires Concat(others) == ToCrLf(Concat(chunks))
    ensures Turn(decode, chunks, close) == Turn(decode, others, close)
  {
    forall s: Stream, line: string ensures Lines(decode).take(s, line + "\r") == Lines(decode).take(s, line) {
      CrIsTrimmed(decode, s, line);
    }
    CrLfDrain(Lines(decode), FRESH, Concat(chunks));
    TurnIsDrain(decode, chunks, close);
    TurnIsDrain(decode, others, close);
  }

  /** The event stream that carries `datas`: a data line and an empty line for each. */
  function Encoded(datas: seq<string>): string {
    if datas == [] then "" else "data: " + datas[0] + "\n" + ("\n" + Encoded(datas[1..]))
  }

  function TakeDatas(decode: Decoder, s: Stream, datas: seq<string>): Stream
    decreases |datas|
  {
    if datas == [] || !s.status.Running? then s else TakeDatas(decode, TakeData(decode, s, datas[0]), datas[1..])
  }

  /** Data that fits on one line and does not end in what a line strips. */
  predicate OneLine(data: string) {
    '\n' !in data && (data != "" ==> data[|data| - 1] != '\r')
  }

  lemma {:induction false} DataLine(data: string)
    requires OneLine(data)
    ensures DataOf(TrimCr("data: " + data)) == Some(data)
  {
    assert ("data: " + data)[6..] == data && ("data: " + data)[..6] == "data: ";
  }

  lemma {:induction false} EncodedDrain(decode: Decoder, s: Stream, datas: seq<string>)
    requires forall d :: d in datas ==> OneLine(d)
    ensures Drain(Lines(decode), s, Encoded(datas)).state == TakeDatas(decode, s, datas)
    decreases |datas|
  {
    if datas != [] && s.status.Running? {
      var c, d, rest := Lines(decode), datas[0], Encoded(datas[1..]);
      DataLine(d);
      DrainLine(c, s, "data: " + d, "\n" + rest);
      var t := TakeData(decode, s, d);
      assert c.take(s, "data: " + d) == t;
      if t.status.Running? {
        DrainLine(c, t, "", rest);
        assert "" + "\n" + rest == "\n" + rest;
      }
      EncodedDrain(decode, t, datas[1..]);
    }
  }

  /** However it is cut, an encoded list of data is taken in as that list, up to the item that ends the stream. */
  lemma {:induction false} EncodedTurn(decode: Decoder, datas: seq<string>, chunks: seq<string>, close: Close)
    requires Concat(chunks) == Encoded(datas) && forall d :: d in datas ==> OneLine(d)
    ensures Turn(decode, chunks, close) == AtClose(TakeDatas(decode, FRESH, datas), close)
  {
    TurnIsDrain(decode, chunks, close);
    EncodedDrain(decode, FRESH, datas);
  }

  // ── What the acts of a stream amount to ──────────────────────────────────────

  /** The loop's variables are determined by what it was told. */
  predicate Explained(s: Stream) {
    ExplainedBy(s, TakeAll(FRESH, s.acts))
  }

  predicate ExplainedBy(s: Stream, m: Stream) {
    && s.text == m.text && s.usage == m.usage && s.slots == m.slots
    && (s.events == m.events || (s.status.Failed? && s.events == m.events + [Error(s.status.message)]))
    && m.acts == s.acts
    && (s.status.Finished? ==> s.acts != [] && s.acts[|s.acts| - 1].Flushed?)
  }

  lemma {:induction false} TakeSnoc(s: Stream, acts: seq<Act>, a: Act)
    ensures TakeAll(s, acts + [a]) == Take(TakeAll(s, acts), a)
  {
    assert (acts + [a])[..|acts|] == acts;
  }

  lemma {:induction false} TakeOnBoth(s: Stream, m: Stream, a: Act)
    requires s.status.Running? && ExplainedBy(s, m)
    ensures ExplainedBy(Take(s, a), Take(m, a)) && Take(s, a).status.Running?
    ensures a.Flushed? ==> ExplainedBy(Take(s, a).(status := Finished), Take(m, a))
  {
    assert s.events == m.events && m.acts == s.acts;
  }

  lemma {:induction false} TakeExplained(s: Stream, a: Act)
    requires s.status.Running? && Explained(s)
    ensures Explained(Take(s, a)) && Take(s, a).status.Running?
    ensures a.Flushed? ==> Explained(Take(s, a).(status := Finished))
  {
    var m := TakeAll(FRESH, s.acts);
    TakeSnoc(FRESH, s.acts, a);
    TakeOnBoth(s, m, a);
  }

  lemma {:induction false} TakeAllExplained(s: Stream, acts: seq<Act>)
    requires s.status.Running? && Explained(s)
    ensures Explained(TakeAll(s, acts)) && TakeAll(s, acts).status.Running?
  {
    if acts != [] {
      TakeAllExplained(s, acts[..|acts| - 1]);
      TakeExplained(TakeAll(s, acts[..|acts| - 1]), acts[|acts| - 1]);
    }
  }

  lemma {:induction false} LineExplained(decode: Decoder, s: Stream, raw: string)
    requires s.status.Running? && Explained(s)
    ensures Explained(TakeLine(decode, s, raw))
  {
    TakeExplained(s, Flushed);
    if DataOf(TrimCr(raw)).Some? {
      var data := DataOf(TrimCr(raw)).value;
      if decode(data).Some? {
        var p := decode(data).value;
        var t := if p.usage.Some? then Take(s, Used(p.usage.value)) else s;
        if p.usage.Some? {
          TakeExplained(s, Used(p.usage.value));
        }
        if p.choice.Some? {
          TakeAllExplained(t, ChoiceActs(p.choice.value));
        }
      }
    }
  }

  lemma {:induction false} TurnExplained(decode: Decoder, chunks: seq<string>, close: Close)
    ensures Explained(Turn(decode, chunks, close)) && !Turn(decode, chunks, close).status.Running?
  {
    var c := Lines(decode);
    var inv := (s: Stream) => Explained(s);
    forall s, line | c.running(s) && inv(s) ensures inv(c.take(s, line)) {
      LineExplained(decode, s, line);
    }
    assert Explained(FRESH);
    FeedIsDrain(c, Buffered(FRESH, ""), chunks);
    DrainKeeps(c, FRESH, "" + Concat(chunks), inv);
    var s := Feed(c, Buffered(FRESH, ""), chunks).state;
    if s.status.Running? {
      TakeExplained(s, Flushed);
    }
  }

  // ── Tool slots ───────────────────────────────────────────────────────────────

  /** The call opened by act `j` is still open before act `f`: nothing flushed it or took its index. */
  predicate Live(acts: seq<Act>, j: nat, f: nat) {
    && j < f <= |acts| && acts[j].Opened?
    && (forall k :: j < k < f ==> !acts[k].Flushed?)
    && (forall k :: j < k < f && acts[k].Opened? ==> acts[k].index != acts[j].index)
  }

  /** The argument fragments that acts `from` up to `to` continue index `i` with, in order. */
  function Fragments(acts: seq<Act>, from: nat, to: nat, i: nat): string
    requires from <= to <= |acts|
  {
    if from == to then ""
    else
      var a := acts[to - 1];
      Fragments(acts, from, to - 1, i) + (if a.Continued? && a.index == i then a.args else "")
  }

  /** `name` if there is one, otherwise the first name index `i` is continued with. */
  function FirstName(name: string, acts: seq<Act>, from: nat, to: nat, i: nat): string
    requires from <= to <= |acts|
  {
    if from == to then name
    else
      var a, n := acts[to - 1], FirstName(name, acts, from, to - 1, i);
      if n == "" && a.Continued? && a.index == i then a.name else n
  }

  /** The call opened by act `j`, as far as the acts before `f` complete it. */
  function Assembled(acts: seq<Act>, j: nat, f: nat): Slot
    requires j < f <= |acts| && acts[j].Opened?
  {
    var a := acts[j];
    Slot(a.id, FirstName(a.name, acts, j + 1, f, a.index), a.args + Fragments(acts, j + 1, f, a.index))
  }

  /** The loop's slots once it was told the first `f` acts. */
  function SlotsAt(acts: seq<Act>, f: nat): map<nat, Slot>
    requires f <= |acts|
  {
    TakeAll(FRESH, acts[..f]).slots
  }

  lemma {:induction false} TakeNext(acts: seq<Act>, n: nat)
    requires n < |acts|
    ensures TakeAll(FRESH, acts[..n + 1]) == Take(TakeAll(FRESH, acts[..n]), acts[n])
  {
    assert acts[..n + 1][..n] == acts[..n];
  }

  lemma {:induction false} SlotsNext(acts: seq<Act>, f: nat)
    requires f < |acts|
    ensures SlotsAt(acts, f + 1) ==
              match acts[f]
              case Opened(i, id, name, args) => SlotsAt(acts, f)[i := Slot(id, name, args)]
              case Continued(i, name, args) =>
                if i in SlotsAt(acts, f) then SlotsAt(acts, f)[i := Extend(SlotsAt(acts, f)[i], name, args)]
                else SlotsAt(acts, f)
              case Flushed => map[]
              case _ => SlotsAt(acts, f)
  {
    TakeNext(acts, f);
  }

  /** A live call's slot holds its initial fragment and all its continuations, in order. */
  lemma {:induction false} LiveSlot(acts: seq<Act>, j: nat, f: nat)
    requires Live(acts, j, f)
    ensures acts[j].index in SlotsAt(acts, f) && SlotsAt(acts, f)[acts[j].index] == Assembled(acts, j, f)
  {
    SlotsNext(acts, f - 1);
    if f == j + 1 {
      assert acts[j].args + "" == acts[j].args;
    } else {
      LiveSlot(acts, j, f - 1);
      var i, a := acts[j].index, acts[f - 1];
      Assoc(acts[j].args, Fragments(acts, j + 1, f - 1, i), if a.Continued? && a.index == i then a.args else "");
      assert !a.Flushed?;
    }
  }

  /** Every slot belongs to a live call. */
  lemma {:induction false} SlotIsLive(acts: seq<Act>, f: nat, i: nat) returns (j: nat)
    requires f <= |acts| && i in SlotsAt(acts, f)
    ensures Live(acts, j, f) && acts[j].index == i
  {
    assert f > 0;
    SlotsNext(acts, f - 1);
    if acts[f - 1].Opened? && acts[f - 1].index == i {
      j := f - 1;
    } else {
      j := SlotIsLive(acts, f - 1, i);
    }
  }

  function Batches(events: seq<TurnEvent>): seq<map<nat, Slot>> {
    if events == [] then []
    else
      var front, last := Batches(events[..|events| - 1]), events[|events| - 1];
      if last.Calls? then front + [last.slots] else front
  }

  function Flushes(acts: seq<Act>, n: nat): nat
    requires n <= |acts|
  {
    if n == 0 then 0 else Flushes(acts, n - 1) + (if acts[n - 1].Flushed? then 1 else 0)
  }

  lemma {:induction false} BatchSnoc(events: seq<TurnEvent>, e: TurnEvent)
    ensures Batches(events + [e]) == if e.Calls? then Batches(events) + [e.slots] else Batches(events)
  {
    assert (events + [e])[..|events|] == events;
  }

  lemma {:induction false} BatchFlush(events: seq<TurnEvent>, slots: map<nat, Slot>, text: string, usage: Usage)
    ensures Batches(events + [Calls(slots), TurnEnd(text, usage)]) == Batches(events) + [slots]
  {
    BatchSnoc(events, Calls(slots));
    BatchSnoc(events + [Calls(slots)], TurnEnd(text, usage));
    assert events + [Calls(slots)] + [TurnEnd(text, usage)] == events + [Calls(slots), TurnEnd(text, usage)];
  }

  lemma {:induction false} BatchTake(s: Stream, a: Act)
    ensures Batches(Take(s, a).events) == if a.Flushed? then Batches(s.events) + [Named(s.slots)] else Batches(s.events)
  {
    if a.Flushed? {
      BatchFlush(s.events, Named(s.slots), s.text, s.usage);
    } else if a.Said? {
      BatchSnoc(s.events, TextDelta(a.text));
    }
  }

  /** What act `n` adds to the batches: at a flush, the named slots it finds. */
  function NewBatch(acts: seq<Act>, n: nat): seq<map<nat, Slot>>
    requires n < |acts|
  {
    if acts[n].Flushed? then [Named(SlotsAt(acts, n))] else []
  }

  /** One batch per flush. */
  function FlushBatches(acts: seq<Act>, n: nat): seq<map<nat, Slot>>
    requires n <= |acts|
  {
    if n == 0 then [] else FlushBatches(acts, n - 1) + NewBatch(acts, n - 1)
  }

  lemma {:induction false} BatchesNext(acts: seq<Act>, n: nat, s: Stream, t: Stream)
    requires n < |acts| && s == TakeAll(FRESH, acts[..n]) && t == TakeAll(FRESH, acts[..n + 1])
    ensures Batches(t.events) == Batches(s.events) + NewBatch(acts, n)
  {
    TakeNext(acts, n);
    BatchTake(s, acts[n]);
  }

  lemma {:induction false} BatchesAre(acts: seq<Act>, n: nat, s: Stream)
    requires n <= |acts| && s == TakeAll(FRESH, acts[..n])
    ensures Batches(s.events) == FlushBatches(acts, n)
  {
    if n > 0 {
      var before := TakeAll(FRESH, acts[..n - 1]);
      BatchesAre(acts, n - 1, before);
      BatchesNext(acts, n - 1, before, s);
    }
  }

  lemma {:induction false} BatchOfFlush(acts: seq<Act>, f: nat, n: nat)
    requires f <= n <= |acts|
    ensures |FlushBatches(acts, n)| == Flushes(acts, n)
    ensures f < n && acts[f].Flushed? ==>
              Flushes(acts, f) < Flushes(acts, n) && FlushBatches(acts, n)[Flushes(acts, f)] == Named(SlotsAt(acts, f))
  {
    if n > 0 {
      BatchOfFlush(acts, if f < n then f else n - 1, n - 1);
    }
  }

  /** `batch` holds the named calls live before act `f`, each completed by all its continuations, and nothing else. */
  ghost predicate TheLiveCalls(acts: seq<Act>, f: nat, batch: map<nat, Slot>) {
    && f <= |acts|
    && (forall i: nat :: i in batch ==> exists j: nat :: Live(acts, j, f) && acts[j].index == i)
    && (forall j: nat :: Live(acts, j, f) ==>
          && (acts[j].index in batch <==> Assembled(acts, j, f).name != "")
          && (acts[j].index in batch ==> batch[acts[j].index] == Assembled(acts, j, f)))
  }

  lemma {:induction false} NamedSlotsAreLive(acts: seq<Act>, f: nat)
    requires f <= |acts|
    ensures TheLiveCalls(acts, f, Named(SlotsAt(acts, f)))
  {
    forall i: nat | i in SlotsAt(acts, f) ensures exists j: nat :: Live(acts, j, f) && acts[j].index == i {
      var j := SlotIsLive(acts, f, i);
    }
    forall j: nat | Live(acts, j, f)
      ensures acts[j].index in SlotsAt(acts, f) && SlotsAt(acts, f)[acts[j].index] == Assembled(acts, j, f)
    {
      LiveSlot(acts, j, f);
    }
  }

  /** A call live at a flush is live at none after it, so it is emitted at most once. */
  lemma {:induction false} LiveAtOneFlush(acts: seq<Act>, j: nat, f: nat, g: nat)
    requires f < g <= |acts| && acts[f].Flushed? && Live(acts, j, f)
    ensures !Live(acts, j, g)
  {
  }

  lemma {:induction false} TurnBatches(decode: Decoder, chunks: seq<string>, close: Close)
    ensures var s := Turn(decode, chunks, close);
            Batches(s.events) == FlushBatches(s.acts, |s.acts|)
  {
    var s := Turn(decode, chunks, close);
    TurnExplained(decode, chunks, close);
    assert s.acts[..|s.acts|] == s.acts;
    BatchesAre(s.acts, |s.acts|, TakeAll(FRESH, s.acts));
    if s.status.Failed? {
      BatchSnoc(TakeAll(FRESH, s.acts).events, Error(s.status.message));
    }
  }

  /**
   A stream emits one batch per flush; what it emits at flush `f` is exactly
   the named calls live there, each completed by all its continuations.
   */
  lemma {:induction false} CallsEmittedExactly(decode: Decoder, chunks: seq<string>, close: Close, f: nat)
    requires f < |Turn(decode, chunks, close).acts| && Turn(decode, chunks, close).acts[f].Flushed?
    ensures var s := Turn(decode, chunks, close);
            && |Batches(s.events)| == Flushes(s.acts, |s.acts|) > Flushes(s.acts, f)
            && TheLiveCalls(s.acts, f, Batches(s.events)[Flushes(s.acts, f)])
  {
    var acts := Turn(decode, chunks, close).acts;
    TurnBatches(decode, chunks, close);
    BatchOfFlush(acts, f, |acts|);
    NamedSlotsAreLive(acts, f);
  }

  /** Act `k` opens the index of act `j` again before a flush: the first call is overwritten. */
  predicate Replaced(acts: seq<Act>, j: nat, k: nat) {
    && j < k < |acts| && acts[j].Opened? && acts[k].Opened? && acts[k].index == acts[j].index
    && forall h :: j < h < k ==> !acts[h].Flushed?
  }

  function NextFlush(acts: seq<Act>, from: nat): (f: nat)
    requires from < |acts| && acts[|acts| - 1].Flushed?
    ensures from <= f < |acts| && acts[f].Flushed? && forall h :: from <= h < f ==> !acts[h].Flushed?
    decreases |acts| - from
  {
    if acts[from].Flushed? then from else NextFlush(acts, from + 1)
  }

  /** With a flush at the end, a call is live at one flush, or at none if its index is opened again before. */
  lemma {:induction false} LiveAtNextFlush(acts: seq<Act>, j: nat)
    requires j < |acts| && acts[j].Opened? && acts[|acts| - 1].Flushed?
    ensures forall g: nat :: g < |acts| && acts[g].Flushed? && Live(acts, j, g) ==> g == NextFlush(acts, j + 1)
    ensures Live(acts, j, NextFlush(acts, j + 1)) <==> forall k: nat :: !Replaced(acts, j, k)
  {
    var f := NextFlush(acts, j + 1);
    if Live(acts, j, f) {
      forall k: nat ensures !Replaced(acts, j, k) {
        assert k > f ==> acts[f].Flushed?;
      }
    } else {
      var k :| j < k < f && acts[k].Opened? && acts[k].index == acts[j].index;
      assert Replaced(acts, j, k);
    }
  }

  /**
   In a turn that finished, every call whose index is not opened again before
   the next flush is emitted there, completed, if it has a name, and at no
   other flush; a call whose index is opened again is emitted nowhere.
   */
  lemma {:induction false} EveryCallIsEmittedOnce(decode: Decoder, chunks: seq<string>, close: Close, j: nat)
    returns (f: nat)
    requires var s := Turn(decode, chunks, close);
             s.status.Finished? && j < |s.acts| && s.acts[j].Opened?
    ensures var s := Turn(decode, chunks, close);
            && f < |s.acts| && s.acts[f].Flushed? && Flushes(s.acts, f) < |Batches(s.events)|
            && (Live(s.acts, j, f) <==> forall k: nat :: !Replaced(s.acts, j, k))
            && (Live(s.acts, j, f) ==>
                  var batch, i := Batches(s.events)[Flushes(s.acts, f)], s.acts[j].index;
                  if Assembled(s.acts, j, f).name == "" then i !in batch
                  else i in batch && batch[i] == Assembled(s.acts, j, f))
            && forall g: nat :: g < |s.acts| && s.acts[g].Flushed? && g != f ==> !Live(s.acts, j, g)
  {
    var acts := Turn(decode, chunks, close).acts;
    TurnExplained(decode, chunks, close);
    LiveAtNextFlush(acts, j);
    f := NextFlush(acts, j + 1);
    CallsEmittedExactly(decode, chunks, close, f);
  }

  // ── The fold of the events ───────────────────────────────────────────────────

  /** What `run_turn` makes of the events it receives; `failed` is its error return. */
  datatype Folded = Folded(text: string, calls: seq<map<nat, Slot>>, usage: Usage, failed: Option<string>)

  function FoldOne(t: Folded, e: TurnEvent): Folded {
    if t.failed.Some? then t
    else
      match e
      case TextDelta(d) => t.(text := t.text + d)
      case Calls(slots) => t.(calls := t.calls + [slots])
      case TurnEnd(fullText, usage) => t.(text := if t.text == "" then fullText else t.text, usage := usage)
      case Error(message) => t.(failed := Some(message))
  }

  function Fold(events: seq<TurnEvent>): Folded {
    if events == [] then Folded("", [], NO_USAGE, None)
    else FoldOne(Fold(events[..|events| - 1]), events[|events| - 1])
  }

  lemma {:induction false} FoldSnoc(events: seq<TurnEvent>, e: TurnEvent)
    ensures Fold(events + [e]) == FoldOne(Fold(events), e)
  {
    assert (events + [e])[..|events|] == events;
  }

  /** The text deltas of a stream, in order. */
  function Spoken(acts: seq<Act>): string {
    if acts == [] then ""
    else
      var last := acts[|acts| - 1];
      Spoken(acts[..|acts| - 1]) + (if last.Said? then last.text else "")
  }

  lemma {:induction false} FoldFlush(events: seq<TurnEvent>, slots: map<nat, Slot>, text: string, usage: Usage)
    requires Fold(events).failed == None && Fold(events).text == text
    ensures Fold(events + [Calls(slots), TurnEnd(text, usage)]) ==
              Folded(text, Fold(events).calls + [slots], usage, None)
  {
    FoldSnoc(events, Calls(slots));
    FoldSnoc(events + [Calls(slots)], TurnEnd(text, usage));
    assert events + [Calls(slots)] + [TurnEnd(text, usage)] == events + [Calls(slots), TurnEnd(text, usage)];
  }

  lemma {:induction false} FoldTake(s: Stream, a: Act)
    requires Fold(s.events).failed == None && Fold(s.events).text == s.text
    ensures var t := Fold(Take(s, a).events);
            && t.failed == None && t.text == Take(s, a).text
            && t.calls == Fold(s.events).calls + (if a.Flushed? then [Named(s.slots)] else [])
            && (a.Flushed? ==> t.usage == s.usage)
  {
    if a.Flushed? {
      FoldFlush(s.events, Named(s.slots), s.text, s.usage);
    } else if a.Said? {
      FoldSnoc(s.events, TextDelta(a.text));
    }
  }

  lemma {:induction false} FoldFollows(acts: seq<Act>)
    ensures var s := TakeAll(FRESH, acts);
            && Fold(s.events).failed == None && Fold(s.events).text == s.text == Spoken(acts)
            && Fold(s.events).calls == Batches(s.events)
            && (acts != [] && acts[|acts| - 1].Flushed? ==> Fold(s.events).usage == s.usage)
  {
    if acts != [] {
      var front, a := acts[..|acts| - 1], acts[|acts| - 1];
      FoldFollows(front);
      FoldTake(TakeAll(FRESH, front), a);
      BatchTake(TakeAll(FRESH, front), a);
    }
  }

  /**
   However many turn ends arrive, the folded text is the concatenation of the
   text deltas, the calls are the emitted batches, and the usage of a stream
   that finished is the last one reported.
   */
  lemma {:induction false} FoldedTurn(decode: Decoder, chunks: seq<string>, close: Close)
    ensures var s := Turn(decode, chunks, close);
            var t := Fold(s.events);
            && t.text == Spoken(s.acts) && t.calls == Batches(s.events)
            && (s.status.Finished? ==> t.failed == None && t.usage == s.usage)
            && (t.failed.Some? ==> s.status == Failed(t.failed.value))
  {
    TurnExplained(decode, chunks, close);
    var s := Turn(decode, chunks, close);
    FoldFollows(s.acts);
    var m := TakeAll(FRESH, s.acts);
    if s.status.Failed? {
      FoldSnoc(m.events, Error(s.status.message));
      BatchSnoc(m.events, Error(s.status.message));
    }
  }

  // ── As the program runs it ───────────────────────────────────────────────────

  /** `flush_pending_turn`: completes the named slots, empties the map, ends the turn. */
  method FlushPending(start: Stream) returns (s: Stream)
    ensures s == Take(start, Flushed)
  {
    var pending := start.slots;
    s := start.(slots := map[], acts := start.acts + [Flushed]);
    s := s.(events := s.events + [Calls(map i | i in pending && pending[i].name != "" :: pending[i])]);
    s := s.(events := s.events + [TurnEnd(s.text, s.usage)]);
    assert s.events == start.events + [Calls(Named(pending)), TurnEnd(start.text, start.usage)];
  }

  /** One entry of `tool_calls`. */
  method TakeCall(start: Stream, d: CallDelta) returns (s: Stream)
    ensures s == Take(start, CallAct(d))
  {
    s := start.(acts := start.acts + [CallAct(d)]);
    if d.id.Some? {
      s := s.(slots := s.slots[d.index := Slot(d.id.value, Or(d.name, ""), Or(d.args, ""))]);
    } else if d.index in s.slots {
      var slot := s.slots[d.index];
      if d.args.Some? {
        slot := slot.(args := slot.args + d.args.value);
      } else {
        assert slot.args + "" == slot.args;
      }
      if d.name.Some? && d.name.value != "" && slot.name == "" {
        slot := slot.(name := d.name.value);
      }
      s := s.(slots := s.slots[d.index := slot]);
    }
  }

  lemma {:induction false} TakeMore(s: Stream, said: seq<Act>, all: seq<Act>, k: nat)
    requires k < |all|
    ensures TakeAll(s, said + all[..k + 1]) == Take(TakeAll(s, said + all[..k]), all[k])
  {
    TakeSnoc(s, said + all[..k], all[k]);
    assert said + all[..k] + [all[k]] == said + all[..k + 1];
  }

  method TakeChoice(start: Stream, choice: Choice) returns (s: Stream)
    ensures s == TakeAll(start, ChoiceActs(choice))
  {
    s := start;
    ghost var said := [];
    if choice.content.Some? && choice.content.value != "" {
      var content := choice.content.value;
      s := s.(text := s.text + content, events := s.events + [TextDelta(content)], acts := s.acts + [Said(content)]);
      said := [Said(content)];
    }
    ghost var all := CallActs(choice.calls);
    for k := 0 to |choice.calls|
      invariant s == TakeAll(start, said + all[..k])
    {
      s := TakeCall(s, choice.calls[k]);
      TakeMore(start, said, all, k);
    }
    assert all[..|choice.calls|] == all;
    if choice.finished {
      s := FlushPending(s);
      TakeSnoc(start, said + all, Flushed);
    } else {
      assert said + all + [] == said + all;
    }
  }

  method TakeText(decode: Decoder, start: Stream, data: string) returns (s: Stream)
    ensures s == TakeData(decode, start, data)
  {
    s := start;
    if data == "[DONE]" {
      s := FlushPending(s);
      return s.(status := Finished);
    }
    var decoded := decode(data);
    if decoded == None {
      return;
    }
    var payload := decoded.value;
    if payload.error.Some? {
      var message := payload.error.value;
      return s.(events := s.events + [Error(message)], status := Failed(message));
    }
    if payload.usage.Some? {
      var report := payload.usage.value;
      var usage := s.usage.(input := report.prompt, output := report.completion);
      if report.cached.Some? {
        usage := usage.(cacheRead := report.cached.value);
      }
      if report.written.Some? {
        usage := usage.(cacheWrite := report.written.value);
      }
      s := s.(usage := usage, acts := s.acts + [Used(report)]);
    }
    if payload.choice.Some? {
      s := TakeChoice(s, payload.choice.value);
    }
  }

  method TakeRaw(decode: Decoder, start: Stream, raw: string) returns (s: Stream)
    ensures s == TakeLine(decode, start, raw)
  {
    var line := TrimCr(raw);
    if |line| < 6 || line[..6] != "data: " {
      return start;
    }
    s := TakeText(decode, start, line[6..]);
  }

  method StreamTurn(decode: Decoder, chunks: seq<string>, close: Close) returns (s: Stream)
    ensures s == Turn(decode, chunks, close)
  {
    ghost var c := Lines(decode);
    s := FRESH;
    var buf, k := "", 0;
    while k < |chunks|
      invariant 0 <= k <= |chunks| && s.status.Running?
      invariant Feed(c, Buffered(s, buf), chunks[k..]) == Feed(c, Buffered(FRESH, ""), chunks)
    {
      ghost var before, rest := s, chunks[k + 1..];
      assert chunks[k..][0] == chunks[k] && chunks[k..][1..] == rest;
      buf := buf + chunks[k];
      ghost var whole := buf;
      var nl := Find(buf, '\n');
      while nl < |buf|
        invariant nl == Find(buf, '\n')
        invariant s.status.Running? && Drain(c, s, buf) == Drain(c, before, whole)
        decreases |buf|
      {
        s := TakeRaw(decode, s, buf[..nl]);
        buf := buf[nl + 1..];
        if !s.status.Running? {
          return;
        }
        nl := Find(buf, '\n');
      }
      k := k + 1;
    }
    match close {
      case Closed =>
        s := FlushPending(s);
        s := s.(status := Finished);
      case Lost(message) =>
        s := s.(status := Failed(message));
    }
  }
}
