/**
 A chat-completions turn in terms of the payloads the stream carries: which
 calls it emits, with which id, name and arguments, what it says and what it
 used, whatever chunks the stream arrives in.
 */
module SsePayloads {
  import opened Prelude
  import opened LineBuffer
  import opened SseStream
  import AgentLoop

  // ── From the text of the stream to its payloads ──────────────────────────────

  /** What follows `data: ` in those complete lines of a text that start so, less the carriage returns at their end. */
  function DatasOf(text: string): seq<string>
    decreases |text|
  {
    var nl := Find(text, '\n');
    if nl == |text| then []
    else
      var line := TrimCr(text[..nl]);
      (if |line| >= 6 && line[..6] == "data: " then [line[6..]] else []) + DatasOf(text[nl + 1..])
  }

  /** One thing a payload tells: some text, an entry of `tool_calls`, a usage report, or that the turn is over. */
  datatype Told = Words(text: string) | Delta(d: CallDelta) | Reported(report: UsageReport) | Over

  function DeltasOf(ds: seq<CallDelta>): seq<Told> {
    seq(|ds|, i requires 0 <= i < |ds| => Delta(ds[i]))
  }

  function ToldByChoice(c: Choice): seq<Told> {
    (if c.content.Some? && c.content.value != "" then [Words(c.content.value)] else [])
    + DeltasOf(c.calls) + (if c.finished then [Over] else [])
  }

  function ToldBy(p: Payload): seq<Told> {
    (if p.usage.Some? then [Reported(p.usage.value)] else [])
    + (if p.choice.Some? then ToldByChoice(p.choice.value) else [])
  }

  /** What a stream of data items tells, up to the end marker, the first error or the close of the stream. */
  function ToldOf(decode: Decoder, datas: seq<string>, close: Close): seq<Told> {
    if datas == [] then (if close.Closed? then [Over] else [])
    else if datas[0] == "[DONE]" then [Over]
    else
      match decode(datas[0])
      case None => ToldOf(decode, datas[1..], close)
      case Some(p) => if p.error.Some? then [] else ToldBy(p) + ToldOf(decode, datas[1..], close)
  }

  /** How it ends. */
  function EndOf(decode: Decoder, datas: seq<string>, close: Close): Status {
    if datas == [] then (if close.Closed? then Finished else Failed(close.message))
    else if datas[0] == "[DONE]" then Finished
    else
      match decode(datas[0])
      case None => EndOf(decode, datas[1..], close)
      case Some(p) => if p.error.Some? then Failed(p.error.value) else EndOf(decode, datas[1..], close)
  }

  /** What a turn is told. */
  function TurnTold(decode: Decoder, chunks: seq<string>, close: Close): seq<Told> {
    ToldOf(decode, DatasOf(Concat(chunks)), close)
  }

  // ── The loop takes in exactly that ───────────────────────────────────────────

  function ActOf(t: Told): Act {
    match t
    case Words(text) => Said(text)
    case Delta(d) => CallAct(d)
    case Reported(report) => Used(report)
    case Over => Flushed
  }

  function ActsOf(told: seq<Told>): seq<Act> {
    seq(|told|, i requires 0 <= i < |told| => ActOf(told[i]))
  }

  lemma {:induction false} ActsConcat(a: seq<Told>, b: seq<Told>)
    ensures ActsOf(a + b) == ActsOf(a) + ActsOf(b)
  {
  }

  lemma {:induction false} TextDrain(decode: Decoder, s: Stream, text: string)
    ensures Drain(Lines(decode), s, text).state == TakeDatas(decode, s, DatasOf(text))
    decreases |text|
  {
    var nl := Find(text, '\n');
    if nl < |text| && s.status.Running? {
      var c := Lines(decode);
      var t := c.take(s, text[..nl]);
      assert t == TakeLine(decode, s, text[..nl]);
      TextDrain(decode, t, text[nl + 1..]);
      match DataOf(TrimCr(text[..nl])) {
        case None => assert [] + DatasOf(text[nl + 1..]) == DatasOf(text[nl + 1..]);
        case Some(data) => assert ([data] + DatasOf(text[nl + 1..]))[1..] == DatasOf(text[nl + 1..]);
      }
    }
  }

  /** A turn takes in the data of its lines. */
  lemma {:induction false} TextTurn(decode: Decoder, chunks: seq<string>, close: Close)
    ensures Turn(decode, chunks, close) == AtClose(TakeDatas(decode, FRESH, DatasOf(Concat(chunks))), close)
  {
    TurnIsDrain(decode, chunks, close);
    TextDrain(decode, FRESH, Concat(chunks));
  }

  /** An encoded list of data items carries those items. */
  lemma {:induction false} EncodedDatas(datas: seq<string>)
    requires forall d :: d in datas ==> OneLine(d)
    ensures DatasOf(Encoded(datas)) == datas
  {
    if datas != [] {
      var d, rest := datas[0], Encoded(datas[1..]);
      EncodedDatas(datas[1..]);
      DataLine(d);
      FirstData("data: " + d, "\n" + rest);
      FirstData("", rest);
      assert "" + "\n" + rest == "\n" + rest;
      assert datas == [d] + datas[1..];
    }
  }

  lemma {:induction false} FirstData(line: string, rest: string)
    requires '\n' !in line
    ensures DatasOf(line + "\n" + rest) ==
              match DataOf(TrimCr(line)) case None => DatasOf(rest) case Some(data) => [data] + DatasOf(rest)
  {
    var text := line + "\n" + rest;
    FindUnique(text, '\n', |line|);
    assert text[..|line|] == line && text[|line| + 1..] == rest;
  }

  lemma {:induction false} TakeAllActs(s: Stream, acts: seq<Act>)
    ensures TakeAll(s, acts).acts == s.acts + acts && TakeAll(s, acts).status == s.status
  {
    if acts == [] {
      assert s.acts + [] == s.acts;
    } else {
      var front, last := acts[..|acts| - 1], acts[|acts| - 1];
      TakeAllActs(s, front);
      Assoc(s.acts, front, [last]);
      assert acts == front + [last];
    }
  }

  lemma {:induction false} ChoiceTold(c: Choice)
    ensures ActsOf(ToldByChoice(c)) == ChoiceActs(c)
  {
    var said := if c.content.Some? && c.content.value != "" then [Words(c.content.value)] else [];
    var over := if c.finished then [Over] else [];
    ActsConcat(said + DeltasOf(c.calls), over);
    ActsConcat(said, DeltasOf(c.calls));
    assert ActsOf(DeltasOf(c.calls)) == CallActs(c.calls);
  }

  lemma {:induction false} PayloadTold(s: Stream, p: Payload)
    requires p.error.None?
    ensures TakePayload(s, p).acts == s.acts + ActsOf(ToldBy(p)) && TakePayload(s, p).status == s.status
  {
    var used := if p.usage.Some? then [Reported(p.usage.value)] else [];
    var rest := if p.choice.Some? then ToldByChoice(p.choice.value) else [];
    var t := if p.usage.Some? then Take(s, Used(p.usage.value)) else s;
    ActsConcat(used, rest);
    assert t.acts == s.acts + ActsOf(used);
    if p.choice.Some? {
      ChoiceTold(p.choice.value);
      TakeAllActs(t, ChoiceActs(p.choice.value));
    }
    Assoc(s.acts, ActsOf(used), ActsOf(rest));
  }

  lemma {:induction false} DatasTold(decode: Decoder, s: Stream, datas: seq<string>, close: Close)
    requires s.status.Running?
    ensures var t := AtClose(TakeDatas(decode, s, datas), close);
            && t.acts == s.acts + ActsOf(ToldOf(decode, datas, close)) && t.status == EndOf(decode, datas, close)
    decreases |datas|
  {
    if datas != [] && datas[0] != "[DONE]" {
      var rest := datas[1..];
      match decode(datas[0]) {
        case None => DatasTold(decode, s, rest, close);
        case Some(p) =>
          if p.error.None? {
            PayloadTold(s, p);
            DatasTold(decode, TakePayload(s, p), rest, close);
            ActsConcat(ToldBy(p), ToldOf(decode, rest, close));
            Assoc(s.acts, ActsOf(ToldBy(p)), ActsOf(ToldOf(decode, rest, close)));
          }
      }
    }
  }

  /** What the loop of a turn recorded is what its payloads tell, and it ends as they say. */
  lemma {:induction false} TurnTakesAll(decode: Decoder, chunks: seq<string>, close: Close)
    ensures var s := Turn(decode, chunks, close);
            && s.acts == ActsOf(TurnTold(decode, chunks, close))
            && s.status == EndOf(decode, DatasOf(Concat(chunks)), close)
  {
    TextTurn(decode, chunks, close);
    FreshTold(decode, DatasOf(Concat(chunks)), close);
  }

  lemma {:induction false} FreshTold(decode: Decoder, datas: seq<string>, close: Close)
    ensures var t := AtClose(TakeDatas(decode, FRESH, datas), close);
            t.acts == ActsOf(ToldOf(decode, datas, close)) && t.status == EndOf(decode, datas, close)
  {
    DatasTold(decode, FRESH, datas, close);
    assert FRESH.acts + ActsOf(ToldOf(decode, datas, close)) == ActsOf(ToldOf(decode, datas, close));
  }

  // ── Calls ────────────────────────────────────────────────────────────────────

  predicate Opens(t: Told) {
    t.Delta? && t.d.id.Some?
  }

  /** The call opened by `told[j]` is still open before `told[f]`. */
  predicate Open(told: seq<Told>, j: nat, f: nat) {
    && j < f <= |told| && Opens(told[j])
    && (forall k :: j < k < f ==> !told[k].Over?)
    && (forall k :: j < k < f && Opens(told[k]) ==> told[k].d.index != told[j].d.index)
  }

  /** The argument fragments of index `i`, in order. */
  function ArgsOf(told: seq<Told>, from: nat, to: nat, i: nat): string
    requires from <= to <= |told|
  {
    if from == to then ""
    else
      var t := told[to - 1];
      ArgsOf(told, from, to - 1, i) + (if t.Delta? && t.d.index == i && t.d.args.Some? then t.d.args.value else "")
  }

  /** The first name that is given for index `i`. */
  function NameOf(told: seq<Told>, from: nat, to: nat, i: nat): string
    requires from <= to <= |told|
  {
    if from == to then ""
    else
      var n, t := NameOf(told, from, to - 1, i), told[to - 1];
      if n == "" && t.Delta? && t.d.index == i && t.d.name.Some? then t.d.name.value else n
  }

  /** The call opened by `told[j]`: its id, its first name and all its fragments before `told[f]`. */
  function CallOf(told: seq<Told>, j: nat, f: nat): Slot
    requires j < f <= |told| && Opens(told[j])
  {
    var i := told[j].d.index;
    Slot(told[j].d.id.value, NameOf(told, j, f, i), ArgsOf(told, j, f, i))
  }

  lemma {:induction false} OpenIsLive(told: seq<Told>, j: nat, f: nat)
    ensures Open(told, j, f) <==> Live(ActsOf(told), j, f)
  {
    var acts := ActsOf(told);
    assert forall k :: 0 <= k < |told| ==> (acts[k].Opened? <==> Opens(told[k]));
    assert forall k :: 0 <= k < |told| ==> (acts[k].Flushed? <==> told[k].Over?);
    assert forall k :: 0 <= k < |told| && Opens(told[k]) ==> acts[k].index == told[k].d.index;
  }

  lemma {:induction false} CallIsAssembled(told: seq<Told>, j: nat, f: nat)
    requires Open(told, j, f) && Live(ActsOf(told), j, f)
    ensures Assembled(ActsOf(told), j, f) == CallOf(told, j, f)
  {
    var acts, i := ActsOf(told), told[j].d.index;
    assert acts[j] == CallAct(told[j].d);
    if f == j + 1 {
      FirstPieces(told, j, i);
      assert acts[j].args + "" == acts[j].args;
    } else {
      CallIsAssembled(told, j, f - 1);
      PieceNext(told, acts, j, f, i);
    }
  }

  lemma {:induction false} FirstPieces(told: seq<Told>, j: nat, i: nat)
    requires j < |told| && Opens(told[j]) && told[j].d.index == i
    ensures NameOf(told, j, j + 1, i) == Or(told[j].d.name, "") && ArgsOf(told, j, j + 1, i) == Or(told[j].d.args, "")
  {
    assert ArgsOf(told, j, j, i) == "" && NameOf(told, j, j, i) == "";
    assert "" + Or(told[j].d.args, "") == Or(told[j].d.args, "");
  }

  lemma {:induction false} PieceNext(told: seq<Told>, acts: seq<Act>, j: nat, f: nat, i: nat)
    requires j + 1 < f <= |told| && acts == ActsOf(told) && acts[j].Opened? && acts[j].index == i
    requires Opens(told[f - 1]) ==> told[f - 1].d.index != i
    requires acts[j].args + Fragments(acts, j + 1, f - 1, i) == ArgsOf(told, j, f - 1, i)
    requires FirstName(acts[j].name, acts, j + 1, f - 1, i) == NameOf(told, j, f - 1, i)
    ensures acts[j].args + Fragments(acts, j + 1, f, i) == ArgsOf(told, j, f, i)
    ensures FirstName(acts[j].name, acts, j + 1, f, i) == NameOf(told, j, f, i)
  {
    var t, a := told[f - 1], acts[f - 1];
    assert a == ActOf(t);
    var piece := if a.Continued? && a.index == i then a.args else "";
    Assoc(acts[j].args, Fragments(acts, j + 1, f - 1, i), piece);
    assert piece == if t.Delta? && t.d.index == i && t.d.args.Some? then t.d.args.value else "";
  }

  function Overs(told: seq<Told>, n: nat): nat
    requires n <= |told|
  {
    if n == 0 then 0 else Overs(told, n - 1) + (if told[n - 1].Over? then 1 else 0)
  }

  lemma {:induction false} OversAreFlushes(told: seq<Told>, n: nat)
    requires n <= |told|
    ensures Overs(told, n) == Flushes(ActsOf(told), n)
  {
    if n > 0 {
      OversAreFlushes(told, n - 1);
      assert ActsOf(told)[n - 1] == ActOf(told[n - 1]);
    }
  }

  /** `batch` holds, by index, the open calls that have a name, whole, and nothing else. */
  ghost predicate TheOpenCalls(told: seq<Told>, f: nat, batch: map<nat, Slot>) {
    && f <= |told|
    && (forall i: nat :: i in batch ==> exists j: nat :: Open(told, j, f) && told[j].d.index == i)
    && (forall j: nat :: Open(told, j, f) ==>
          && (told[j].d.index in batch <==> CallOf(told, j, f).name != "")
          && (told[j].d.index in batch ==> batch[told[j].d.index] == CallOf(told, j, f)))
  }

  lemma {:induction false} LiveAreOpen(told: seq<Told>, f: nat, batch: map<nat, Slot>)
    requires f <= |told| && TheLiveCalls(ActsOf(told), f, batch)
    ensures TheOpenCalls(told, f, batch)
  {
    forall i: nat | i in batch ensures exists j: nat :: Open(told, j, f) && told[j].d.index == i {
      var j: nat :| Live(ActsOf(told), j, f) && ActsOf(told)[j].index == i;
      OpenIsLive(told, j, f);
    }
    forall j: nat | Open(told, j, f)
      ensures told[j].d.index in batch <==> CallOf(told, j, f).name != ""
      ensures told[j].d.index in batch ==> batch[told[j].d.index] == CallOf(told, j, f)
    {
      OpenIsLive(told, j, f);
      CallIsAssembled(told, j, f);
      assert ActsOf(told)[j].index == told[j].d.index;
    }
  }

  /**
   Each end of a turn emits one batch: the calls open there that have a name,
   each with the id it was opened with, the first name given for its index and
   all argument fragments of its index, in order.
   */
  lemma {:induction false} CallsOfPayloads(decode: Decoder, chunks: seq<string>, close: Close, f: nat)
    requires f < |TurnTold(decode, chunks, close)| && TurnTold(decode, chunks, close)[f].Over?
    ensures var told, batches := TurnTold(decode, chunks, close), Batches(Turn(decode, chunks, close).events);
            && |batches| == Overs(told, |told|) > Overs(told, f)
            && TheOpenCalls(told, f, batches[Overs(told, f)])
  {
    var told := TurnTold(decode, chunks, close);
    TurnTakesAll(decode, chunks, close);
    assert ActsOf(told)[f] == ActOf(told[f]);
    CallsEmittedExactly(decode, chunks, close, f);
    OversAreFlushes(told, f);
    OversAreFlushes(told, |told|);
    LiveAreOpen(told, f, Batches(Turn(decode, chunks, close).events)[Overs(told, f)]);
  }

  /** `told[k]` opens the index of `told[j]` again before the turn is over. */
  predicate OpensAgain(told: seq<Told>, j: nat, k: nat) {
    && j < k < |told| && Opens(told[j]) && Opens(told[k]) && told[k].d.index == told[j].d.index
    && forall h :: j < h < k ==> !told[h].Over?
  }

  lemma {:induction false} AgainIsReplaced(told: seq<Told>, j: nat, k: nat)
    ensures OpensAgain(told, j, k) <==> Replaced(ActsOf(told), j, k)
  {
    var acts := ActsOf(told);
    assert forall h :: 0 <= h < |told| ==> (acts[h].Opened? <==> Opens(told[h]));
    assert forall h :: 0 <= h < |told| ==> (acts[h].Flushed? <==> told[h].Over?);
    assert forall h :: 0 <= h < |told| && Opens(told[h]) ==> acts[h].index == told[h].d.index;
  }

  /**
   In a turn that finishes, every opened call is emitted whole at exactly one
   end of a turn if it has a name and its index is not opened again before, and
   at none otherwise.
   */
  lemma {:induction false} OpenedCallsOnce(decode: Decoder, chunks: seq<string>, close: Close, j: nat) returns (f: nat)
    requires EndOf(decode, DatasOf(Concat(chunks)), close).Finished?
    requires j < |TurnTold(decode, chunks, close)| && Opens(TurnTold(decode, chunks, close)[j])
    ensures var told, batches := TurnTold(decode, chunks, close), Batches(Turn(decode, chunks, close).events);
            && f < |told| && told[f].Over? && Overs(told, f) < |batches|
            && (Open(told, j, f) <==> forall k: nat :: !OpensAgain(told, j, k))
            && (Open(told, j, f) ==>
                  var batch, i := batches[Overs(told, f)], told[j].d.index;
                  if CallOf(told, j, f).name == "" then i !in batch
                  else i in batch && batch[i] == CallOf(told, j, f))
            && forall g: nat :: g < |told| && told[g].Over? && g != f ==> !Open(told, j, g)
  {
    var told := TurnTold(decode, chunks, close);
    TurnTakesAll(decode, chunks, close);
    var acts := ActsOf(told);
    assert acts[j] == ActOf(told[j]);
    f := EveryCallIsEmittedOnce(decode, chunks, close, j);
    assert acts[f] == ActOf(told[f]);
    OpenIsLive(told, j, f);
    forall k: nat ensures OpensAgain(told, j, k) <==> Replaced(acts, j, k) {
      AgainIsReplaced(told, j, k);
    }
    CallsOfPayloads(decode, chunks, close, f);
    forall g: nat | g < |told| && told[g].Over? && g != f ensures !Open(told, j, g) {
      assert acts[g] == ActOf(told[g]);
      OpenIsLive(told, j, g);
    }
  }

  // ── Text and usage ───────────────────────────────────────────────────────────

  function TextOf(told: seq<Told>): string {
    if told == [] then ""
    else
      var last := told[|told| - 1];
      TextOf(told[..|told| - 1]) + (if last.Words? then last.text else "")
  }

  function LastReport(told: seq<Told>): Option<UsageReport> {
    if told == [] then None
    else
      var last := told[|told| - 1];
      if last.Reported? then Some(last.report) else LastReport(told[..|told| - 1])
  }

  function LastCached(told: seq<Told>): nat {
    if told == [] then 0
    else
      var last := told[|told| - 1];
      if last.Reported? && last.report.cached.Some? then last.report.cached.value else LastCached(told[..|told| - 1])
  }

  function LastWritten(told: seq<Told>): nat {
    if told == [] then 0
    else
      var last := told[|told| - 1];
      if last.Reported? && last.report.written.Some? then last.report.written.value else LastWritten(told[..|told| - 1])
  }

  lemma {:induction false} SpokenIsText(told: seq<Told>)
    ensures Spoken(ActsOf(told)) == TextOf(told)
  {
    if told != [] {
      var n := |told| - 1;
      SpokenIsText(told[..n]);
      assert ActsOf(told)[..n] == ActsOf(told[..n]) && ActsOf(told)[n] == ActOf(told[n]);
    }
  }

  /** Prompt tokens are input and completion tokens are output; the cached counts are those last reported. */
  predicate UsedAs(u: AgentLoop.Usage, told: seq<Told>) {
    && u.input == (if LastReport(told).Some? then LastReport(told).value.prompt else 0)
    && u.output == (if LastReport(told).Some? then LastReport(told).value.completion else 0)
    && u.cacheRead == LastCached(told) && u.cacheWrite == LastWritten(told)
  }

  lemma {:induction false} UsageIsReported(told: seq<Told>)
    ensures UsedAs(TakeAll(FRESH, ActsOf(told)).usage, told)
  {
    if told != [] {
      var n := |told| - 1;
      UsageIsReported(told[..n]);
      assert ActsOf(told)[..n] == ActsOf(told[..n]) && ActsOf(told)[n] == ActOf(told[n]);
      UsageNext(TakeAll(FRESH, ActsOf(told[..n])), told[..n], told[n]);
      assert told[..n] + [told[n]] == told;
    }
  }

  lemma {:induction false} UsageNext(s: Stream, front: seq<Told>, t: Told)
    requires UsedAs(s.usage, front)
    ensures UsedAs(Take(s, ActOf(t)).usage, front + [t])
  {
    assert (front + [t])[..|front|] == front;
  }

  /**
   However many ends of turn arrive, the folded text is the concatenation of the
   choices' contents and the calls are the emitted batches; if the stream
   finishes, the usage is the one last reported, otherwise the error is the stream's.
   */
  lemma {:induction false} PayloadsFolded(decode: Decoder, chunks: seq<string>, close: Close)
    ensures var s, told := Turn(decode, chunks, close), TurnTold(decode, chunks, close);
            var t, end := Fold(s.events), EndOf(decode, DatasOf(Concat(chunks)), close);
            && t.text == TextOf(told) && t.calls == Batches(s.events)
            && (end.Finished? ==> t.failed == None && UsedAs(t.usage, told))
            && (t.failed.Some? ==> end == Failed(t.failed.value))
  {
    var told := TurnTold(decode, chunks, close);
    TurnTakesAll(decode, chunks, close);
    FoldedTurn(decode, chunks, close);
    SpokenIsText(told);
    UsageIsReported(told);
    TurnExplained(decode, chunks, close);
  }
}
