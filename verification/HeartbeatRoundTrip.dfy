/**
 The round trip of the heartbeat file: what parsing a printed file gives back,
 and exactly when that is what was printed.
 */
module HeartbeatRoundTrip {
  import opened Prelude
  import opened Text
  import opened Heartbeat
  import opened HeartbeatText

  // ── Folding over lines ───────────────────────────────────────────────────────

  lemma {:induction false} TakeConcat(f: Format, d: Draft, a: seq<string>, b: seq<string>)
    ensures TakeLines(f, d, a + b) == TakeLines(f, TakeLines(f, d, a), b)
  {
    if b == [] {
      assert a + b == a;
    } else {
      var n := |b| - 1;
      TakeConcat(f, d, a, b[..n]);
      TakeSnoc(f, d, a + b[..n], b[n]);
      assert a + b == a + b[..n] + [b[n]];
    }
  }

  lemma {:induction false} TakeTitle(f: Format, title: string)
    requires OneLine(title)
    ensures TakeLine(f, BLANK, "## " + title) == BLANK.(title := Some(title))
  {
    assert ("## " + title)[3..] == title;
    TrimTrimmed(title);
  }

  /** A key the printer writes: lower-case letters and underscores. */
  predicate PlainKey(key: string) {
    key != "" && forall i :: 0 <= i < |key| ==> 'a' <= key[i] <= 'z' || key[i] == '_'
  }

  lemma {:induction false} PlainKeyIsKey(f: Format, key: string)
    requires Sound(f) && PlainKey(key)
    ensures Trim(key) == key && IsKey(f, key) && ':' !in key
  {
    TrimTrimmed(key);
  }

  lemma {:induction false} KeySplits(f: Format, key: string, blank: string, value: string)
    requires Sound(f) && PlainKey(key) && AllSpace(blank) && IsTrimmed(value)
    ensures KeyValue(f, key + [':'] + (blank + value)) == Some((key, value))
  {
    var rest := blank + value;
    PlainKeyIsKey(f, key);
    FindAppend(key, ':', rest);
    assert (key + [':'] + rest)[..|key|] == key && (key + [':'] + rest)[|key| + 1..] == rest;
    TrimPadded(blank, value, "");
    assert rest == blank + value + "";
  }

  lemma {:induction false} MetaSplits(f: Format, m: (string, string), line: string)
    requires Sound(f) && PlainKey(m.0) && IsTrimmed(m.1)
    requires line == MetaLine(m) || (m.1 == "" && line == m.0 + ":")
    ensures KeyValue(f, line) == Some(m)
  {
    if line == MetaLine(m) {
      KeySplits(f, m.0, " ", m.1);
      Assoc(m.0, [':'], " " + m.1);
      assert ": " == [':'] + " ";
      Assoc(m.0, ": ", m.1);
      Assoc([':'], " ", m.1);
    } else {
      KeySplits(f, m.0, "", "");
      assert m.0 + [':'] + ("" + "") == m.0 + ":";
    }
  }

  /** A metadata line sets its field, and so does the line without the blank a missing value leaves. */
  lemma {:induction false} TakeMeta(f: Format, d: Draft, m: (string, string), line: string)
    requires Sound(f) && PlainKey(m.0) && IsTrimmed(m.1) && d.title.Some? && !d.inBody
    requires line == MetaLine(m) || (m.1 == "" && line == m.0 + ":")
    ensures TakeLine(f, d, line) == d.(fields := d.fields[m.0 := m.1])
  {
    MetaSplits(f, m, line);
    assert line[0] == m.0[0];
    VisibleStays(line, 0);
  }

  /** The fields after the metadata `ms`. */
  function Filled(fields: map<string, string>, ms: seq<(string, string)>): map<string, string> {
    if ms == [] then fields else Filled(fields, ms[..|ms| - 1])[ms[|ms| - 1].0 := ms[|ms| - 1].1]
  }

  predicate GoodMeta(ms: seq<(string, string)>) {
    forall i :: 0 <= i < |ms| ==> PlainKey(ms[i].0) && OneLine(ms[i].1)
  }

  lemma {:induction false} TakeMetas(f: Format, d: Draft, ms: seq<(string, string)>)
    requires Sound(f) && GoodMeta(ms) && d.title.Some? && !d.inBody
    ensures TakeLines(f, d, MetaLines(ms)) == d.(fields := Filled(d.fields, ms))
  {
    if ms != [] {
      var n := |ms| - 1;
      TakeMetas(f, d, ms[..n]);
      assert MetaLines(ms)[..n] == MetaLines(ms[..n]);
      TakeMeta(f, TakeLines(f, d, MetaLines(ms[..n])), ms[n], MetaLine(ms[n]));
    }
  }

  /** The lines the parser keeps of a body: it skips what looks like the file's own heading. */
  function Kept(lines: seq<string>): seq<string> {
    if lines == [] then []
    else
      var front, last := Kept(lines[..|lines| - 1]), lines[|lines| - 1];
      if IsFileHeading(last) then front else front + [last]
  }

  lemma {:induction false} TakeBody(f: Format, d: Draft, lines: seq<string>)
    requires d.title.Some? && d.inBody
    ensures TakeLines(f, d, lines) == d.(body := d.body + Kept(lines))
  {
    if lines == [] {
      assert d.body + [] == d.body;
    } else {
      var n := |lines| - 1;
      TakeBody(f, d, lines[..n]);
      Assoc(d.body, Kept(lines[..n]), [lines[n]]);
    }
  }

  /** What `lines()` makes of lines that a newline follows. */
  function StripAll(lines: seq<string>): seq<string> {
    seq(|lines|, i requires 0 <= i < |lines| => StripCr(lines[i]))
  }

  lemma {:induction false} StripConcat(a: seq<string>, b: seq<string>)
    ensures StripAll(a + b) == StripAll(a) + StripAll(b)
  {
  }

  lemma {:induction false} LinesCons(line: string, rest: string)
    requires '\n' !in line
    ensures line != "" ==> LinesOf(line) == [line]
    ensures LinesOf(line + "\n" + rest) == [StripCr(line)] + LinesOf(rest)
  {
    FindAppend(line, '\n', rest);
    var s := line + ['\n'] + rest;
    assert s[..|line|] == line && s[|line| + 1..] == rest;
  }

  lemma {:induction false} StripCons(ls: seq<string>)
    requires ls != []
    ensures StripAll(ls) == [StripCr(ls[0])] + StripAll(ls[1..])
  {
  }

  lemma {:induction false} LinesOfJoined(ls: seq<string>)
    requires ls != [] && NoNewlines(ls) && ls[|ls| - 1] != "" && !EndsInCr(ls[|ls| - 1])
    ensures LinesOf(Joined(ls)) == StripAll(ls)
  {
    var line, later := ls[0], ls[1..];
    assert line in ls;
    StripCons(ls);
    if later == [] {
      LinesCons(line, "");
      assert StripAll([line]) == [line];
      assert ls == [line];
    } else {
      LinesOfJoined(later);
      LinesCons(line, Joined(later));
    }
  }

  // ── Entries that survive ─────────────────────────────────────────────────────

  predicate StartsWithDashes(line: string) {
    |line| >= 3 && line[0] == '-' && line[1] == '-' && line[2] == '-'
  }

  /** The shape every parsed entry has. */
  predicate GoodText(e: Entry) {
    OneLine(e.title) && IsTrimmed(e.body)
  }

  /** The field texts of an entry stand on one line and read back. */
  predicate Readable(f: Format, e: Entry) {
    && OneLine(f.showPriority(e.priority)) && f.parsePriority(f.showPriority(e.priority)) == e.priority
    && OneLine(f.showSchedule(e.schedule)) && f.parseSchedule(f.showSchedule(e.schedule)) == e.schedule
    && OneLine(f.showStatus(e.status)) && f.parseStatus(f.showStatus(e.status)) == e.status
  }

  lemma {:induction false} KeysArePlain()
    ensures PlainKey("priority") && PlainKey("schedule") && PlainKey("human_approved") && PlainKey("status")
    ensures PlainKey("last_run") && PlainKey("not_before")
  {
  }

  lemma {:induction false} FilledSnoc(fields: map<string, string>, ms: seq<(string, string)>, m: (string, string))
    ensures Filled(fields, ms + [m]) == Filled(fields, ms)[m.0 := m.1]
  {
    assert (ms + [m])[..|ms|] == ms;
  }

  /** The fields as read, one by one. */
  function ReadFields(f: Format, e: Entry): map<string, string> {
    var m := map["priority" := f.showPriority(e.priority)];
    var m := m["schedule" := f.showSchedule(e.schedule)];
    var m := if e.approved then m["human_approved" := "true"] else m;
    var m := m["status" := f.showStatus(e.status)];
    var m := if e.lastRun.Some? then m["last_run" := f.showTime(e.lastRun.value)] else m;
    if e.notBefore.Some? then m["not_before" := f.showTime(e.notBefore.value)] else m
  }

  /** The printed metadata is well-formed and sets exactly those fields. */
  lemma {:induction false} MetadataReads(f: Format, e: Entry)
    requires Sound(f) && Readable(f, e)
    ensures GoodMeta(Metadata(f, e)) && Filled(map[], Metadata(f, e)) == ReadFields(f, e)
  {
    KeysArePlain();
    assert OneLine("true");
    TimeIsPlain(f, e.lastRun);
    TimeIsPlain(f, e.notBefore);
    var ms := [("priority", f.showPriority(e.priority)), ("schedule", f.showSchedule(e.schedule))];
    FilledPair(ms);
    ms := FillNext(ms, e.approved, ("human_approved", "true"));
    ms := FillNext(ms, true, ("status", f.showStatus(e.status)));
    ms := FillNext(ms, e.lastRun.Some?, ("last_run", TimeText(f, e.lastRun)));
    ms := FillNext(ms, e.notBefore.Some?, ("not_before", TimeText(f, e.notBefore)));
  }

  lemma {:induction false} FilledPair(ms: seq<(string, string)>)
    requires |ms| == 2
    ensures Filled(map[], ms) == map[ms[0].0 := ms[0].1][ms[1].0 := ms[1].1]
  {
    assert ms[..1][..0] == [] && ms[..1][0] == ms[0];
    assert Filled(map[], ms[..1]) == map[ms[0].0 := ms[0].1];
  }

  lemma {:induction false} TimeIsPlain(f: Format, t: Option<int>)
    requires Sound(f)
    ensures OneLine(TimeText(f, t))
  {
    assert t.Some? ==> ReadsTime(f, t.value);
  }

  lemma {:induction false} FillNext(ms: seq<(string, string)>, present: bool, m: (string, string))
    returns (more: seq<(string, string)>)
    requires GoodMeta(ms) && PlainKey(m.0) && OneLine(m.1)
    ensures more == AddIf(ms, present, m) && GoodMeta(more)
    ensures Filled(map[], more) == if present then Filled(map[], ms)[m.0 := m.1] else Filled(map[], ms)
  {
    more := AddIf(ms, present, m);
    FilledSnoc(map[], ms, m);
  }

  lemma {:induction false} KeysDiffer()
    ensures "priority" != "schedule" && "priority" != "human_approved" && "priority" != "status"
    ensures "priority" != "last_run" && "priority" != "not_before"
    ensures "schedule" != "human_approved" && "schedule" != "status" && "schedule" != "last_run"
    ensures "schedule" != "not_before" && "human_approved" != "status" && "human_approved" != "last_run"
    ensures "human_approved" != "not_before" && "status" != "last_run" && "status" != "not_before"
    ensures "last_run" != "not_before"
  {
    assert "priority"[0] == 'p' && "schedule"[0] == 's' && "schedule"[1] == 'c' && "human_approved"[0] == 'h';
    assert "status"[0] == 's' && "status"[1] == 't' && "last_run"[0] == 'l' && "not_before"[0] == 'n';
  }

  lemma {:induction false} FieldsRead(f: Format, e: Entry, d: Draft)
    requires d.fields == ReadFields(f, e)
    ensures Field(d, "priority") == Some(f.showPriority(e.priority))
    ensures Field(d, "schedule") == Some(f.showSchedule(e.schedule))
    ensures Field(d, "human_approved") == if e.approved then Some("true") else None
    ensures Field(d, "status") == Some(f.showStatus(e.status))
    ensures Field(d, "last_run") == if e.lastRun.Some? then Some(f.showTime(e.lastRun.value)) else None
    ensures Field(d, "not_before") == if e.notBefore.Some? then Some(f.showTime(e.notBefore.value)) else None
  {
    KeysDiffer();
  }

  lemma {:induction false} FinishReads(f: Format, e: Entry, d: Draft)
    requires Sound(f) && Readable(f, e)
    requires d.title == Some(e.title) && d.fields == ReadFields(f, e) && Trim(Joined(d.body)) == e.body
    ensures Finish(f, d) == [e]
  {
    FieldsRead(f, e, d);
    TrueSaysYes();
    var read := Finish(f, d)[0];
    assert e.lastRun.Some? ==> ReadsTime(f, e.lastRun.value);
    assert e.notBefore.Some? ==> ReadsTime(f, e.notBefore.value);
    assert read.approved == e.approved;
    assert read == Entry(e.title, e.priority, e.schedule, e.approved, e.status, e.lastRun, e.notBefore, e.body);
  }

  lemma {:induction false} TrueSaysYes()
    ensures SaysYes("true")
  {
    TrimTrimmed("true");
    assert Lower("true") == "true";
  }

  // ── One section ──────────────────────────────────────────────────────────────

  /** A metadata line without the blank a missing value leaves at its end. */
  function Cut(m: (string, string)): string {
    if m.1 == "" then m.0 + ":" else MetaLine(m)
  }

  /** The lines of an entry before its body. */
  function Titled(f: Format, e: Entry): seq<string> {
    ["## " + e.title] + MetaLines(Metadata(f, e))
  }

  /** The lines of an entry's section once it is trimmed, all but the last and the last. */
  function CoreFront(f: Format, e: Entry): seq<string> {
    var ms := Metadata(f, e);
    if e.body == "" then ["## " + e.title] + MetaLines(ms[..|ms| - 1])
    else
      var lines := Split(e.body, '\n');
      ["## " + e.title] + MetaLines(ms) + [""] + lines[..|lines| - 1]
  }

  function CoreLast(f: Format, e: Entry): string {
    var ms := Metadata(f, e);
    if e.body == "" then Cut(ms[|ms| - 1])
    else
      var lines := Split(e.body, '\n');
      lines[|lines| - 1]
  }

  lemma {:induction false} TakeTitleAndMeta(f: Format, title: string, ms: seq<(string, string)>)
    requires Sound(f) && OneLine(title) && GoodMeta(ms)
    ensures TakeLines(f, BLANK, ["## " + title] + MetaLines(ms)) == Draft(Some(title), Filled(map[], ms), false, [])
  {
    var heading := ["## " + title];
    TakeTitle(f, title);
    TakeSnoc(f, BLANK, [], "## " + title);
    assert [] + heading == heading;
    TakeConcat(f, BLANK, heading, MetaLines(ms));
    TakeMetas(f, BLANK.(title := Some(title)), ms);
  }

  lemma {:induction false} TakeTitled(f: Format, e: Entry)
    requires Sound(f) && Readable(f, e) && GoodText(e)
    ensures TakeLines(f, BLANK, Titled(f, e)) == Draft(Some(e.title), ReadFields(f, e), false, [])
  {
    MetadataReads(f, e);
    TakeTitleAndMeta(f, e.title, Metadata(f, e));
  }

  lemma {:induction false} TakeBareMeta(f: Format, title: string, ms: seq<(string, string)>, n: nat)
    requires Sound(f) && OneLine(title) && GoodMeta(ms) && |ms| == n + 1
    ensures TakeLines(f, BLANK, ["## " + title] + MetaLines(ms[..n]) + [Cut(ms[n])])
         == Draft(Some(title), Filled(map[], ms), false, [])
  {
    var d := Draft(Some(title), Filled(map[], ms[..n]), false, []);
    TakeTitleAndMeta(f, title, ms[..n]);
    TakeSnoc(f, BLANK, ["## " + title] + MetaLines(ms[..n]), Cut(ms[n]));
    TakeMeta(f, d, ms[n], Cut(ms[n]));
  }

  lemma {:induction false} TakeBare(f: Format, e: Entry)
    requires Sound(f) && Readable(f, e) && GoodText(e) && e.body == ""
    ensures TakeLines(f, BLANK, Core(f, e)) == Draft(Some(e.title), ReadFields(f, e), false, [])
  {
    MetadataReads(f, e);
    TakeBareMeta(f, e.title, Metadata(f, e), |Metadata(f, e)| - 1);
  }

  /** All lines of an entry with a body, in both groupings. */
  lemma {:induction false} FullLines(f: Format, e: Entry)
    requires e.body != ""
    ensures Core(f, e) == Titled(f, e) + [""] + Split(e.body, '\n')
    ensures EntryLines(f, e) == Titled(f, e) + [""] + Split(e.body, '\n')
  {
    var titled, lines := Titled(f, e), Split(e.body, '\n');
    var n := |lines| - 1;
    assert lines == lines[..n] + [lines[n]];
    Assoc(titled + [""], lines[..n], [lines[n]]);
    Assoc(titled, [""], lines);
  }

  lemma {:induction false} TakeBlankLine(f: Format, d: Draft)
    requires d.title.Some? && !d.inBody
    ensures TakeLine(f, d, "") == d.(inBody := true)
  {
  }

  lemma {:induction false} TakeWithBody(f: Format, titled: seq<string>, d: Draft, lines: seq<string>)
    requires TakeLines(f, BLANK, titled) == d && d.title.Some? && !d.inBody && d.body == []
    ensures TakeLines(f, BLANK, titled + [""] + lines) == d.(inBody := true, body := Kept(lines))
  {
    TakeBlankLine(f, d);
    TakeSnoc(f, BLANK, titled, "");
    TakeConcat(f, BLANK, titled + [""], lines);
    TakeBody(f, d.(inBody := true), lines);
    assert [] + Kept(lines) == Kept(lines);
  }

  /** A line without newline, of which nothing is stripped, and which starts no separator. */
  predicate PlainLine(line: string) {
    '\n' !in line && !StartsWithDashes(line) && !EndsInCr(line)
  }

  lemma {:induction false} StripPlain(ls: seq<string>)
    requires forall l :: l in ls ==> !EndsInCr(l)
    ensures StripAll(ls) == ls
  {
    forall i | 0 <= i < |ls| ensures StripCr(ls[i]) == ls[i] {
      assert ls[i] in ls;
    }
  }

  lemma {:induction false} FullStripped(f: Format, e: Entry)
    requires Sound(f) && Readable(f, e) && GoodText(e) && e.body != ""
    ensures StripAll(Core(f, e)) == Titled(f, e) + [""] + StripAll(Split(e.body, '\n'))
  {
    FullLines(f, e);
    TitledPlain(f, e);
    StripConcat(Titled(f, e) + [""], Split(e.body, '\n'));
    StripPlain(Titled(f, e) + [""]);
  }

  lemma {:induction false} BareStripped(f: Format, e: Entry)
    requires Sound(f) && Readable(f, e) && GoodText(e) && e.body == ""
    ensures StripAll(Core(f, e)) == Core(f, e)
  {
    var ms := Metadata(f, e);
    var n := |ms| - 1;
    MetadataReads(f, e);
    TitleIsPlain(e.title);
    MetaLinesPlain(ms[..n]);
    MetaIsPlain(ms[n]);
    StripThree("## " + e.title, MetaLines(ms[..n]), Cut(ms[n]));
  }

  lemma {:induction false} StripThree(title: string, ls: seq<string>, last: string)
    requires PlainLine(title) && PlainLine(last) && forall l :: l in ls ==> PlainLine(l)
    ensures StripAll([title] + ls + [last]) == [title] + ls + [last]
  {
    StripPlain([title] + ls + [last]);
  }

  lemma {:induction false} TitledPlain(f: Format, e: Entry)
    requires Sound(f) && Readable(f, e) && GoodText(e)
    ensures forall l :: l in Titled(f, e) ==> PlainLine(l)
  {
    MetadataReads(f, e);
    TitleIsPlain(e.title);
    MetaLinesPlain(Metadata(f, e));
  }

  lemma {:induction false} TakeFull(f: Format, e: Entry)
    requires Sound(f) && Readable(f, e) && GoodText(e) && e.body != ""
    ensures TakeLines(f, BLANK, StripAll(Core(f, e))) ==
              Draft(Some(e.title), ReadFields(f, e), true, Kept(StripAll(Split(e.body, '\n'))))
  {
    var d := Draft(Some(e.title), ReadFields(f, e), false, []);
    FullStripped(f, e);
    TakeTitled(f, e);
    TakeWithBody(f, Titled(f, e), d, StripAll(Split(e.body, '\n')));
  }

  /** The body that reading a printed body gives, if no line of it is a separator. */
  function RereadBody(body: string): string {
    if body == "" then "" else Trim(Joined(Kept(StripAll(Split(body, '\n')))))
  }

  function Reread(e: Entry): Entry {
    e.(body := RereadBody(e.body))
  }

  lemma {:induction false} CoreTaken(f: Format, e: Entry)
    requires Sound(f) && Readable(f, e) && GoodText(e)
    ensures Finish(f, TakeLines(f, BLANK, StripAll(Core(f, e)))) == [Reread(e)]
  {
    var d := TakeLines(f, BLANK, StripAll(Core(f, e)));
    if e.body == "" {
      BareStripped(f, e);
      TakeBare(f, e);
      assert Joined([]) == "";
      TrimTrimmed("");
    } else {
      TakeFull(f, e);
    }
    SameFields(f, e, RereadBody(e.body));
    FinishReads(f, Reread(e), d);
  }

  lemma {:induction false} SameFields(f: Format, e: Entry, body: string)
    ensures ReadFields(f, e.(body := body)) == ReadFields(f, e)
    ensures Readable(f, e.(body := body)) == Readable(f, e)
  {
  }

  lemma {:induction false} MetaIsPlain(m: (string, string))
    requires PlainKey(m.0) && OneLine(m.1)
    ensures PlainLine(MetaLine(m)) && PlainLine(Cut(m))
    ensures var c := Cut(m);
            c != "" && !IsSpace(c[|c| - 1]) && MetaLine(m) == c + (if m.1 == "" then " " else "")
  {
    assert MetaLine(m)[0] == m.0[0] && Cut(m)[0] == m.0[0];
    if m.1 != "" {
      assert MetaLine(m)[|MetaLine(m)| - 1] == m.1[|m.1| - 1];
    }
  }

  lemma {:induction false} TitleIsPlain(title: string)
    requires OneLine(title)
    ensures PlainLine("## " + title)
  {
    var line := "## " + title;
    assert line[0] == '#';
    if title != "" {
      assert line[|line| - 1] == title[|title| - 1];
    }
  }

  lemma {:induction false} BodyIsPlain(e: Entry)
    requires GoodText(e) && e.body != ""
    ensures NoNewlines(Split(e.body, '\n'))
    ensures var lines := Split(e.body, '\n');
            var last := lines[|lines| - 1];
            last != "" && !IsSpace(last[|last| - 1])
  {
    JoinedSplit(e.body);
    var lines := Split(e.body, '\n');
    JoinedEnd(lines);
  }

  lemma {:induction false} JoinedEnd(ls: seq<string>)
    requires ls != [] && Joined(ls) != "" && NoNewlines(ls) && !IsSpace(Joined(ls)[|Joined(ls)| - 1])
    ensures var last := ls[|ls| - 1];
            last != "" && last[|last| - 1] == Joined(ls)[|Joined(ls)| - 1]
  {
    if |ls| > 1 {
      var whole, tail := Joined(ls), Joined(ls[1..]);
      assert whole == ls[0] + "\n" + tail;
      var end := whole[|whole| - 1];
      assert end == if tail == "" then '\n' else tail[|tail| - 1];
      JoinedEnd(ls[1..]);
    }
  }

  lemma {:induction false} JoinedStart(ls: seq<string>)
    requires ls != [] && ls[0] != ""
    ensures Joined(ls) != "" && Joined(ls)[0] == ls[0][0]
  {
  }

  lemma {:induction false} JoinedSnoc(front: seq<string>, last: string)
    requires front != []
    ensures Joined(front + [last]) == Joined(front) + "\n" + last
  {
    JoinedConcat(front, [last]);
  }

  /** Every line of a trimmed section, as a list. */
  function Core(f: Format, e: Entry): seq<string> {
    CoreFront(f, e) + [CoreLast(f, e)]
  }

  lemma {:induction false} MetaLinesPlain(ms: seq<(string, string)>)
    requires GoodMeta(ms)
    ensures forall l :: l in MetaLines(ms) ==> PlainLine(l)
  {
    forall i | 0 <= i < |ms| ensures PlainLine(MetaLines(ms)[i]) {
      MetaIsPlain(ms[i]);
    }
  }

  /** How the printed lines and the trimmed section's lines differ: by a blank at the very end. */
  predicate CoreOf(f: Format, e: Entry, padding: string) {
    CoreShape(EntryLines(f, e), CoreFront(f, e), CoreLast(f, e), padding)
  }

  predicate CoreShape(lines: seq<string>, front: seq<string>, last: string, padding: string) {
    && lines == front + [last + padding] && AllSpace(padding)
    && front != [] && front[0] != "" && !IsSpace(front[0][0])
    && last != "" && !IsSpace(last[|last| - 1])
    && NoNewlines(front) && '\n' !in last
  }

  lemma {:induction false} TitledShape(lines: seq<string>, front: seq<string>, last: string, padding: string,
                                       title: string)
    requires lines == front + [last + padding] && AllSpace(padding)
    requires front != [] && front[0] == "## " + title && last != "" && !IsSpace(last[|last| - 1])
    requires NoNewlines(front) && '\n' !in last
    ensures CoreShape(lines, front, last, padding)
  {
    assert front[0][0] == '#';
  }

  lemma {:induction false} BareLines(f: Format, e: Entry, padding: string)
    requires e.body == ""
    requires var ms := Metadata(f, e);
             MetaLine(ms[|ms| - 1]) == Cut(ms[|ms| - 1]) + padding
    ensures EntryLines(f, e) == CoreFront(f, e) + [CoreLast(f, e) + padding]
  {
    var ms := Metadata(f, e);
    var n, titled := |ms| - 1, ["## " + e.title];
    assert MetaLines(ms) == MetaLines(ms[..n]) + [MetaLine(ms[n])];
    Assoc(titled, MetaLines(ms[..n]), [MetaLine(ms[n])]);
    assert EntryLines(f, e) == titled + MetaLines(ms) + [];
    assert titled + MetaLines(ms) + [] == titled + MetaLines(ms);
  }

  lemma {:induction false} BareNewlines(f: Format, e: Entry)
    requires Sound(f) && Readable(f, e) && GoodText(e) && e.body == ""
    ensures NoNewlines(CoreFront(f, e)) && '\n' !in CoreLast(f, e)
  {
    var ms := Metadata(f, e);
    MetadataReads(f, e);
    MetaLinesPlain(ms[..|ms| - 1]);
    MetaIsPlain(ms[|ms| - 1]);
    TitleIsPlain(e.title);
  }

  lemma {:induction false} BareCore(f: Format, e: Entry) returns (padding: string)
    requires Sound(f) && Readable(f, e) && GoodText(e) && e.body == ""
    ensures CoreOf(f, e, padding)
  {
    var ms := Metadata(f, e);
    var last := ms[|ms| - 1];
    MetadataReads(f, e);
    MetaIsPlain(last);
    padding := if last.1 == "" then " " else "";
    BareMeta(last, padding);
    BareLines(f, e, padding);
    BareNewlines(f, e);
    TitledShape(EntryLines(f, e), CoreFront(f, e), CoreLast(f, e), padding, e.title);
  }

  lemma {:induction false} BareMeta(m: (string, string), padding: string)
    requires padding == if m.1 == "" then " " else ""
    requires MetaLine(m) == Cut(m) + (if m.1 == "" then " " else "")
    ensures MetaLine(m) == Cut(m) + padding && AllSpace(padding)
  {
  }

  lemma {:induction false} FullCore(f: Format, e: Entry)
    requires Sound(f) && Readable(f, e) && GoodText(e) && e.body != ""
    ensures CoreOf(f, e, "")
  {
    FullPieces(f, e, CoreFront(f, e), CoreLast(f, e));
  }

  lemma {:induction false} FullPieces(f: Format, e: Entry, front: seq<string>, last: string)
    requires Sound(f) && Readable(f, e) && GoodText(e) && e.body != ""
    requires front == CoreFront(f, e) && last == CoreLast(f, e)
    ensures CoreShape(EntryLines(f, e), front, last, "")
  {
    FullEnds(f, e);
    FullFront(f, e);
    FullNewlines(f, e);
    TitledShape(EntryLines(f, e), front, last, "", e.title);
  }

  lemma {:induction false} FullEnds(f: Format, e: Entry)
    requires GoodText(e) && e.body != ""
    ensures EntryLines(f, e) == CoreFront(f, e) + [CoreLast(f, e) + ""]
    ensures CoreLast(f, e) != "" && !IsSpace(CoreLast(f, e)[|CoreLast(f, e)| - 1])
  {
    BodyIsPlain(e);
    FullLines(f, e);
    assert CoreLast(f, e) + "" == CoreLast(f, e);
  }

  lemma {:induction false} FullNewlines(f: Format, e: Entry)
    requires Sound(f) && Readable(f, e) && GoodText(e) && e.body != ""
    ensures NoNewlines(CoreFront(f, e)) && '\n' !in CoreLast(f, e)
  {
    TitledPlain(f, e);
    BodyIsPlain(e);
    FullFront(f, e);
  }

  lemma {:induction false} FullFront(f: Format, e: Entry)
    requires e.body != ""
    ensures forall l :: l in CoreFront(f, e) ==> l in Titled(f, e) || l == "" || l in Split(e.body, '\n')
    ensures CoreLast(f, e) in Split(e.body, '\n')
    ensures CoreFront(f, e) != [] && CoreFront(f, e)[0] == "## " + e.title
  {
  }

  lemma {:induction false} LinesAreCore(f: Format, e: Entry) returns (padding: string)
    requires Sound(f) && Readable(f, e) && GoodText(e)
    ensures CoreOf(f, e, padding)
  {
    if e.body == "" {
      padding := BareCore(f, e);
    } else {
      FullCore(f, e);
      padding := "";
    }
  }

  const FILE_HEADING := "# Heartbeat"

  /** The lines before an entry's: the file heading and an empty line, or two empty lines after a separator. */
  function HeadLines(first: bool): seq<string> {
    [if first then FILE_HEADING else "", ""]
  }

  /** The text of an entry's section. */
  function SectionText(f: Format, first: bool, e: Entry): string {
    Terminated(HeadLines(first) + EntryLines(f, e))
  }

  lemma {:induction false} SectionPieces(f: Format, first: bool, e: Entry, padding: string)
    requires CoreOf(f, e, padding)
    ensures SectionText(f, first, e) == Joined(HeadLines(first) + Core(f, e)) + (padding + "\n")
  {
    var front := HeadLines(first) + CoreFront(f, e);
    var last := CoreLast(f, e);
    Assoc(HeadLines(first), CoreFront(f, e), [last + padding]);
    Assoc(HeadLines(first), CoreFront(f, e), [last]);
    TerminatedJoined(front + [last + padding]);
    JoinedSnoc(front, last + padding);
    JoinedSnoc(front, last);
    Assoc(Joined(front) + "\n", last, padding);
    Assoc(Joined(front + [last]), padding, "\n");
  }

  lemma {:induction false} CoreTrimmed(f: Format, e: Entry, padding: string)
    requires CoreOf(f, e, padding)
    ensures var text := Joined(Core(f, e));
            && text != "" && text[0] == CoreFront(f, e)[0][0] && IsTrimmed(text)
            && LinesOf(text) == StripAll(Core(f, e)) && text[|text| - 1] == CoreLast(f, e)[|CoreLast(f, e)| - 1]
  {
    JoinedSnoc(CoreFront(f, e), CoreLast(f, e));
    JoinedStart(CoreFront(f, e));
    LinesOfJoined(Core(f, e));
  }

  lemma {:induction false} HeadJoined(first: bool, core: seq<string>)
    requires core != []
    ensures Joined(HeadLines(first) + core) == HeadLines(first)[0] + "\n" + ("\n" + Joined(core))
  {
    var h := HeadLines(first);
    JoinedConcat(h, core);
    assert Joined(h) == h[0] + "\n" + "";
    Assoc(h[0] + "\n", "\n", Joined(core));
  }

  /** The trimmed text of an entry's section. */
  function CoreText(f: Format, first: bool, e: Entry): string {
    if first then Joined(HeadLines(true) + Core(f, e)) else Joined(Core(f, e))
  }

  lemma {:induction false} TwoNewlines(text: string)
    ensures "" + "\n" + ("\n" + text) == "\n\n" + text
  {
  }

  lemma {:induction false} LaterTrims(f: Format, e: Entry, padding: string, more: string)
    requires CoreOf(f, e, padding) && AllSpace(more)
    ensures Trim(Joined(HeadLines(false) + Core(f, e)) + more) == Joined(Core(f, e))
  {
    var text := Joined(Core(f, e));
    CoreTrimmed(f, e, padding);
    HeadJoined(false, Core(f, e));
    TwoNewlines(text);
    TrimPadded("\n\n", text, more);
  }

  lemma {:induction false} FirstTrims(f: Format, e: Entry, padding: string, more: string)
    requires CoreOf(f, e, padding) && AllSpace(more)
    ensures Trim(Joined(HeadLines(true) + Core(f, e)) + more) == Joined(HeadLines(true) + Core(f, e))
  {
    var whole := Joined(HeadLines(true) + Core(f, e));
    FirstIsTrimmed(f, e, padding);
    TrimPadded("", whole, more);
    assert "" + whole == whole;
  }

  lemma {:induction false} FirstIsTrimmed(f: Format, e: Entry, padding: string)
    requires CoreOf(f, e, padding)
    ensures IsTrimmed(Joined(HeadLines(true) + Core(f, e)))
  {
    var whole, text := Joined(HeadLines(true) + Core(f, e)), Joined(Core(f, e));
    CoreTrimmed(f, e, padding);
    HeadJoined(true, Core(f, e));
    assert whole[0] == '#' && whole[|whole| - 1] == text[|text| - 1];
  }

  /** Whatever white space follows, the section trims to its lines. */
  lemma {:induction false} SectionTrims(f: Format, first: bool, e: Entry, padding: string, more: string)
    requires CoreOf(f, e, padding) && AllSpace(more)
    ensures Trim(Joined(HeadLines(first) + Core(f, e)) + more) == CoreText(f, first, e)
  {
    if first {
      FirstTrims(f, e, padding, more);
    } else {
      LaterTrims(f, e, padding, more);
    }
  }

  lemma {:induction false} FirstLines(f: Format, e: Entry, padding: string)
    requires CoreOf(f, e, padding)
    ensures LinesOf(Joined(HeadLines(true) + Core(f, e))) == HeadLines(true) + StripAll(Core(f, e))
    ensures Joined(HeadLines(true) + Core(f, e)) != ""
  {
    CoreTrimmed(f, e, padding);
    HeadJoined(true, Core(f, e));
    HeadingIsLine();
    TwoLines(HeadLines(true)[0], Joined(Core(f, e)));
  }

  lemma {:induction false} HeadingIsLine()
    ensures FILE_HEADING != "" && '\n' !in FILE_HEADING && !EndsInCr(FILE_HEADING)
    ensures OneLine(FILE_HEADING) && IsFileHeading(FILE_HEADING)
  {
  }

  lemma {:induction false} EmptyLine(rest: string)
    ensures LinesOf("\n" + rest) == [""] + LinesOf(rest)
  {
    LinesCons("", rest);
    assert "" + "\n" + rest == "\n" + rest;
  }

  lemma {:induction false} TwoLines(heading: string, rest: string)
    requires '\n' !in heading && !EndsInCr(heading)
    ensures LinesOf(heading + "\n" + ("\n" + rest)) == [heading, ""] + LinesOf(rest)
  {
    var later := "\n" + rest;
    EmptyLine(rest);
    LinesCons(heading, later);
    assert [heading] + [""] == [heading, ""];
    Assoc([heading], [""], LinesOf(rest));
  }

  lemma {:induction false} HeadLinesSkipped(f: Format)
    ensures TakeLines(f, BLANK, HeadLines(true)) == BLANK
  {
    var h := [FILE_HEADING];
    TakeSnoc(f, BLANK, [], FILE_HEADING);
    assert [] + h == h;
    TakeSnoc(f, BLANK, h, "");
    assert h + [""] == HeadLines(true);
  }

  /** Text that trims to an entry's section parses to that entry, as it is reread. */
  lemma {:induction false} CoreTextReads(f: Format, first: bool, e: Entry, padding: string, section: string)
    requires Sound(f) && Readable(f, e) && GoodText(e) && CoreOf(f, e, padding)
    requires Trim(section) == CoreText(f, first, e)
    ensures ParseSection(f, section) == [Reread(e)]
  {
    CoreTrimmed(f, e, padding);
    CoreTaken(f, e);
    if first {
      FirstLines(f, e, padding);
      HeadLinesSkipped(f);
      TakeConcat(f, BLANK, HeadLines(true), StripAll(Core(f, e)));
    }
  }

  /** The section of a printed entry parses to that entry, as it is reread. */
  lemma {:induction false} SectionReads(f: Format, first: bool, e: Entry)
    requires Sound(f) && Readable(f, e) && GoodText(e)
    ensures ParseSection(f, SectionText(f, first, e)) == [Reread(e)]
  {
    var padding := LinesAreCore(f, e);
    SectionPieces(f, first, e, padding);
    SectionTrims(f, first, e, padding, padding + "\n");
    CoreTextReads(f, first, e, padding, SectionText(f, first, e));
  }

  // ── Section breaks ───────────────────────────────────────────────────────────

  /** No line is a separator. */
  predicate NoDashes(ls: seq<string>) {
    forall l :: l in ls ==> !StartsWithDashes(l)
  }

  lemma {:induction false} NoBreakIn(ls: seq<string>, tail: string, k: nat)
    requires NoNewlines(ls) && NoDashes(ls) && k + 1 < |Terminated(ls)|
    ensures !IsBreak(Terminated(ls) + tail, k)
  {
    var l, rest := ls[0], Terminated(ls[1..]) + tail;
    assert l in ls;
    assert Terminated(ls) + tail == l + "\n" + rest;
    if k == |l| {
      NextLinePlain(ls[1..], tail);
    } else if k > |l| {
      NoBreakIn(ls[1..], tail, k - |l| - 1);
    }
  }

  lemma {:induction false} NextLinePlain(ls: seq<string>, tail: string)
    requires ls != [] && NoNewlines(ls) && NoDashes(ls)
    ensures !StartsWithDashes(Terminated(ls) + tail)
  {
    assert ls[0] in ls;
    assert Terminated(ls) + tail == ls[0] + "\n" + (Terminated(ls[1..]) + tail);
  }

  lemma {:induction false} FirstBreakIs(s: string, n: nat)
    requires n <= |s| && (n < |s| ==> IsBreak(s, n)) && forall k :: 0 <= k < n ==> !IsBreak(s, k)
    ensures FirstBreak(s, 0) == n
  {
    var m := FirstBreak(s, 0);
    assert m < |s| ==> m >= n;
  }

  /** The first line that is a separator ends a section. */
  lemma {:induction false} SectionEnds(ls: seq<string>, rest: string)
    requires ls != [] && NoNewlines(ls) && NoDashes(ls)
    ensures Sections(Terminated(ls) + ("---" + rest)) == [Joined(ls)] + Sections(rest)
  {
    var text, whole := Joined(ls), Terminated(ls) + ("---" + rest);
    TerminatedJoined(ls);
    forall k | 0 <= k < |text| ensures !IsBreak(whole, k) {
      NoBreakIn(ls, "---" + rest, k);
    }
    assert IsBreak(whole, |text|);
    FirstBreakIs(whole, |text|);
    assert whole[..|text|] == text && whole[|text| + 4..] == rest;
  }

  lemma {:induction false} JoinedBlank(ls: seq<string>)
    requires ls != []
    ensures Joined(ls + [""]) == Terminated(ls) && Terminated(ls + [""]) == Terminated(ls) + "\n"
  {
    JoinedSnoc(ls, "");
    TerminatedJoined(ls);
    TerminatedSnoc(ls, "");
    assert Joined(ls) + "\n" + "" == Joined(ls) + "\n";
    assert "" + "\n" == "\n";
  }

  lemma {:induction false} BodyDashes(f: Format, e: Entry)
    requires Sound(f) && Readable(f, e) && GoodText(e)
    ensures NoNewlines(EntryLines(f, e))
    ensures NoDashes(Split(e.body, '\n')) ==> NoDashes(EntryLines(f, e))
  {
    TitledPlain(f, e);
    JoinedSplit(e.body);
    assert EntryLines(f, e) == Titled(f, e) + BodyLines(e.body);
  }

  lemma {:induction false} BreakText(text: string, rest: string)
    ensures text + "\n---" + rest == (text + "\n") + ("---" + rest)
  {
    assert "\n---" == "\n" + "---";
    Assoc(text, "\n", "---");
    Assoc(text + "\n", "---", rest);
  }

  /** A printed section without separator lines is split off at its separator. */
  lemma {:induction false} SectionSplits(f: Format, first: bool, e: Entry, rest: string)
    requires Sound(f) && Readable(f, e) && GoodText(e) && NoDashes(Split(e.body, '\n'))
    ensures Sections(SectionText(f, first, e) + "\n---" + rest) == [SectionText(f, first, e)] + Sections(rest)
  {
    var ls := HeadLines(first) + EntryLines(f, e);
    BodyDashes(f, e);
    SectionEnds(ls + [""], rest);
    JoinedBlank(ls);
    BreakText(Terminated(ls), rest);
  }

  // ── The round trip ───────────────────────────────────────────────────────────

  lemma {:induction false} OneLineText(f: Format, line: string)
    requires OneLine(line)
    ensures Sections(line + "\n") == [line + "\n"] && Trim(line + "\n") == line
  {
    FirstBreakIs(line + "\n", |line| + 1);
    TrimPadded("", line, "\n");
    assert "" + line + "\n" == line + "\n";
  }

  /** A line that looks like the file's heading, or no line, makes no entry. */
  lemma {:induction false} NoEntry(f: Format, line: string)
    requires OneLine(line) && (line == "" || IsFileHeading(line))
    ensures ParseSection(f, line + "\n") == []
  {
    OneLineText(f, line);
    if line != "" {
      LinesCons(line, "");
      TakeSnoc(f, BLANK, [], line);
      assert [] + [line] == [line];
    }
  }

  /** What ends a file, the bare heading or what follows the last separator, holds no entry. */
  lemma {:induction false} EmptyTail(f: Format, first: bool)
    ensures ParseSections(f, Sections(HeadLines(first)[0] + "\n")) == []
  {
    var line := HeadLines(first)[0];
    HeadingIsLine();
    OneLineText(f, line);
    NoEntry(f, line);
    SectionsCons(f, line + "\n", []);
    assert [line + "\n"] + [] == [line + "\n"];
  }

  function RereadAll(es: seq<Entry>): seq<Entry> {
    seq(|es|, i requires 0 <= i < |es| => Reread(es[i]))
  }

  lemma {:induction false} RereadCons(es: seq<Entry>)
    requires es != []
    ensures RereadAll(es) == [Reread(es[0])] + RereadAll(es[1..])
  {
  }

  lemma {:induction false} PrintedSplits(f: Format, first: bool, es: seq<Entry>)
    requires es != [] && Sound(f) && Readable(f, es[0]) && GoodText(es[0]) && NoDashes(Split(es[0].body, '\n'))
    ensures Sections(Printed(f, HeadLines(first)[0] + "\n", es)) ==
              [SectionText(f, first, es[0])] + Sections(Printed(f, HeadLines(false)[0] + "\n", es[1..]))
  {
    var rest := Printed(f, "\n", es[1..]);
    HeadText(f, first, es[0]);
    SectionSplits(f, first, es[0], rest);
    assert HeadLines(false)[0] + "\n" == "\n";
  }

  lemma {:induction false} PrintedReads(f: Format, first: bool, es: seq<Entry>)
    requires Sound(f) && forall e :: e in es ==> Readable(f, e) && GoodText(e) && NoDashes(Split(e.body, '\n'))
    ensures ParseSections(f, Sections(Printed(f, HeadLines(first)[0] + "\n", es))) == RereadAll(es)
    decreases |es|
  {
    if es == [] {
      EmptyTail(f, first);
    } else {
      PrintedSplits(f, first, es);
      PrintedReads(f, false, es[1..]);
      SectionReads(f, first, es[0]);
      SectionsCons(f, SectionText(f, first, es[0]), Sections(Printed(f, HeadLines(false)[0] + "\n", es[1..])));
      RereadCons(es);
    }
  }

  lemma {:induction false} HeadText(f: Format, first: bool, e: Entry)
    ensures SectionText(f, first, e) == HeadLines(first)[0] + "\n" + "\n" + Terminated(EntryLines(f, e))
  {
    var h := HeadLines(first);
    TerminatedConcat(h, EntryLines(f, e));
    TerminatedJoined(h);
    assert Joined(h) == h[0] + "\n" + "";
  }

  // ── What is lost ─────────────────────────────────────────────────────────────

  /** A body line that is read back: no heading of the file, no separator, no carriage return before its newline. */
  predicate CleanLine(line: string) {
    !IsFileHeading(line) && !StartsWithDashes(line) && !EndsInCr(line)
  }

  predicate Clean(e: Entry) {
    forall l :: l in Split(e.body, '\n') ==> CleanLine(l)
  }

  lemma {:induction false} KeptShrinks(lines: seq<string>)
    ensures |Terminated(Kept(lines))| <= |Terminated(lines)|
    ensures if forall l :: l in lines ==> !IsFileHeading(l) then Kept(lines) == lines
            else |Terminated(Kept(lines))| < |Terminated(lines)|
  {
    if lines != [] {
      var front, last := lines[..|lines| - 1], lines[|lines| - 1];
      KeptShrinks(front);
      assert lines == front + [last];
      TerminatedSnoc(front, last);
      TerminatedSnoc(Kept(front), last);
    }
  }

  lemma {:induction false} StripShrinks(lines: seq<string>)
    ensures |Terminated(StripAll(lines))| <= |Terminated(lines)|
    ensures if forall l :: l in lines ==> !EndsInCr(l) then StripAll(lines) == lines
            else |Terminated(StripAll(lines))| < |Terminated(lines)|
  {
    if lines != [] {
      var front, last := lines[..|lines| - 1], lines[|lines| - 1];
      StripShrinks(front);
      assert lines == front + [last];
      StripConcat(front, [last]);
      assert StripAll([last]) == [StripCr(last)];
      TerminatedSnoc(front, last);
      TerminatedSnoc(StripAll(front), StripCr(last));
    }
  }

  lemma {:induction false} ShorterJoin(a: seq<string>, b: seq<string>)
    requires |Terminated(a)| <= |Terminated(b)| && b != []
    ensures |Joined(a)| <= |Joined(b)|
    ensures |Terminated(a)| < |Terminated(b)| && Joined(b) != "" ==> |Joined(a)| < |Joined(b)|
  {
    TerminatedJoined(b);
    if a != [] {
      TerminatedJoined(a);
    }
  }

  /** Rereading a body never lengthens it, and shortens it exactly when a line is lost or stripped. */
  lemma {:induction false} RereadShrinks(body: string)
    requires IsTrimmed(body)
    ensures |RereadBody(body)| < |body| || RereadBody(body) == body
    ensures RereadBody(body) == body <==>
              forall l :: l in Split(body, '\n') ==> !IsFileHeading(l) && !EndsInCr(l)
  {
    var lines := Split(body, '\n');
    var stripped := StripAll(lines);
    StripShrinks(lines);
    KeptShrinks(stripped);
    JoinedSplit(body);
    ShorterJoin(Kept(stripped), lines);
    TrimShrinks(Joined(Kept(stripped)));
    TrimTrimmed(body);
    if body == "" {
      assert lines == [""];
    }
  }

  /** An entry whose body has no separator line is read back exactly when its body is clean. */
  lemma {:induction false} RereadExactly(e: Entry)
    requires GoodText(e) && NoDashes(Split(e.body, '\n'))
    ensures Reread(e) == e <==> Clean(e)
  {
    RereadShrinks(e.body);
  }

  /** The position of the first separator line. */
  function FirstDashes(lines: seq<string>): (k: nat)
    ensures k <= |lines| && NoDashes(lines[..k])
    ensures k < |lines| ==> StartsWithDashes(lines[k])
    ensures k == |lines| <==> NoDashes(lines)
  {
    if lines == [] || StartsWithDashes(lines[0]) then 0
    else
      var k := 1 + FirstDashes(lines[1..]);
      assert lines == [lines[0]] + lines[1..] && lines[..k] == [lines[0]] + lines[1..][..k - 1];
      k
  }

  /** What stands before the first separator line of a body, trimmed. */
  function BeforeDashes(body: string): string {
    var lines := Split(body, '\n');
    TrimEnd(Joined(lines[..FirstDashes(lines)]))
  }

  lemma {:induction false} PrefixJoined(lines: seq<string>, k: nat)
    requires 0 < k < |lines|
    ensures Joined(lines) == Joined(lines[..k]) + "\n" + Joined(lines[k..])
  {
    assert lines == lines[..k] + lines[k..];
    JoinedConcat(lines[..k], lines[k..]);
  }

  /** The text before a newline in a trimmed text starts visibly, and still does when its end is trimmed. */
  lemma {:induction false} TextBefore(body: string, text: string, rest: string)
    requires IsTrimmed(body) && body == text + "\n" + rest
    ensures TrimEnd(text) != "" && IsTrimmed(TrimEnd(text)) && |TrimEnd(text)| < |body|
  {
    assert body[0] == if text == "" then '\n' else text[0];
    VisibleEnd(text);
    TrimEndSuffix(text);
  }

  /** A body cut off at a separator line is trimmed and shorter. */
  lemma {:induction false} CutBody(body: string) returns (padding: string)
    requires IsTrimmed(body) && !NoDashes(Split(body, '\n'))
    ensures var lines := Split(body, '\n');
            var k := FirstDashes(lines);
            && k < |lines| && Joined(lines[..k]) == BeforeDashes(body) + padding && AllSpace(padding)
            && (k == 0 ==> BeforeDashes(body) == "") && (k > 0 ==> BeforeDashes(body) != "")
    ensures IsTrimmed(BeforeDashes(body)) && |BeforeDashes(body)| < |body|
  {
    var lines := Split(body, '\n');
    JoinedSplit(body);
    padding := CutAt(body, lines, FirstDashes(lines));
  }

  lemma {:induction false} CutAt(body: string, lines: seq<string>, k: nat) returns (padding: string)
    requires IsTrimmed(body) && Joined(lines) == body && k < |lines| && StartsWithDashes(lines[k])
    ensures Joined(lines[..k]) == TrimEnd(Joined(lines[..k])) + padding && AllSpace(padding)
    ensures k == 0 <==> TrimEnd(Joined(lines[..k])) == ""
    ensures IsTrimmed(TrimEnd(Joined(lines[..k]))) && |TrimEnd(Joined(lines[..k]))| < |body|
  {
    padding := TrimEndPadding(Joined(lines[..k]));
    if k == 0 {
      DashesVisible(lines, k);
    } else {
      PrefixJoined(lines, k);
      TextBefore(body, Joined(lines[..k]), Joined(lines[k..]));
    }
  }

  lemma {:induction false} DashesVisible(lines: seq<string>, k: nat)
    requires k < |lines| && StartsWithDashes(lines[k])
    ensures Joined(lines[k..]) != "" && (k == 0 ==> Joined(lines) != "")
  {
    assert lines[k..][0] == lines[k];
    JoinedStart(lines[k..]);
    assert lines[0..] == lines;
  }

  /** Text that starts visibly keeps its first character when its end is trimmed. */
  lemma {:induction false} VisibleEnd(text: string)
    requires text == "" || !IsSpace(text[0])
    ensures text != "" ==> TrimEnd(text) != "" && TrimEnd(text)[0] == text[0]
  {
    var padding := TrimEndPadding(text);
    TrimEndSuffix(text);
    if text != "" {
      assert TrimEnd(text) != "" || text == padding;
    }
  }

  // ── A body with a separator line ─────────────────────────────────────────────

  /** The lines of an entry's section up to its first separator line. */
  function CutLines(f: Format, first: bool, e: Entry): seq<string> {
    var lines := Split(e.body, '\n');
    HeadLines(first) + Titled(f, e) + [""] + lines[..FirstDashes(lines)]
  }

  lemma {:induction false} SameTitled(f: Format, e: Entry, body: string)
    ensures Titled(f, e.(body := body)) == Titled(f, e)
  {
  }

  lemma {:induction false} CutLinesPlain(f: Format, first: bool, e: Entry)
    requires Sound(f) && Readable(f, e) && GoodText(e)
    ensures NoNewlines(CutLines(f, first, e)) && NoDashes(CutLines(f, first, e))
  {
    TitledPlain(f, e);
    JoinedSplit(e.body);
  }

  lemma {:induction false} CutLinesSplit(f: Format, first: bool, e: Entry)
    requires !NoDashes(Split(e.body, '\n'))
    ensures var lines := Split(e.body, '\n');
            HeadLines(first) + EntryLines(f, e) == CutLines(f, first, e) + lines[FirstDashes(lines)..]
  {
    var lines := Split(e.body, '\n');
    var k := FirstDashes(lines);
    var head, titled := HeadLines(first), Titled(f, e);
    SplitEmpty();
    FullLines(f, e);
    SplitInFour(head, titled, [""], lines, k);
  }

  lemma {:induction false} SplitEmpty()
    ensures Split("", '\n') == [""] && NoDashes(Split("", '\n'))
  {
    assert Split("", '\n') == [""];
  }

  lemma {:induction false} SplitInFour<T>(a: seq<T>, b: seq<T>, c: seq<T>, d: seq<T>, k: nat)
    requires k <= |d|
    ensures a + (b + c + d) == (a + b + c + d[..k]) + d[k..]
  {
    Assoc(a, b + c, d);
    Assoc(a, b, c);
    assert d == d[..k] + d[k..];
    Assoc(a + b + c, d[..k], d[k..]);
  }

  lemma {:induction false} DashText(cut: string, tail: string, rest: string) returns (more: string)
    requires StartsWithDashes(tail)
    ensures cut + tail + "\n---" + rest == cut + ("---" + more) && "---" + more == tail + "\n---" + rest
  {
    var dashes, end := "---", "\n---";
    more := tail[3..] + end + rest;
    assert tail == dashes + tail[3..];
    Assoc(cut, tail, end);
    Assoc(cut, tail + end, rest);
    Assoc(dashes, tail[3..], end);
    Assoc(dashes, tail[3..] + end, rest);
  }

  /** The printed entry, taken apart at its first separator line. */
  lemma {:induction false} CutText(f: Format, first: bool, e: Entry, rest: string) returns (more: string)
    requires !NoDashes(Split(e.body, '\n'))
    ensures SectionText(f, first, e) + "\n---" + rest == Terminated(CutLines(f, first, e)) + ("---" + more)
    ensures var lines := Split(e.body, '\n');
            "---" + more == Terminated(lines[FirstDashes(lines)..]) + "\n---" + rest
  {
    var lines := Split(e.body, '\n');
    var cut, tail := CutLines(f, first, e), lines[FirstDashes(lines)..];
    CutLinesSplit(f, first, e);
    TerminatedConcat(cut, tail);
    TailDashes(tail);
    more := DashText(Terminated(cut), Terminated(tail), rest);
  }

  lemma {:induction false} TailDashes(tail: seq<string>)
    requires tail != [] && StartsWithDashes(tail[0])
    ensures StartsWithDashes(Terminated(tail))
  {
    assert Terminated(tail) == tail[0] + "\n" + Terminated(tail[1..]);
  }

  /** The entry as it is when its body is cut off before the first separator line. */
  function CutEntry(e: Entry): Entry {
    e.(body := BeforeDashes(e.body))
  }

  lemma {:induction false} CutAtOnce(f: Format, first: bool, e: Entry)
    requires !NoDashes(Split(e.body, '\n')) && FirstDashes(Split(e.body, '\n')) == 0 && BeforeDashes(e.body) == ""
    ensures Joined(CutLines(f, first, e)) == SectionText(f, first, CutEntry(e))
  {
    var before := HeadLines(first) + Titled(f, e);
    SameTitled(f, e, "");
    assert CutLines(f, first, e) == before + [""] + [] == before + [""];
    JoinedBlank(before);
    assert EntryLines(f, CutEntry(e)) == Titled(f, e) + [] == Titled(f, e);
  }

  lemma {:induction false} CutLater(f: Format, first: bool, e: Entry, padding: string)
    requires var lines := Split(e.body, '\n');
             var k := FirstDashes(lines);
             0 < k < |lines| && Joined(lines[..k]) == BeforeDashes(e.body) + padding && BeforeDashes(e.body) != ""
    ensures Joined(CutLines(f, first, e)) == Joined(HeadLines(first) + Core(f, CutEntry(e))) + padding
  {
    var lines, body := Split(e.body, '\n'), BeforeDashes(e.body);
    var before := HeadLines(first) + Titled(f, e) + [""];
    SameTitled(f, e, body);
    JoinedConcat(before, lines[..FirstDashes(lines)]);
    FullLines(f, CutEntry(e));
    Assoc(HeadLines(first), Titled(f, e) + [""], Split(body, '\n'));
    Assoc(HeadLines(first), Titled(f, e), [""]);
    JoinedConcat(before, Split(body, '\n'));
    JoinedSplit(body);
    Assoc(Joined(before) + "\n", body, padding);
  }

  /** The section that a separator line cuts off parses to the entry with its body cut off there. */
  lemma {:induction false} CutReads(f: Format, first: bool, e: Entry)
    requires Sound(f) && Readable(f, e) && GoodText(e) && !NoDashes(Split(e.body, '\n'))
    ensures ParseSection(f, Joined(CutLines(f, first, e))) == [Reread(CutEntry(e))]
  {
    var padding := CutBody(e.body);
    SameFields(f, e, BeforeDashes(e.body));
    if FirstDashes(Split(e.body, '\n')) == 0 {
      CutAtOnce(f, first, e);
      SectionReads(f, first, CutEntry(e));
    } else {
      CutLater(f, first, e, padding);
      var blank := LinesAreCore(f, CutEntry(e));
      SectionTrims(f, first, CutEntry(e), blank, padding);
      CoreTextReads(f, first, CutEntry(e), blank, Joined(CutLines(f, first, e)));
    }
  }

  /** A printed entry with a separator line is read as the entry cut off there, and then as whatever follows. */
  lemma {:induction false} CutParses(f: Format, first: bool, e: Entry, rest: string) returns (more: string)
    requires Sound(f) && Readable(f, e) && GoodText(e) && !NoDashes(Split(e.body, '\n'))
    ensures ParseSections(f, Sections(SectionText(f, first, e) + "\n---" + rest))
         == [Reread(CutEntry(e))] + ParseSections(f, Sections(more))
    ensures var lines := Split(e.body, '\n');
            "---" + more == Terminated(lines[FirstDashes(lines)..]) + "\n---" + rest
  {
    more := CutText(f, first, e, rest);
    var cut := CutLines(f, first, e);
    CutLinesPlain(f, first, e);
    SectionEnds(cut, more);
    CutReads(f, first, e);
    SectionsCons(f, Joined(cut), Sections(more));
  }

  /** Whatever follows it, a printed entry with a separator line is read back with a shorter body. */
  lemma {:induction false} CutIsLost(f: Format, first: bool, e: Entry, rest: string)
    returns (x: Entry, later: seq<Entry>)
    requires Sound(f) && Readable(f, e) && GoodText(e) && !NoDashes(Split(e.body, '\n'))
    ensures ParseSections(f, Sections(SectionText(f, first, e) + "\n---" + rest)) == [x] + later
    ensures |x.body| < |e.body| && x == e.(body := x.body)
  {
    var more := CutParses(f, first, e, rest);
    x, later := Reread(CutEntry(e)), ParseSections(f, Sections(more));
    var padding := CutBody(e.body);
    RereadShrinks(BeforeDashes(e.body));
  }

  // ── The file ─────────────────────────────────────────────────────────────────

  predicate AllClean(es: seq<Entry>) {
    forall e :: e in es ==> Clean(e)
  }

  lemma {:induction false} CleanCons(es: seq<Entry>)
    requires es != []
    ensures AllClean(es) <==> Clean(es[0]) && AllClean(es[1..])
  {
    assert es == [es[0]] + es[1..];
  }

  lemma {:induction false} HeadDiffers<T>(x: T, later: seq<T>, es: seq<T>)
    requires es != []
    ensures [x] + later == es <==> x == es[0] && later == es[1..]
  {
    assert es == [es[0]] + es[1..];
    if [x] + later == es {
      assert ([x] + later)[0] == x && ([x] + later)[1..] == later;
    }
  }

  lemma {:induction false} PrintedExactly(f: Format, first: bool, es: seq<Entry>)
    requires Sound(f) && forall e :: e in es ==> Readable(f, e) && GoodText(e)
    ensures ParseSections(f, Sections(Printed(f, HeadLines(first)[0] + "\n", es))) == es <==> AllClean(es)
    decreases |es|
  {
    if es == [] {
      EmptyTail(f, first);
    } else {
      CleanCons(es);
      if NoDashes(Split(es[0].body, '\n')) {
        var later := Sections(Printed(f, HeadLines(false)[0] + "\n", es[1..]));
        PrintedSplits(f, first, es);
        SectionReads(f, first, es[0]);
        SectionsCons(f, SectionText(f, first, es[0]), later);
        PrintedExactly(f, false, es[1..]);
        RereadExactly(es[0]);
        HeadDiffers(Reread(es[0]), ParseSections(f, later), es);
      } else {
        HeadText(f, first, es[0]);
        var x, later := CutIsLost(f, first, es[0], Printed(f, "\n", es[1..]));
        HeadDiffers(x, later, es);
      }
    }
  }

  /** An entry in the form the parser gives it: trimmed texts, and no other spelling of a named value. */
  predicate Carried(e: Entry) {
    GoodText(e) && GoodPriority(e.priority) && GoodSchedule(e.schedule) && GoodStatus(e.status)
  }

  lemma {:induction false} CarriedIsReadable(showTime: int -> string, parseTime: string -> Option<int>,
                                             alnum: char -> bool, e: Entry)
    requires Carried(e)
    ensures Readable(FileFormat(showTime, parseTime, alnum), e)
  {
    PriorityRoundTrip(e.priority);
    ScheduleRoundTrip(e.schedule);
    StatusRoundTrip(e.status);
  }

  /**
   Parsing a printed file gives back the same entries exactly when no body has
   a line that starts with `# ` or `---` or ends in a carriage return. Without
   separator lines, headings and carriage returns are all that is lost.
   */
  lemma {:induction false} FileRoundTrip(showTime: int -> string, parseTime: string -> Option<int>,
                                         alnum: char -> bool, es: seq<Entry>)
    requires Sound(FileFormat(showTime, parseTime, alnum)) && forall e :: e in es ==> Carried(e)
    ensures var f := FileFormat(showTime, parseTime, alnum);
            && (Parse(f, Serialize(f, es)) == es <==> AllClean(es))
            && ((forall e :: e in es ==> NoDashes(Split(e.body, '\n'))) ==> Parse(f, Serialize(f, es)) == RereadAll(es))
  {
    var f := FileFormat(showTime, parseTime, alnum);
    forall e | e in es ensures Readable(f, e) && GoodText(e) {
      CarriedIsReadable(showTime, parseTime, alnum, e);
    }
    assert HeadLines(true)[0] + "\n" == "# Heartbeat\n";
    PrintedExactly(f, true, es);
    if forall e :: e in es ==> NoDashes(Split(e.body, '\n')) {
      PrintedReads(f, true, es);
    }
  }
}
