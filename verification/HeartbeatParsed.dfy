/**
 What the heartbeat parser can return: every parsed entry has the shape that
 the round trip asks for, and some parsed entries do not survive it.
 */
module HeartbeatParsed {
  import opened Prelude
  import opened Text
  import opened Heartbeat
  import opened HeartbeatText
  import opened HeartbeatRoundTrip

  // ── Parsed texts ─────────────────────────────────────────────────────────────

  lemma {:induction false} EndKeepsOut(s: string, c: char)
    requires c !in s
    ensures c !in TrimEnd(s)
  {
    TrimEndSuffix(s);
  }

  lemma {:induction false} StartKeepsOut(s: string, c: char)
    requires c !in s
    ensures c !in TrimStart(s)
  {
    if s != "" && IsSpace(s[0]) {
      StartKeepsOut(s[1..], c);
    }
  }

  /** A trimmed piece of one line stands on one line. */
  lemma {:induction false} TrimmedLine(s: string)
    requires '\n' !in s
    ensures OneLine(Trim(s))
  {
    StartKeepsOut(s, '\n');
    EndKeepsOut(TrimStart(s), '\n');
    TrimIsTrimmed(s);
  }

  lemma {:induction false} LowerLine(s: string)
    requires OneLine(s)
    ensures OneLine(Lower(s)) && Lower(Lower(s)) == Lower(s)
  {
    var low := Lower(s);
    forall i | 0 <= i < |s|
      ensures LowerChar(low[i]) == low[i] && (IsSpace(low[i]) <==> IsSpace(s[i])) && low[i] != '\n' {
      assert s[i] in s;
    }
  }

  lemma {:induction false} LinesAreLines(s: string)
    ensures NoNewlines(LinesOf(s))
    decreases |s|
  {
    var i := Find(s, '\n');
    if i < |s| {
      LinesAreLines(s[i + 1..]);
      assert '\n' !in StripCr(s[..i]);
    }
  }

  lemma {:induction false} ParsedPriority(v: string)
    requires OneLine(v)
    ensures GoodPriority(ParsePriority(v))
  {
    TrimTrimmed(v);
    LowerLine(v);
  }

  lemma {:induction false} ParsedStatus(v: string)
    requires OneLine(v)
    ensures GoodStatus(ParseStatus(v))
  {
    TrimTrimmed(v);
    LowerLine(v);
  }

  lemma {:induction false} ParsedCronText(raw: string)
    requires OneLine(raw) && CronText(raw).Some?
    ensures OneLine(CronText(raw).value)
  {
    TrimmedLine(raw[5..]);
  }

  lemma {:induction false} UnnamedSchedule(name: string)
    requires ScheduleNamed(name) == None
    ensures name !in {"once", "minutely", "minute", "every_minute", "hourly", "daily", "weekly"}
  {
  }

  lemma {:induction false} NamedIsPlain(name: string)
    ensures var s := ScheduleNamed(name);
            s.Some? ==> !s.value.CronSchedule? && !s.value.OtherSchedule?
  {
  }

  lemma {:induction false} ParsedSchedule(v: string)
    requires OneLine(v)
    ensures GoodSchedule(ParseSchedule(v))
  {
    TrimTrimmed(v);
    NamedIsPlain(Lower(v));
    if v == "" {
      assert Lower("") == "";
    } else if ScheduleNamed(Lower(v)) == None {
      UnnamedSchedule(Lower(v));
      if CronText(v).Some? {
        ParsedCronText(v);
      }
    }
  }

  // ── Parsed sections ──────────────────────────────────────────────────────────

  /** Everything read so far stands on one line. */
  predicate Tidy(d: Draft) {
    (d.title.Some? ==> OneLine(d.title.value)) && forall key :: key in d.fields ==> OneLine(d.fields[key])
  }

  lemma {:induction false} ValueIsLine(f: Format, line: string)
    requires '\n' !in line && KeyValue(f, line).Some?
    ensures OneLine(KeyValue(f, line).value.1)
  {
    TrimmedLine(SplitOnce(line, ':').value.1);
  }

  lemma {:induction false} TakeKeepsTidy(f: Format, d: Draft, line: string)
    requires Tidy(d) && '\n' !in line
    ensures Tidy(TakeLine(f, d, line))
  {
    if IsHeading(line) {
      TrimmedLine(line[3..]);
    }
    if KeyValue(f, line).Some? {
      ValueIsLine(f, line);
    }
  }

  lemma {:induction false} LinesKeepTidy(f: Format, lines: seq<string>)
    requires NoNewlines(lines)
    ensures Tidy(TakeLines(f, BLANK, lines))
  {
    if lines != [] {
      var n := |lines| - 1;
      LinesKeepTidy(f, lines[..n]);
      TakeKeepsTidy(f, TakeLines(f, BLANK, lines[..n]), lines[n]);
    }
  }

  lemma {:induction false} FinishIsCarried(showTime: int -> string, parseTime: string -> Option<int>,
                                           alnum: char -> bool, d: Draft)
    requires Tidy(d) && d.title.Some?
    ensures var es := Finish(FileFormat(showTime, parseTime, alnum), d);
            |es| == 1 && Carried(es[0])
  {
    TrimIsTrimmed(Joined(d.body));
    if "priority" in d.fields {
      ParsedPriority(d.fields["priority"]);
    }
    if "schedule" in d.fields {
      ParsedSchedule(d.fields["schedule"]);
    }
    if "status" in d.fields {
      ParsedStatus(d.fields["status"]);
    }
  }

  /** A value that says yes: 1, true, yes or on, in any letter case. */
  predicate IsYes(value: string) {
    var word := Lower(value);
    word == "1" || word == "true" || word == "yes" || word == "on"
  }

  /** The entry of a title and the last value of each key; what is missing has its default. */
  function EntryOf(parseTime: string -> Option<int>, title: string, m: map<string, string>): Entry {
    Entry(title,
          if "priority" in m then ParsePriority(m["priority"]) else Normal,
          if "schedule" in m then ParseSchedule(m["schedule"]) else Once,
          "human_approved" in m && IsYes(m["human_approved"]),
          if "status" in m then ParseStatus(m["status"]) else Pending,
          if "last_run" in m then parseTime(m["last_run"]) else None,
          if "not_before" in m then parseTime(m["not_before"]) else None,
          "")
  }

  /** A title and metadata lines in any order, repeated or unknown keys among them, are read as that entry. */
  lemma {:induction false} MetadataMeans(
    showTime: int -> string, parseTime: string -> Option<int>, alnum: char -> bool,
    title: string, ms: seq<(string, string)>)
    requires Sound(FileFormat(showTime, parseTime, alnum)) && OneLine(title) && GoodMeta(ms)
    ensures var f := FileFormat(showTime, parseTime, alnum);
            Finish(f, TakeLines(f, BLANK, ["## " + title] + MetaLines(ms)))
            == [EntryOf(parseTime, title, Filled(map[], ms))]
  {
    var f, m := FileFormat(showTime, parseTime, alnum), Filled(map[], ms);
    TakeTitleAndMeta(f, title, ms);
    FilledIsTidy(ms);
    if "human_approved" in m {
      TrimTrimmed(m["human_approved"]);
    }
    assert Joined([]) == "";
    TrimTrimmed("");
  }

  /** A line that is no metadata: not blank, no `# ` heading, and without a colon after a simple key. */
  predicate StartsBody(alnum: char -> bool, line: string) {
    var colon := Find(line, ':');
    var key := Trim(line[..colon]);
    && Trim(line) != "" && !(|line| >= 2 && line[..2] == "# ")
    && (colon == |line| || key == "" || exists i :: 0 <= i < |key| && !alnum(key[i]) && key[i] != '_')
  }

  /** The first such line after the metadata starts the body, which goes on to the end less the `# ` headings. */
  lemma {:induction false} BodyStarts(
    showTime: int -> string, parseTime: string -> Option<int>, alnum: char -> bool,
    title: string, ms: seq<(string, string)>, line: string, lines: seq<string>)
    requires Sound(FileFormat(showTime, parseTime, alnum)) && OneLine(title) && GoodMeta(ms)
    requires StartsBody(alnum, line)
    ensures var f := FileFormat(showTime, parseTime, alnum);
            Finish(f, TakeLines(f, BLANK, ["## " + title] + MetaLines(ms) + [line] + lines))
            == [EntryOf(parseTime, title, Filled(map[], ms)).(body := Trim(Joined([line] + Kept(lines))))]
  {
    var f, front := FileFormat(showTime, parseTime, alnum), ["## " + title] + MetaLines(ms);
    MetadataMeans(showTime, parseTime, alnum, title, ms);
    TakeTitleAndMeta(f, title, ms);
    var d := TakeLines(f, BLANK, front);
    TakeSnoc(f, BLANK, front, line);
    BodyLine(f, d, line);
    TakeConcat(f, BLANK, front + [line], lines);
    TakeBody(f, TakeLine(f, d, line), lines);
    FinishBody(f, d, [line] + Kept(lines));
  }

  lemma {:induction false} BodyLine(f: Format, d: Draft, line: string)
    requires StartsBody(f.isAlphanumeric, line) && d.title.Some? && !d.inBody && d.body == []
    ensures TakeLine(f, d, line) == d.(inBody := true, body := [line])
  {
    assert line[..2] == [line[0], line[1]] <== |line| >= 2;
    assert [] + [line] == [line];
  }

  lemma {:induction false} FinishBody(f: Format, d: Draft, body: seq<string>)
    requires d.title.Some?
    ensures Finish(f, d.(inBody := true, body := body)) == [Finish(f, d)[0].(body := Trim(Joined(body)))]
  {
  }

  lemma {:induction false} FilledIsTidy(ms: seq<(string, string)>)
    requires GoodMeta(ms)
    ensures forall key :: key in Filled(map[], ms) ==> OneLine(Filled(map[], ms)[key])
  {
    if ms != [] {
      FilledIsTidy(ms[..|ms| - 1]);
    }
  }

  lemma {:induction false} Label(key: string, text: string, value: string)
    requires key + ": " == text
    ensures MetaLine((key, value)) == text + value
  {
  }

  /** What a printed entry consists of, line by line. */
  lemma {:induction false} PrintedLines(f: Format, e: Entry)
    ensures EntryLines(f, e) ==
              ["## " + e.title]
              + ["priority: " + f.showPriority(e.priority)] + ["schedule: " + f.showSchedule(e.schedule)]
              + (if e.approved then ["human_approved: " + "true"] else [])
              + ["status: " + f.showStatus(e.status)]
              + (if e.lastRun.Some? then ["last_run: " + f.showTime(e.lastRun.value)] else [])
              + (if e.notBefore.Some? then ["not_before: " + f.showTime(e.notBefore.value)] else [])
              + (if e.body == "" then [] else [""] + Split(e.body, '\n'))
  {
    var p, s, w := f.showPriority(e.priority), f.showSchedule(e.schedule), f.showStatus(e.status);
    var last, gate := TimeText(f, e.lastRun), TimeText(f, e.notBefore);
    var m1, m2, m3 := ("priority", p), ("schedule", s), ("human_approved", "true");
    var m4, m5, m6 := ("status", w), ("last_run", last), ("not_before", gate);
    Label("priority", "priority: ", p);
    Label("schedule", "schedule: ", s);
    Label("human_approved", "human_approved: ", "true");
    Label("status", "status: ", w);
    Label("last_run", "last_run: ", last);
    Label("not_before", "not_before: ", gate);
    SixLines("## " + e.title, m1, m2, m3, m4, m5, m6, e.approved, e.lastRun.Some?, e.notBefore.Some?);
  }

  lemma {:induction false} SixLines(
    title: string, m1: (string, string), m2: (string, string), m3: (string, string),
    m4: (string, string), m5: (string, string), m6: (string, string), third: bool, fifth: bool, sixth: bool)
    ensures [title] + MetaLines(AddIf(AddIf(AddIf(AddIf([m1, m2], third, m3), true, m4), fifth, m5), sixth, m6))
            == [title] + [MetaLine(m1)] + [MetaLine(m2)] + (if third then [MetaLine(m3)] else []) + [MetaLine(m4)]
               + (if fifth then [MetaLine(m5)] else []) + (if sixth then [MetaLine(m6)] else [])
  {
    var ms := AddIf([m1, m2], third, m3);
    MoreLines([m1, m2], third, m3);
    MoreLines(ms, true, m4);
    MoreLines(ms + [m4], fifth, m5);
    MoreLines(AddIf(ms + [m4], fifth, m5), sixth, m6);
  }

  lemma {:induction false} MoreLines(ms: seq<(string, string)>, present: bool, m: (string, string))
    ensures MetaLines(AddIf(ms, present, m)) == MetaLines(ms) + (if present then [MetaLine(m)] else [])
  {
    assert MetaLines(ms + [m]) == MetaLines(ms) + [MetaLine(m)];
  }

  predicate AllCarried(es: seq<Entry>) {
    forall e :: e in es ==> Carried(e)
  }

  lemma {:induction false} SectionIsCarried(showTime: int -> string, parseTime: string -> Option<int>,
                                            alnum: char -> bool, section: string)
    ensures AllCarried(ParseSection(FileFormat(showTime, parseTime, alnum), section))
  {
    var f := FileFormat(showTime, parseTime, alnum);
    var lines := LinesOf(Trim(section));
    var d := TakeLines(f, BLANK, lines);
    LinesAreLines(Trim(section));
    LinesKeepTidy(f, lines);
    if d.title.Some? {
      FinishIsCarried(showTime, parseTime, alnum, d);
    }
  }

  lemma {:induction false} SectionsAreCarried(
    showTime: int -> string, parseTime: string -> Option<int>, alnum: char -> bool, sections: seq<string>)
    ensures AllCarried(ParseSections(FileFormat(showTime, parseTime, alnum), sections))
  {
    if sections != [] {
      SectionIsCarried(showTime, parseTime, alnum, sections[0]);
      SectionsAreCarried(showTime, parseTime, alnum, sections[1..]);
    }
  }

  /** Whatever the file holds, the parsed entries have the shape that the round trip asks for. */
  lemma {:induction false} ParsedIsCarried(showTime: int -> string, parseTime: string -> Option<int>,
                                           alnum: char -> bool, content: string)
    ensures AllCarried(Parse(FileFormat(showTime, parseTime, alnum), content))
  {
    SectionsAreCarried(showTime, parseTime, alnum, Sections(content));
  }

  // ── Parsed entries that are lost ─────────────────────────────────────────────

  /** An entry without metadata. */
  function Plain(title: string, body: string): Entry {
    Entry(title, Normal, Once, false, Pending, None, None, body)
  }

  lemma {:induction false} OneSection(ls: seq<string>)
    requires ls != [] && NoNewlines(ls) && NoDashes(ls)
    ensures Sections(Terminated(ls)) == [Terminated(ls)]
  {
    var text := Terminated(ls);
    assert text + "" == text;
    forall k | 0 <= k < |text| ensures !IsBreak(text, k) {
      if k + 1 < |text| {
        NoBreakIn(ls, "", k);
      }
    }
    FirstBreakIs(text, |text|);
  }

  /** The lines of a file with one entry, a title and a body. */
  function PlainLines(title: string, lines: seq<string>): seq<string> {
    ["## " + title, ""] + lines
  }

  /** Lines a file may hold as the body of an entry: no separator among them, and the last ends visibly. */
  predicate FileBody(lines: seq<string>) {
    && lines != [] && NoNewlines(lines) && NoDashes(lines)
    && var last := lines[|lines| - 1];
       last != "" && !IsSpace(last[|last| - 1])
  }

  lemma {:induction false} PlainFileTrims(title: string, lines: seq<string>)
    requires OneLine(title) && FileBody(lines)
    ensures Sections(Terminated(PlainLines(title, lines))) == [Terminated(PlainLines(title, lines))]
    ensures Trim(Terminated(PlainLines(title, lines))) == Joined(PlainLines(title, lines)) != ""
  {
    var ls := PlainLines(title, lines);
    var text := Joined(ls);
    TitleIsPlain(title);
    OneSection(ls);
    JoinedStart(ls);
    PlainEnds(ls);
    TerminatedJoined(ls);
    TrimPadded("", text, "\n");
    assert "" + text + "\n" == text + "\n";
  }

  lemma {:induction false} PlainEnds(ls: seq<string>)
    requires |ls| > 1
    requires var last := ls[|ls| - 1];
             last != "" && !IsSpace(last[|last| - 1])
    ensures Joined(ls) != "" && !IsSpace(Joined(ls)[|Joined(ls)| - 1])
  {
    var n := |ls| - 1;
    assert ls == ls[..n] + [ls[n]];
    JoinedSnoc(ls[..n], ls[n]);
    var text := Joined(ls);
    assert text[|text| - 1] == ls[n][|ls[n]| - 1];
  }

  lemma {:induction false} PlainFileTaken(f: Format, title: string, lines: seq<string>)
    requires OneLine(title)
    ensures TakeLines(f, BLANK, PlainLines(title, lines)) == Draft(Some(title), map[], true, Kept(lines))
  {
    var heading := ["## " + title];
    TakeTitle(f, title);
    TakeSnoc(f, BLANK, [], "## " + title);
    assert [] + heading == heading;
    TakeWithBody(f, heading, BLANK.(title := Some(title)), lines);
    assert PlainLines(title, lines) == heading + [""] + lines;
  }

  /** A file with a title and a body alone is read as one entry. */
  lemma {:induction false} PlainFileReads(f: Format, title: string, lines: seq<string>)
    requires OneLine(title) && FileBody(lines)
    ensures Parse(f, Terminated(PlainLines(title, lines))) == [Plain(title, Trim(Joined(Kept(StripAll(lines)))))]
  {
    var ls := PlainLines(title, lines);
    var text := Terminated(ls);
    PlainFileTrims(title, lines);
    TitleIsPlain(title);
    LinesOfJoined(ls);
    StripConcat(["## " + title, ""], lines);
    StripPlain(["## " + title, ""]);
    PlainFileTaken(f, title, StripAll(lines));
    SectionsCons(f, text, []);
    assert [text] + [] == [text];
  }

  lemma {:induction false} UncleanIsLost(
    showTime: int -> string, parseTime: string -> Option<int>, alnum: char -> bool, e: Entry, line: string)
    requires Sound(FileFormat(showTime, parseTime, alnum)) && Carried(e)
    requires line in Split(e.body, '\n') && !CleanLine(line)
    ensures var f := FileFormat(showTime, parseTime, alnum);
            Parse(f, Serialize(f, [e])) != [e]
  {
    FileRoundTrip(showTime, parseTime, alnum, [e]);
    assert e in [e] && !Clean(e);
  }

  /**
   A body whose first line is indented is read without the indentation. If that
   line then looks like the file's heading or a separator, the entry just read
   from one file is not read back from the next.
   */
  lemma {:induction false} IndentedLineIsLost(
    showTime: int -> string, parseTime: string -> Option<int>, alnum: char -> bool, title: string, line: string)
    requires Sound(FileFormat(showTime, parseTime, alnum)) && OneLine(title) && OneLine(line)
    requires IsFileHeading(line) || StartsWithDashes(line)
    ensures var f := FileFormat(showTime, parseTime, alnum);
            var es := Parse(f, Terminated(PlainLines(title, [" " + line])));
            es == [Plain(title, line)] && Parse(f, Serialize(f, es)) != es
  {
    var f := FileFormat(showTime, parseTime, alnum);
    IndentedReads(line);
    PlainFileReads(f, title, [" " + line]);
    SplitCons(line, '\n', "");
    UncleanIsLost(showTime, parseTime, alnum, Plain(title, line), line);
  }

  lemma {:induction false} IndentedReads(line: string)
    requires OneLine(line) && line != ""
    ensures FileBody([" " + line]) && Trim(Joined(Kept(StripAll([" " + line])))) == line
  {
    var indented := " " + line;
    assert indented[|indented| - 1] == line[|line| - 1];
    assert StripAll([indented]) == [indented];
    var empty: seq<string> := [];
    assert [indented][..0] == empty && empty + [indented] == [indented];
    assert Kept([indented]) == [indented];
    TrimPadded(" ", line, "");
    assert " " + line + "" == indented;
  }

  /** Of two carriage returns before a newline the first reading drops one and the second the other. */
  lemma {:induction false} DoubledReturnIsLost(
    showTime: int -> string, parseTime: string -> Option<int>, alnum: char -> bool, title: string, a: string, b: string)
    requires Sound(FileFormat(showTime, parseTime, alnum)) && OneLine(title)
    requires OneLine(a) && OneLine(b) && a != "" && b != "" && CleanLine(a) && CleanLine(b)
    ensures var f := FileFormat(showTime, parseTime, alnum);
            var es := Parse(f, Terminated(PlainLines(title, [a + "\r\r", b])));
            es == [Plain(title, a + "\r\n" + b)] && Parse(f, Serialize(f, es)) != es
  {
    var f := FileFormat(showTime, parseTime, alnum);
    var first, body := a + "\r", a + "\r\n" + b;
    ReturnsFile(a, b);
    PlainFileReads(f, title, [a + "\r\r", b]);
    ReturnsBody(a, b);
    UncleanIsLost(showTime, parseTime, alnum, Plain(title, body), first);
  }

  lemma {:induction false} ReturnsFile(a: string, b: string)
    requires '\n' !in a && OneLine(b) && b != "" && !StartsWithDashes(a) && CleanLine(b)
    ensures FileBody([a + "\r\r", b]) && StripAll([a + "\r\r", b]) == [a + "\r", b]
  {
    var line := a + "\r\r";
    assert line[..|line| - 1] == a + "\r";
    assert StripCr(line) == a + "\r" && StripCr(b) == b;
  }

  lemma {:induction false} ReturnsBody(a: string, b: string)
    requires OneLine(a) && OneLine(b) && a != "" && b != "" && CleanLine(a) && CleanLine(b)
    ensures var lines, body := [a + "\r", b], a + "\r\n" + b;
            && Trim(Joined(Kept(lines))) == body && IsTrimmed(body)
            && Split(body, '\n') == lines && lines[0] in lines && EndsInCr(lines[0])
  {
    var lines, body := [a + "\r", b], a + "\r\n" + b;
    KeptShrinks(lines);
    assert lines[1..] == [b];
    assert Joined(lines) == a + "\r" + "\n" + b == body;
    assert body[0] == a[0] && body[|body| - 1] == b[|b| - 1];
    TrimTrimmed(body);
    SplitJoined(lines);
  }
}
