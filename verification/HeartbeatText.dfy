/** The heartbeat file: the parser and the printer. */
module HeartbeatText {
  import opened Prelude
  import opened Text
  import opened Heartbeat

  /** The text forms of the field types, and the Unicode class of key characters. */
  datatype Format = Format(
    showPriority: Priority -> string, parsePriority: string -> Priority,
    showSchedule: Schedule -> string, parseSchedule: string -> Schedule,
    showStatus: Status -> string, parseStatus: string -> Status,
    showTime: int -> string, parseTime: string -> Option<int>,
    isAlphanumeric: char -> bool)

  /** The format of the heartbeat file, over the RFC 3339 codec of instants. */
  function FileFormat(showTime: int -> string, parseTime: string -> Option<int>, isAlphanumeric: char -> bool): Format {
    Format(ShowPriority, ParsePriority, ShowSchedule, ParseSchedule, ShowStatus, ParseStatus,
           showTime, parseTime, isAlphanumeric)
  }

  predicate ReadsTime(f: Format, t: int) {
    f.parseTime(f.showTime(t)) == Some(t) && OneLine(f.showTime(t))
  }

  /** Instants read back from one line; letters are alphanumeric. */
  ghost predicate Sound(f: Format) {
    && (forall t :: ReadsTime(f, t))
    && (forall c :: 'a' <= c <= 'z' ==> f.isAlphanumeric(c))
  }

  // ── Sections and lines ───────────────────────────────────────────────────────

  /** `\n---` starts at `i`. */
  predicate IsBreak(s: string, i: nat) {
    i + 4 <= |s| && s[i] == '\n' && s[i + 1] == '-' && s[i + 2] == '-' && s[i + 3] == '-'
  }

  function FirstBreak(s: string, i: nat): (n: nat)
    requires i <= |s|
    ensures i <= n <= |s|
    ensures n < |s| ==> IsBreak(s, n)
    ensures forall k :: i <= k < n ==> !IsBreak(s, k)
    decreases |s| - i
  {
    if i == |s| || IsBreak(s, i) then i else FirstBreak(s, i + 1)
  }

  /** `split("\n---")`. */
  function Sections(content: string): seq<string>
    decreases |content|
  {
    var n := FirstBreak(content, 0);
    if n == |content| then [content] else [content[..n]] + Sections(content[n + 4..])
  }

  predicate EndsInCr(line: string) {
    line != "" && line[|line| - 1] == '\r'
  }

  function StripCr(line: string): string {
    if EndsInCr(line) then line[..|line| - 1] else line
  }

  /** `lines()`: a final newline ends the last line, and one carriage return before a newline is dropped. */
  function LinesOf(s: string): seq<string>
    decreases |s|
  {
    var i := Find(s, '\n');
    if i == |s| then (if s == "" then [] else [s]) else [StripCr(s[..i])] + LinesOf(s[i + 1..])
  }

  // ── Parsing a section ────────────────────────────────────────────────────────

  /** The parser's variables within one section. */
  datatype Draft = Draft(title: Option<string>, fields: map<string, string>, inBody: bool, body: seq<string>)

  const BLANK := Draft(None, map[], false, [])

  predicate IsHeading(line: string) {
    |line| >= 3 && line[0] == '#' && line[1] == '#' && line[2] == ' '
  }

  predicate IsFileHeading(line: string) {
    |line| >= 2 && line[0] == '#' && line[1] == ' '
  }

  predicate IsKey(f: Format, key: string) {
    key != "" && forall i :: 0 <= i < |key| ==> f.isAlphanumeric(key[i]) || key[i] == '_'
  }

  /** The key and value of a line, when it has a simple key. */
  function KeyValue(f: Format, line: string): Option<(string, string)> {
    match SplitOnce(line, ':')
    case None => None
    case Some((key, value)) => if IsKey(f, Trim(key)) then Some((Trim(key), Trim(value))) else None
  }

  function TakeLine(f: Format, d: Draft, line: string): Draft {
    if IsFileHeading(line) then d
    else if IsHeading(line) && d.title.None? then d.(title := Some(Trim(line[3..])))
    else if d.title.None? then d
    else if d.inBody then d.(body := d.body + [line])
    else if Trim(line) == "" then d.(inBody := true)
    else
      match KeyValue(f, line)
      case Some((key, value)) => d.(fields := d.fields[key := value])
      case None => d.(inBody := true, body := d.body + [line])
  }

  function TakeLines(f: Format, d: Draft, lines: seq<string>): Draft {
    if lines == [] then d else TakeLine(f, TakeLines(f, d, lines[..|lines| - 1]), lines[|lines| - 1])
  }

  function Field(d: Draft, key: string): Option<string> {
    if key in d.fields then Some(d.fields[key]) else None
  }

  predicate SaysYes(value: string) {
    Lower(Trim(value)) in {"1", "true", "yes", "on"}
  }

  function TimeField(f: Format, d: Draft, key: string): Option<int> {
    match Field(d, key)
    case None => None
    case Some(text) => f.parseTime(text)
  }

  /** The entry of a section, if it had a title. */
  function Finish(f: Format, d: Draft): seq<Entry> {
    if d.title.None? then []
    else
      [Entry(
        d.title.value,
        match Field(d, "priority") case None => Normal case Some(v) => f.parsePriority(v),
        match Field(d, "schedule") case None => Once case Some(v) => f.parseSchedule(v),
        Field(d, "human_approved").Some? && SaysYes(Field(d, "human_approved").value),
        match Field(d, "status") case None => Pending case Some(v) => f.parseStatus(v),
        TimeField(f, d, "last_run"),
        TimeField(f, d, "not_before"),
        Trim(Joined(d.body)))]
  }

  function ParseSection(f: Format, section: string): seq<Entry> {
    var section := Trim(section);
    if section == "" then [] else Finish(f, TakeLines(f, BLANK, LinesOf(section)))
  }

  function ParseSections(f: Format, sections: seq<string>): seq<Entry> {
    if sections == [] then [] else ParseSection(f, sections[0]) + ParseSections(f, sections[1..])
  }

  function Parse(f: Format, content: string): seq<Entry> {
    ParseSections(f, Sections(content))
  }

  // ── Printing ─────────────────────────────────────────────────────────────────

  /** `m` at the end of `ms`, if it is `present`. */
  function AddIf<T>(ms: seq<T>, present: bool, m: T): seq<T> {
    if present then ms + [m] else ms
  }

  function TimeText(f: Format, t: Option<int>): string {
    if t.Some? then f.showTime(t.value) else ""
  }

  /** The metadata of an entry, in the order it is written. */
  function Metadata(f: Format, e: Entry): (ms: seq<(string, string)>)
    ensures ms != []
  {
    var ms := [("priority", f.showPriority(e.priority)), ("schedule", f.showSchedule(e.schedule))];
    var ms := AddIf(ms, e.approved, ("human_approved", "true"));
    var ms := AddIf(ms, true, ("status", f.showStatus(e.status)));
    var ms := AddIf(ms, e.lastRun.Some?, ("last_run", TimeText(f, e.lastRun)));
    AddIf(ms, e.notBefore.Some?, ("not_before", TimeText(f, e.notBefore)))
  }

  function MetaLine(m: (string, string)): string {
    m.0 + ": " + m.1
  }

  function MetaLines(ms: seq<(string, string)>): seq<string> {
    seq(|ms|, i requires 0 <= i < |ms| => MetaLine(ms[i]))
  }

  function BodyLines(body: string): seq<string> {
    if body == "" then [] else [""] + Split(body, '\n')
  }

  function EntryLines(f: Format, e: Entry): seq<string> {
    ["## " + e.title] + MetaLines(Metadata(f, e)) + BodyLines(e.body)
  }

  /** What precedes the first break, or a later one, of a printed file. */
  function Printed(f: Format, head: string, es: seq<Entry>): string
    decreases |es|
  {
    if es == [] then head
    else head + "\n" + Terminated(EntryLines(f, es[0])) + "\n---" + Printed(f, "\n", es[1..])
  }

  function Serialize(f: Format, es: seq<Entry>): string {
    Printed(f, "# Heartbeat\n", es)
  }

  // ── As the program runs it ───────────────────────────────────────────────────

  lemma {:induction false} TakeSnoc(f: Format, d: Draft, lines: seq<string>, line: string)
    ensures TakeLines(f, d, lines + [line]) == TakeLine(f, TakeLines(f, d, lines), line)
  {
    assert (lines + [line])[..|lines|] == lines;
  }

  lemma {:induction false} SectionsCons(f: Format, section: string, sections: seq<string>)
    ensures ParseSections(f, [section] + sections) == ParseSection(f, section) + ParseSections(f, sections)
  {
    assert ([section] + sections)[1..] == sections;
  }

  /** The loop over the lines of one trimmed section. */
  method ReadSection(f: Format, section: string) returns (d: Draft)
    ensures d == TakeLines(f, BLANK, LinesOf(section))
  {
    var lines := LinesOf(section);
    var title, fields, bodyLines, inBody := None, map[], [], false;
    for k := 0 to |lines|
      invariant Draft(title, fields, inBody, bodyLines) == TakeLines(f, BLANK, lines[..k])
    {
      var line := lines[k];
      assert lines[..k + 1] == lines[..k] + [line];
      TakeSnoc(f, BLANK, lines[..k], line);
      if IsFileHeading(line) && !IsHeading(line) {
        continue;
      }
      if IsHeading(line) && title.None? {
        title := Some(Trim(line[3..]));
        continue;
      }
      if title.None? {
        continue;
      }
      if inBody {
        bodyLines := bodyLines + [line];
        continue;
      }
      if Trim(line) == "" {
        inBody := true;
        continue;
      }
      var split := SplitOnce(line, ':');
      if split.Some? {
        var key, value := Trim(split.value.0), Trim(split.value.1);
        if IsKey(f, key) {
          fields := fields[key := value];
          continue;
        }
      }
      inBody := true;
      bodyLines := bodyLines + [line];
    }
    assert lines[..|lines|] == lines;
    d := Draft(title, fields, inBody, bodyLines);
  }

  lemma {:induction false} SectionsSnoc(f: Format, sections: seq<string>, section: string)
    ensures ParseSections(f, sections + [section]) == ParseSections(f, sections) + ParseSection(f, section)
  {
    if sections == [] {
      assert [] + [section] == [section];
      SectionsCons(f, section, []);
    } else {
      SectionsSnoc(f, sections[1..], section);
      assert (sections + [section])[0] == sections[0] && (sections + [section])[1..] == sections[1..] + [section];
      Assoc(ParseSection(f, sections[0]), ParseSections(f, sections[1..]), ParseSection(f, section));
    }
  }

  method ReadOne(f: Format, section: string) returns (entries: seq<Entry>)
    ensures entries == ParseSection(f, section)
  {
    var trimmed := Trim(section);
    if trimmed == "" {
      return [];
    }
    var d := ReadSection(f, trimmed);
    return Finish(f, d);
  }

  method ParseHeartbeat(f: Format, content: string) returns (entries: seq<Entry>)
    ensures entries == Parse(f, content)
  {
    entries := [];
    var sections := Sections(content);
    for k := 0 to |sections|
      invariant entries == ParseSections(f, sections[..k])
    {
      assert sections[..k + 1] == sections[..k] + [sections[k]];
      SectionsSnoc(f, sections[..k], sections[k]);
      var read := ReadOne(f, sections[k]);
      entries := entries + read;
    }
    assert sections[..|sections|] == sections;
  }

  method PushLine(out: string, line: string, ghost start: string, ghost ls: seq<string>) returns (o: string)
    requires out == start + Terminated(ls)
    ensures o == start + Terminated(ls + [line])
  {
    o := out + (line + "\n");
    TerminatedSnoc(ls, line);
    Assoc(start, Terminated(ls), line + "\n");
  }

  method PushMeta(out: string, m: (string, string), ghost start: string, ghost title: string,
                  ghost ms: seq<(string, string)>)
    returns (o: string)
    requires out == start + Terminated([title] + MetaLines(ms))
    ensures o == start + Terminated([title] + MetaLines(ms + [m]))
  {
    o := PushLine(out, m.0 + ": " + m.1, start, [title] + MetaLines(ms));
    assert MetaLines(ms + [m]) == MetaLines(ms) + [MetaLine(m)];
    Assoc([title], MetaLines(ms), [MetaLine(m)]);
  }

  method PushMetaIf(out: string, present: bool, m: (string, string), ghost start: string, ghost title: string,
                    ghost ms: seq<(string, string)>)
    returns (o: string, ghost more: seq<(string, string)>)
    requires out == start + Terminated([title] + MetaLines(ms))
    ensures more == AddIf(ms, present, m) && o == start + Terminated([title] + MetaLines(more))
  {
    o, more := out, ms;
    if present {
      o := PushMeta(out, m, start, title, ms);
      more := ms + [m];
    }
  }

  method PrintMetadata(f: Format, e: Entry, before: string, ghost start: string, ghost title: string)
    returns (out: string)
    requires before == start + Terminated([title])
    ensures out == start + Terminated([title] + MetaLines(Metadata(f, e)))
  {
    ghost var priority, schedule := ("priority", f.showPriority(e.priority)), ("schedule", f.showSchedule(e.schedule));
    assert [title] + MetaLines([]) == [title];
    out := PushMeta(before, ("priority", f.showPriority(e.priority)), start, title, []);
    assert [] + [priority] == [priority] && [priority] + [schedule] == [priority, schedule];
    out := PushMeta(out, ("schedule", f.showSchedule(e.schedule)), start, title, [priority]);
    ghost var ms := [priority, schedule];
    out, ms := PushMetaIf(out, e.approved, ("human_approved", "true"), start, title, ms);
    out, ms := PushMetaIf(out, true, ("status", f.showStatus(e.status)), start, title, ms);
    out, ms := PushMetaIf(out, e.lastRun.Some?, ("last_run", TimeText(f, e.lastRun)), start, title, ms);
    out, ms := PushMetaIf(out, e.notBefore.Some?, ("not_before", TimeText(f, e.notBefore)), start, title, ms);
  }

  method PrintEntry(f: Format, e: Entry, before: string) returns (out: string)
    ensures out == before + "\n" + Terminated(EntryLines(f, e)) + "\n---" + "\n"
  {
    ghost var start := before + "\n";
    assert Terminated([]) == "" && start + "" == start;
    out := PushLine(before + "\n", "## " + e.title, start, []);
    assert [] + ["## " + e.title] == ["## " + e.title];
    out := PrintMetadata(f, e, out, start, "## " + e.title);
    ghost var titled := ["## " + e.title] + MetaLines(Metadata(f, e));
    if e.body != "" {
      ghost var printed := Terminated(titled);
      out := out + ("\n" + e.body + "\n");
      BodyPrinted(e.body);
      TerminatedConcat(titled, BodyLines(e.body));
      Assoc(start, printed, Terminated(BodyLines(e.body)));
    } else {
      assert titled + [] == titled;
    }
    out := out + "\n---" + "\n";
  }

  lemma {:induction false} BodyPrinted(body: string)
    requires body != ""
    ensures Terminated(BodyLines(body)) == "\n" + body + "\n"
  {
    var lines := Split(body, '\n');
    JoinedSplit(body);
    TerminatedConcat([""], lines);
    TerminatedJoined(lines);
    TerminatedJoined([""]);
    assert "" + "\n" == "\n";
    Assoc("\n", body, "\n");
  }

  method SerializeHeartbeat(f: Format, entries: seq<Entry>) returns (out: string)
    ensures out == Serialize(f, entries)
  {
    out := "# Heartbeat\n";
    ghost var done, head := "", out;
    for k := 0 to |entries|
      invariant out == done + head
      invariant done + Printed(f, head, entries[k..]) == Serialize(f, entries)
    {
      ghost var text := head + "\n" + Terminated(EntryLines(f, entries[k])) + "\n---";
      PrintedStep(f, done, head, entries[k..]);
      assert entries[k..][1..] == entries[k + 1..];
      out := PrintEntry(f, entries[k], out);
      done, head := done + text, "\n";
    }
  }

  lemma {:induction false} PrintedStep(f: Format, done: string, head: string, es: seq<Entry>)
    requires es != []
    ensures var text := head + "\n" + Terminated(EntryLines(f, es[0])) + "\n---";
            && done + Printed(f, head, es) == (done + text) + Printed(f, "\n", es[1..])
            && (done + head) + "\n" + Terminated(EntryLines(f, es[0])) + "\n---" + "\n" == (done + text) + "\n"
  {
    var text := head + "\n" + Terminated(EntryLines(f, es[0])) + "\n---";
    Assoc(done, text, Printed(f, "\n", es[1..]));
  }
}
