/**
 Heartbeat bodies over many saves and reloads. A single reread may lose lines of
 a body and indentation; these lemmas say exactly which bodies never turn into
 one that splits its section.
 */
module HeartbeatRereads {
  import opened Prelude
  import opened Text
  import opened Heartbeat
  import opened HeartbeatText
  import opened HeartbeatRoundTrip
  import opened HeartbeatParsed

  /** A line that rereading removes from the front: blank, or without its indentation like the file's heading. */
  predicate FadesInFront(line: string) {
    TrimStart(line) == "" || IsFileHeading(TrimStart(line))
  }

  /** The first line that does not fade is no separator, however it is indented. */
  predicate FrontHolds(lines: seq<string>) {
    lines == [] || if FadesInFront(lines[0]) then FrontHolds(lines[1..]) else !StartsWithDashes(TrimStart(lines[0]))
  }

  /** A body without separator lines, and none will come to the front. */
  predicate Lasting(body: string) {
    NoDashes(Split(body, '\n')) && FrontHolds(Split(body, '\n'))
  }

  /** The body after `n` rereads. */
  function RereadTimes(body: string, n: nat): string
    decreases n
  {
    if n == 0 then body else RereadTimes(RereadBody(body), n - 1)
  }

  // ── Stripping carriage returns ───────────────────────────────────────────────

  lemma {:induction false} TrimStartSnoc(s: string, c: char)
    ensures TrimStart(s + [c]) == if TrimStart(s) == "" then (if IsSpace(c) then "" else [c]) else TrimStart(s) + [c]
  {
    if s != "" {
      assert (s + [c])[1..] == s[1..] + [c];
      TrimStartSnoc(s[1..], c);
    } else {
      assert s + [c] == [c];
      assert [c][1..] == "";
    }
  }

  /** White space at the end of a line does not matter, as far as a line in front goes. */
  lemma {:induction false} SpaceAtEnd(line: string, c: char)
    requires IsSpace(c)
    ensures FadesInFront(line) ==> FadesInFront(line + [c])
    ensures FadesInFront(line + [c]) ==> FadesInFront(line) || TrimStart(line) == "#"
    ensures c != ' ' && FadesInFront(line + [c]) ==> FadesInFront(line)
    ensures StartsWithDashes(TrimStart(line + [c])) <==> StartsWithDashes(TrimStart(line))
    ensures StartsWithDashes(line + [c]) <==> StartsWithDashes(line)
  {
    TrimStartSnoc(line, c);
  }

  lemma {:induction false} StripKeepsLine(line: string)
    ensures FadesInFront(StripCr(line)) <==> FadesInFront(line)
    ensures StartsWithDashes(TrimStart(StripCr(line))) <==> StartsWithDashes(TrimStart(line))
    ensures StartsWithDashes(StripCr(line)) <==> StartsWithDashes(line)
  {
    if EndsInCr(line) {
      assert line == StripCr(line) + ['\r'];
      SpaceAtEnd(StripCr(line), '\r');
    }
  }

  lemma {:induction false} StripKeepsFront(lines: seq<string>)
    ensures FrontHolds(StripAll(lines)) <==> FrontHolds(lines)
    ensures NoDashes(StripAll(lines)) <==> NoDashes(lines)
  {
    if lines != [] {
      StripKeepsLine(lines[0]);
      StripKeepsFront(lines[1..]);
      StripCons(lines);
      NoDashesCons(lines[0], lines[1..]);
      NoDashesCons(StripCr(lines[0]), StripAll(lines[1..]));
      assert lines == [lines[0]] + lines[1..];
    }
  }

  lemma {:induction false} NoDashesCons(line: string, rest: seq<string>)
    ensures NoDashes([line] + rest) <==> !StartsWithDashes(line) && NoDashes(rest)
  {
    assert line in [line] + rest;
    assert forall l :: l in rest ==> l in [line] + rest;
  }

  // ── Dropping what looks like the file's heading ──────────────────────────────

  lemma {:induction false} KeptConcat(a: seq<string>, b: seq<string>)
    ensures Kept(a + b) == Kept(a) + Kept(b)
  {
    if b == [] {
      assert a + b == a && Kept(a) + [] == Kept(a);
    } else {
      var n := |b| - 1;
      assert (a + b)[..|a + b| - 1] == a + b[..n] && (a + b)[|a + b| - 1] == b[n];
      KeptConcat(a, b[..n]);
      Assoc(Kept(a), Kept(b[..n]), [b[n]]);
    }
  }

  lemma {:induction false} KeptCons(line: string, rest: seq<string>)
    ensures Kept([line] + rest) == (if IsFileHeading(line) then Kept(rest) else [line] + Kept(rest))
  {
    KeptConcat([line], rest);
    assert [line][..0] == [] && Kept([line][..0]) == [];
    assert [] + [line] == [line] && [] + Kept(rest) == Kept(rest);
  }

  lemma {:induction false} HeadingFades(line: string)
    requires IsFileHeading(line)
    ensures FadesInFront(line) && !StartsWithDashes(line)
  {
  }

  lemma {:induction false} KeptKeepsFront(lines: seq<string>)
    ensures FrontHolds(Kept(lines)) <==> FrontHolds(lines)
    ensures NoDashes(Kept(lines)) <==> NoDashes(lines)
  {
    if lines != [] {
      var line, rest := lines[0], lines[1..];
      assert lines == [line] + rest;
      KeptCons(line, rest);
      KeptKeepsFront(rest);
      NoDashesCons(line, rest);
      NoDashesCons(line, Kept(rest));
      if IsFileHeading(line) {
        HeadingFades(line);
      } else {
        assert ([line] + Kept(rest))[1..] == Kept(rest);
      }
    }
  }

  // ── Trimming ─────────────────────────────────────────────────────────────────

  /** Splitting, one character more at the start. */
  lemma {:induction false} SplitFirst(c: char, s: string)
    ensures Split("\n" + s, '\n') == [""] + Split(s, '\n')
    ensures c != '\n' ==> Split([c] + s, '\n') == [[c] + Split(s, '\n')[0]] + Split(s, '\n')[1..]
  {
    SplitCons("", '\n', s);
    assert "" + ['\n'] + s == "\n" + s;
    if c != '\n' {
      SplitVisible(c, s);
    }
  }

  lemma {:induction false} SplitVisible(c: char, s: string)
    requires c != '\n'
    ensures Split([c] + s, '\n') == [[c] + Split(s, '\n')[0]] + Split(s, '\n')[1..]
  {
    var i := Find(s, '\n');
    if i == |s| {
      SplitCons([c] + s, '\n', "");
    } else {
      assert [c] + s == ([c] + s[..i]) + ['\n'] + s[i + 1..];
      SplitCons([c] + s[..i], '\n', s[i + 1..]);
      assert ([s[..i]] + Split(s[i + 1..], '\n'))[1..] == Split(s[i + 1..], '\n');
    }
  }

  lemma {:induction false} SpaceInFront(c: char, line: string)
    requires IsSpace(c)
    ensures FadesInFront([c] + line) <==> FadesInFront(line)
    ensures TrimStart([c] + line) == TrimStart(line)
  {
    assert ([c] + line)[1..] == line;
  }

  lemma {:induction false} TrimmedFront(s: string)
    ensures FrontHolds(Split(TrimStart(s), '\n')) <==> FrontHolds(Split(s, '\n'))
    ensures NoDashes(Split(s, '\n')[1..]) ==> NoDashes(Split(TrimStart(s), '\n')[1..])
  {
    if s != "" && IsSpace(s[0]) {
      var c, rest := s[0], s[1..];
      var lines := Split(rest, '\n');
      assert s == [c] + rest;
      TrimmedFront(rest);
      SplitFirst(c, rest);
      if c == '\n' {
        assert s == "\n" + rest;
        assert ([""] + lines)[1..] == lines;
        assert forall l :: l in lines[1..] ==> l in lines;
      } else {
        SpaceInFront(c, lines[0]);
        assert ([[c] + lines[0]] + lines[1..])[1..] == lines[1..];
      }
    }
  }

  lemma {:induction false} FrontConcat(a: seq<string>, b: seq<string>)
    requires b != []
    ensures (exists l :: l in a && !FadesInFront(l)) ==> (FrontHolds(a + b) <==> FrontHolds(a))
    ensures (forall l :: l in a ==> FadesInFront(l)) ==> (FrontHolds(a + b) <==> FrontHolds(b))
  {
    if a == [] {
      assert a + b == b;
    } else {
      FrontConcat(a[1..], b);
      assert (a + b)[0] == a[0] && (a + b)[1..] == a[1..] + b;
      assert a == [a[0]] + a[1..];
    }
  }

  /** Whether the last line is followed by white space makes no difference. */
  lemma {:induction false} FrontSnoc(front: seq<string>, line: string, c: char)
    requires IsSpace(c)
    ensures FrontHolds(front + [line + [c]]) <==> FrontHolds(front + [line])
  {
    SpaceAtEnd(line, c);
    FrontConcat(front, [line + [c]]);
    FrontConcat(front, [line]);
    assert [line][1..] == [] && [line + [c]][1..] == [];
  }

  lemma {:induction false} FrontBlank(lines: seq<string>)
    ensures FrontHolds(lines + [""]) <==> FrontHolds(lines)
  {
    if lines == [] {
      assert [] + [""] == [""] && [""][1..] == [];
    } else {
      FrontBlank(lines[1..]);
      assert (lines + [""])[0] == lines[0] && (lines + [""])[1..] == lines[1..] + [""];
    }
  }

  /** Splitting, one character more at the end. */
  lemma {:induction false} SplitLast(s: string, c: char)
    ensures c == '\n' ==> Split(s + [c], '\n') == Split(s, '\n') + [""]
    ensures c != '\n' ==> var lines := Split(s, '\n');
                          Split(s + [c], '\n') == lines[..|lines| - 1] + [lines[|lines| - 1] + [c]]
  {
    var lines := Split(s, '\n');
    var n := |lines| - 1;
    JoinedSplit(s);
    if c == '\n' {
      JoinedSnoc(lines, "");
      assert Joined(lines) + "\n" + "" == s + [c];
      SplitJoined(lines + [""]);
    } else {
      JoinedGrow(lines, c);
      assert lines[n] in lines;
      SplitJoined(lines[..n] + [lines[n] + [c]]);
    }
  }

  lemma {:induction false} JoinedGrow(lines: seq<string>, c: char)
    requires lines != []
    ensures var n := |lines| - 1;
            Joined(lines[..n] + [lines[n] + [c]]) == Joined(lines) + [c]
  {
    var n := |lines| - 1;
    assert lines == lines[..n] + [lines[n]];
    if n == 0 {
      assert lines[..n] + [lines[n] + [c]] == [lines[0] + [c]];
    } else {
      JoinedSnoc(lines[..n], lines[n]);
      JoinedSnoc(lines[..n], lines[n] + [c]);
      Assoc(Joined(lines[..n]) + "\n", lines[n], [c]);
    }
  }

  lemma {:induction false} NoDashesSnoc(front: seq<string>, line: string)
    ensures NoDashes(front + [line]) <==> NoDashes(front) && !StartsWithDashes(line)
  {
    assert line in front + [line];
    assert forall l :: l in front ==> l in front + [line];
  }

  lemma {:induction false} EndTrimmed(s: string)
    ensures FrontHolds(Split(TrimEnd(s), '\n')) <==> FrontHolds(Split(s, '\n'))
    ensures NoDashes(Split(TrimEnd(s), '\n')) <==> NoDashes(Split(s, '\n'))
  {
    if s != "" && IsSpace(s[|s| - 1]) {
      var rest, c := s[..|s| - 1], s[|s| - 1];
      assert s == rest + [c];
      EndTrimmed(rest);
      SpaceDropped(rest, c);
    }
  }

  lemma {:induction false} SpaceDropped(s: string, c: char)
    requires IsSpace(c)
    ensures FrontHolds(Split(s + [c], '\n')) <==> FrontHolds(Split(s, '\n'))
    ensures NoDashes(Split(s + [c], '\n')) <==> NoDashes(Split(s, '\n'))
  {
    var lines := Split(s, '\n');
    SplitLast(s, c);
    if c == '\n' {
      FrontBlank(lines);
      NoDashesSnoc(lines, "");
    } else {
      var front, line := lines[..|lines| - 1], lines[|lines| - 1];
      assert lines == front + [line];
      FrontSnoc(front, line, c);
      SpaceAtEnd(line, c);
      NoDashesSnoc(front, line);
      NoDashesSnoc(front, line + [c]);
    }
  }

  /** Text that starts visibly has a first line that does. */
  lemma {:induction false} FirstLine(s: string)
    requires s != "" && s[0] != '\n'
    ensures var line := Split(s, '\n')[0];
            line != "" && line[0] == s[0]
  {
  }

  /** Trimming keeps what is in front, and brings no separator there if the front holds. */
  lemma {:induction false} TrimKeepsLasting(s: string)
    ensures FrontHolds(Split(Trim(s), '\n')) <==> FrontHolds(Split(s, '\n'))
    ensures NoDashes(Split(s, '\n')) && FrontHolds(Split(s, '\n')) ==> NoDashes(Split(Trim(s), '\n'))
  {
    var t := TrimStart(s);
    TrimmedFront(s);
    EndTrimmed(t);
    if NoDashes(Split(s, '\n')) && FrontHolds(Split(s, '\n')) {
      assert forall l :: l in Split(s, '\n')[1..] ==> l in Split(s, '\n');
      TrimStartHead(s);
      FrontIsNoSeparator(t);
    }
  }

  lemma {:induction false} FrontIsNoSeparator(t: string)
    requires (t != "" ==> !IsSpace(t[0])) && FrontHolds(Split(t, '\n')) && NoDashes(Split(t, '\n')[1..])
    ensures NoDashes(Split(t, '\n'))
  {
    var lines := Split(t, '\n');
    assert lines == [lines[0]] + lines[1..];
    NoDashesCons(lines[0], lines[1..]);
    if t != "" {
      FirstLine(t);
      assert TrimStart(lines[0]) == lines[0];
    } else {
      SplitEmpty();
    }
  }

  // ── Bodies that last ─────────────────────────────────────────────────────────

  /** Rereading keeps what is in front, in both directions. */
  lemma {:induction false} RereadKeepsLasting(body: string)
    ensures FrontHolds(Split(RereadBody(body), '\n')) <==> FrontHolds(Split(body, '\n'))
    ensures Lasting(body) ==> Lasting(RereadBody(body))
  {
    if body != "" {
      var lines := Split(body, '\n');
      JoinedSplit(body);
      LinesKeepLasting(lines, Kept(StripAll(lines)));
      TrimKeepsLasting(Joined(Kept(StripAll(lines))));
    }
  }

  lemma {:induction false} LinesKeepLasting(lines: seq<string>, kept: seq<string>)
    requires NoNewlines(lines) && kept == Kept(StripAll(lines))
    ensures FrontHolds(Split(Joined(kept), '\n')) <==> FrontHolds(lines)
    ensures NoDashes(Split(Joined(kept), '\n')) <==> NoDashes(lines)
  {
    StripKeepsFront(lines);
    KeptKeepsFront(StripAll(lines));
    StripNewlines(lines);
    KeptNewlines(StripAll(lines));
    JoinedAgain(kept);
  }

  /** Joining and splitting again adds a blank line to no lines, and nothing else. */
  lemma {:induction false} JoinedAgain(lines: seq<string>)
    requires NoNewlines(lines)
    ensures FrontHolds(Split(Joined(lines), '\n')) <==> FrontHolds(lines)
    ensures NoDashes(Split(Joined(lines), '\n')) <==> NoDashes(lines)
  {
    if lines == [] {
      SplitEmpty();
      assert [""][1..] == [];
    } else {
      SplitJoined(lines);
    }
  }

  lemma {:induction false} StripNewlines(lines: seq<string>)
    requires NoNewlines(lines)
    ensures NoNewlines(StripAll(lines))
  {
    forall i | 0 <= i < |lines| ensures '\n' !in StripAll(lines)[i] {
      assert lines[i] in lines;
    }
  }

  lemma {:induction false} KeptNewlines(lines: seq<string>)
    requires NoNewlines(lines)
    ensures NoNewlines(Kept(lines))
  {
    if lines != [] {
      KeptNewlines(lines[..|lines| - 1]);
    }
  }

  lemma {:induction false} LastingForGood(body: string, n: nat)
    requires Lasting(body)
    ensures NoDashes(Split(RereadTimes(body, n), '\n'))
    decreases n
  {
    if n > 0 {
      RereadKeepsLasting(body);
      LastingForGood(RereadBody(body), n - 1);
    }
  }

  /** If the front of a trimmed body without separators does not hold, its first line is a heading and dropped. */
  lemma {:induction false} FrontDrops(body: string)
    requires IsTrimmed(body) && NoDashes(Split(body, '\n')) && !FrontHolds(Split(body, '\n'))
    ensures |RereadBody(body)| < |body| && IsTrimmed(RereadBody(body)) && !Lasting(RereadBody(body))
  {
    var lines := Split(body, '\n');
    HeadingInFront(body);
    assert lines[0] in lines;
    RereadShrinks(body);
    RereadKeepsLasting(body);
    TrimIsTrimmed(Joined(Kept(StripAll(lines))));
  }

  lemma {:induction false} HeadingInFront(body: string)
    requires IsTrimmed(body) && NoDashes(Split(body, '\n')) && !FrontHolds(Split(body, '\n'))
    ensures body != "" && IsFileHeading(Split(body, '\n')[0])
  {
    var lines := Split(body, '\n');
    assert lines[0] in lines;
    EmptyHolds();
    if body != "" {
      FirstLine(body);
      assert TrimStart(lines[0]) == lines[0];
    }
  }

  lemma {:induction false} EmptyHolds()
    ensures FrontHolds(Split("", '\n'))
  {
    SplitEmpty();
    assert [""][1..] == [];
  }

  lemma {:induction false} FrontDropped(body: string) returns (next: string)
    requires IsTrimmed(body) && NoDashes(Split(body, '\n')) && !Lasting(body)
    ensures Rereads(body, next) && |next| < |body| && IsTrimmed(next) && !Lasting(next)
  {
    next := RereadBody(body);
    FrontDrops(body);
  }

  predicate Rereads(body: string, next: string) {
    next == RereadBody(body)
  }

  lemma {:induction false} RereadOnce(body: string, next: string, n: nat)
    requires Rereads(body, next)
    ensures RereadTimes(body, n + 1) == RereadTimes(next, n)
  {
  }

  lemma {:induction false} SplitsInTheEnd(body: string) returns (n: nat)
    requires IsTrimmed(body) && !Lasting(body)
    ensures !NoDashes(Split(RereadTimes(body, n), '\n'))
    decreases |body|
  {
    if NoDashes(Split(body, '\n')) {
      var next := FrontDropped(body);
      var m := SplitsInTheEnd(next);
      n := m + 1;
      RereadOnce(body, next, m);
    } else {
      n := 0;
    }
  }

  /** A body never comes to split its section, however often it is saved and reloaded, exactly when it is lasting. */
  lemma {:induction false} LastsExactly(body: string)
    requires IsTrimmed(body)
    ensures Lasting(body) <==> forall n: nat :: NoDashes(Split(RereadTimes(body, n), '\n'))
  {
    if Lasting(body) {
      forall n: nat ensures NoDashes(Split(RereadTimes(body, n), '\n')) {
        LastingForGood(body, n);
      }
    } else {
      var n := SplitsInTheEnd(body);
    }
  }

  /** A clean body lasts, and so does one none of whose lines is a separator once its indentation is stripped. */
  lemma {:induction false} PlainBodiesLast(body: string)
    requires IsTrimmed(body)
    ensures (forall l :: l in Split(body, '\n') ==> CleanLine(l)) ==> Lasting(body)
    ensures (forall l :: l in Split(body, '\n') ==> !StartsWithDashes(TrimStart(l))) ==> Lasting(body)
  {
    var lines := Split(body, '\n');
    assert lines[0] in lines;
    if forall l :: l in lines ==> CleanLine(l) {
      CleanFront(body);
    }
    if forall l :: l in lines ==> !StartsWithDashes(TrimStart(l)) {
      UndashedFront(lines);
    }
  }

  lemma {:induction false} CleanFront(body: string)
    requires IsTrimmed(body) && CleanLine(Split(body, '\n')[0])
    ensures FrontHolds(Split(body, '\n'))
  {
    var lines := Split(body, '\n');
    EmptyHolds();
    if body != "" {
      FirstLine(body);
      assert TrimStart(lines[0]) == lines[0];
    }
  }

  lemma {:induction false} UndashedFront(lines: seq<string>)
    requires forall l :: l in lines ==> !StartsWithDashes(TrimStart(l))
    ensures FrontHolds(lines) && NoDashes(lines)
  {
    if lines != [] {
      assert lines == [lines[0]] + lines[1..];
      UndashedFront(lines[1..]);
      NoDashesCons(lines[0], lines[1..]);
      DashesUnindented(lines[0]);
    }
  }

  lemma {:induction false} DashesUnindented(line: string)
    ensures StartsWithDashes(line) ==> StartsWithDashes(TrimStart(line))
  {
  }

  // ── Whole files ──────────────────────────────────────────────────────────────

  /** What a reread gives for the entries up to `i`: those before it reread, and `i` itself but for its body. */
  predicate ReadsUpTo(es: seq<Entry>, i: nat, read: seq<Entry>)
    requires i < |es|
  {
    && i < |read| && (forall k :: 0 <= k < i ==> read[k] == Reread(es[k]))
    && read[i] == es[i].(body := read[i].body)
  }

  lemma {:induction false} ReadsCons(es: seq<Entry>, i: nat, later: seq<Entry>)
    requires 0 < i < |es| && ReadsUpTo(es[1..], i - 1, later)
    ensures ReadsUpTo(es, i, [Reread(es[0])] + later)
  {
    var read := [Reread(es[0])] + later;
    forall k | 0 <= k < i ensures read[k] == Reread(es[k]) {
      if k > 0 {
        assert es[1..][k - 1] == es[k] && read[k] == later[k - 1];
      }
    }
    assert es[1..][i - 1] == es[i] && read[i] == later[i - 1];
  }

  function ReadPrinted(f: Format, first: bool, es: seq<Entry>): seq<Entry> {
    ParseSections(f, Sections(Printed(f, HeadLines(first)[0] + "\n", es)))
  }

  lemma {:induction false} ReadFirst(f: Format, first: bool, es: seq<Entry>) returns (x: Entry, later: seq<Entry>)
    requires es != [] && Sound(f) && Readable(f, es[0]) && GoodText(es[0])
    ensures ReadPrinted(f, first, es) == [x] + later && x == es[0].(body := x.body)
    ensures NoDashes(Split(es[0].body, '\n')) ==> x == Reread(es[0]) && later == ReadPrinted(f, false, es[1..])
  {
    if NoDashes(Split(es[0].body, '\n')) {
      PrintedSplits(f, first, es);
      SectionReads(f, first, es[0]);
      SectionsCons(f, SectionText(f, first, es[0]), Sections(Printed(f, HeadLines(false)[0] + "\n", es[1..])));
      x, later := Reread(es[0]), ReadPrinted(f, false, es[1..]);
    } else {
      HeadText(f, first, es[0]);
      x, later := CutIsLost(f, first, es[0], Printed(f, "\n", es[1..]));
    }
  }

  lemma {:induction false} ReadsHead(es: seq<Entry>, x: Entry, later: seq<Entry>)
    requires es != [] && x == es[0].(body := x.body)
    ensures ReadsUpTo(es, 0, [x] + later)
  {
  }

  /** Where no earlier body has a separator line, an entry is read back at its place, whatever happens to its body. */
  lemma {:induction false} PrintedUpTo(f: Format, first: bool, es: seq<Entry>, i: nat)
    requires Sound(f) && (forall e :: e in es ==> Readable(f, e) && GoodText(e)) && i < |es|
    requires forall k :: 0 <= k < i ==> NoDashes(Split(es[k].body, '\n'))
    ensures ReadsUpTo(es, i, ReadPrinted(f, first, es))
    decreases |es|
  {
    assert es[0] in es;
    var x, later := ReadFirst(f, first, es);
    if i == 0 {
      ReadsHead(es, x, later);
    } else {
      PrintedUpTo(f, false, es[1..], i - 1);
      ReadsCons(es, i, later);
    }
  }

  /** The same for whole files of entries in the parser's shape. */
  lemma {:induction false} SavedUpTo(
    showTime: int -> string, parseTime: string -> Option<int>, alnum: char -> bool, es: seq<Entry>, i: nat)
    requires Sound(FileFormat(showTime, parseTime, alnum)) && (forall e :: e in es ==> Carried(e)) && i < |es|
    requires forall k :: 0 <= k < i ==> NoDashes(Split(es[k].body, '\n'))
    ensures var f := FileFormat(showTime, parseTime, alnum);
            ReadsUpTo(es, i, Parse(f, Serialize(f, es)))
  {
    var f := FileFormat(showTime, parseTime, alnum);
    forall e | e in es ensures Readable(f, e) && GoodText(e) {
      CarriedIsReadable(showTime, parseTime, alnum, e);
    }
    assert HeadLines(true)[0] + "\n" == "# Heartbeat\n";
    PrintedUpTo(f, true, es, i);
  }

  // ── A body that splits its section ───────────────────────────────────────────

  /** A section of a title alone. */
  function TitleSection(title: string): string {
    Terminated(["", "## " + title])
  }

  lemma {:induction false} TitleTrims(title: string)
    requires OneLine(title) && title != ""
    ensures Trim(TitleSection(title)) == "## " + title && LinesOf("## " + title) == ["## " + title]
  {
    var line := "## " + title;
    assert IsTrimmed(line) by {
      assert line[|line| - 1] == title[|title| - 1];
    }
    TitleText(title);
    TrimPadded("\n", line, "\n");
    LinesCons(line, "");
  }

  lemma {:induction false} TitleText(title: string)
    ensures TitleSection(title) == "\n" + ("## " + title) + "\n"
  {
    TerminatedConcat([""], ["## " + title]);
    TerminatedJoined([""]);
    TerminatedJoined(["## " + title]);
    assert [""] + ["## " + title] == ["", "## " + title];
    assert "" + "\n" == "\n";
    Assoc("\n", "## " + title, "\n");
  }

  lemma {:induction false} TitleReads(f: Format, title: string)
    requires OneLine(title) && title != ""
    ensures ParseSection(f, TitleSection(title)) == [Plain(title, "")]
  {
    var line := "## " + title;
    TitleTrims(title);
    TakeTitle(f, title);
    TakeSnoc(f, BLANK, [], line);
    assert [] + [line] == [line];
    TrimTrimmed("");
    assert Joined([]) == "";
  }

  /** The body of the first entry of the file below. */
  function SplitBody(title: string): string {
    Joined(["---", "## " + title])
  }

  lemma {:induction false} SplitBodyShape(title: string)
    requires OneLine(title) && title != ""
    ensures IsTrimmed(SplitBody(title)) && Split(SplitBody(title), '\n') == ["---", "## " + title]
    ensures FirstDashes(["---", "## " + title]) == 0 && SplitBody(title) == "---\n## " + title
  {
    var lines := ["---", "## " + title];
    assert lines[1..] == ["## " + title];
    assert Joined(lines) == "---" + "\n" + ("## " + title);
    SplitJoined(lines);
    assert SplitBody(title)[|SplitBody(title)| - 1] == title[|title| - 1];
  }

  lemma {:induction false} AfterDashes(f: Format, title: string, more: string, rest: string)
    requires OneLine(title) && title != ""
    requires "---" + more == Terminated(["---", "## " + title]) + "\n---" + rest
    ensures ParseSections(f, Sections(more)) == [Plain(title, "")] + ParseSections(f, Sections(rest))
  {
    var lines := ["", "## " + title];
    MoreText(title, more, rest);
    TitleIsPlain(title);
    JoinedBlank(lines);
    assert NoNewlines(lines + [""]) && NoDashes(lines + [""]);
    SectionEnds(lines + [""], rest);
    TitleReads(f, title);
    SectionsCons(f, TitleSection(title), Sections(rest));
  }

  lemma {:induction false} MoreText(title: string, more: string, rest: string)
    requires "---" + more == Terminated(["---", "## " + title]) + "\n---" + rest
    ensures more == Terminated(["", "## " + title] + [""]) + ("---" + rest)
  {
    var section := TitleSection(title);
    DashedText(title);
    JoinedBlank(["", "## " + title]);
    Assoc("---", section, "\n---");
    Assoc("---", section + "\n---", rest);
    assert ("---" + more)[3..] == more && ("---" + (section + "\n---" + rest))[3..] == section + "\n---" + rest;
    BreakText(section, rest);
  }

  lemma {:induction false} DashedText(title: string)
    ensures Terminated(["---", "## " + title]) == "---" + TitleSection(title)
  {
    var line := "## " + title;
    TerminatedConcat(["---"], [line]);
    TerminatedJoined(["---"]);
    TerminatedJoined([line]);
    assert ["---"] + [line] == ["---", line];
    TitleText(title);
    Assoc("---", "\n", line + "\n");
    Assoc("\n", line, "\n");
  }

  /** Saving an entry with that body writes a separator, and the title after it is read as an entry of its own. */
  lemma {:induction false} SplitSaved(f: Format, first: bool, x: Entry, es: seq<Entry>, title: string)
    requires Sound(f) && Readable(f, x) && GoodText(x) && OneLine(title) && title != "" && x.body == SplitBody(title)
    ensures ReadPrinted(f, first, [x] + es) == [x.(body := "")] + ([Plain(title, "")] + ReadPrinted(f, false, es))
  {
    var rest := Printed(f, "\n", es);
    PrintedHead(f, first, x, es);
    SplitBodyDashes(title);
    var more := CutParses(f, first, x, rest);
    AfterDashes(f, title, more, rest);
    NothingBefore(x, title);
    LaterPrinted(f, es);
  }

  lemma {:induction false} SplitBodyDashes(title: string)
    requires OneLine(title) && title != ""
    ensures var lines := Split(SplitBody(title), '\n');
            !NoDashes(lines) && lines[FirstDashes(lines)..] == ["---", "## " + title]
  {
    SplitBodyShape(title);
    assert "---" in ["---", "## " + title];
    assert ["---", "## " + title][0..] == ["---", "## " + title];
  }

  lemma {:induction false} PrintedHead(f: Format, first: bool, x: Entry, es: seq<Entry>)
    ensures ReadPrinted(f, first, [x] + es)
         == ParseSections(f, Sections(SectionText(f, first, x) + "\n---" + Printed(f, "\n", es)))
  {
    HeadText(f, first, x);
    assert ([x] + es)[1..] == es;
  }

  lemma {:induction false} LaterPrinted(f: Format, es: seq<Entry>)
    ensures ReadPrinted(f, false, es) == ParseSections(f, Sections(Printed(f, "\n", es)))
  {
    assert HeadLines(false)[0] + "\n" == "\n";
  }

  lemma {:induction false} NothingBefore(x: Entry, title: string)
    requires OneLine(title) && title != "" && x.body == SplitBody(title)
    ensures Reread(CutEntry(x)) == x.(body := "")
  {
    var lines := ["---", "## " + title];
    SplitBodyShape(title);
    assert lines[..0] == [];
    assert Joined(lines[..0]) == "" && BeforeDashes(x.body) == "";
  }

  /** A file of two entries, the body of the first with an indented separator line and a title after it. */
  function SplitFile(a: string, b: string, c: string): string {
    Terminated(PlainLines(a, ["  ---", "## " + b])) + ("---" + TitleSection(c))
  }

  lemma {:induction false} IndentedSplitBody(b: string)
    requires OneLine(b) && b != ""
    ensures FileBody(["  ---", "## " + b])
    ensures Trim(Joined(Kept(StripAll(["  ---", "## " + b])))) == SplitBody(b)
  {
    var lines := ["  ---", "## " + b];
    TitleIsPlain(b);
    assert ("## " + b)[|"## " + b| - 1] == b[|b| - 1];
    StripPlain(lines);
    KeptShrinks(lines);
    SplitBodyShape(b);
    assert lines[1..] == ["## " + b];
    assert Joined(lines) == "  " + SplitBody(b);
    TrimPadded("  ", SplitBody(b), "");
    assert "  " + SplitBody(b) + "" == "  " + SplitBody(b);
  }

  lemma {:induction false} SplitFileReads(f: Format, a: string, b: string, c: string)
    requires OneLine(a) && OneLine(b) && b != "" && OneLine(c) && c != ""
    ensures Parse(f, SplitFile(a, b, c)) == [Plain(a, SplitBody(b)), Plain(c, "")]
  {
    var lines := ["  ---", "## " + b];
    var ls := PlainLines(a, lines);
    IndentedSplitBody(b);
    PlainFileTrims(a, lines);
    PlainFileReads(f, a, lines);
    FirstSection(f, ls);
    PlainLinesPlain(a, lines);
    SectionEnds(ls, TitleSection(c));
    TitleFileReads(f, c);
    SectionsCons(f, Joined(ls), Sections(TitleSection(c)));
  }

  lemma {:induction false} PlainLinesPlain(title: string, lines: seq<string>)
    requires OneLine(title) && NoNewlines(lines) && NoDashes(lines)
    ensures NoNewlines(PlainLines(title, lines)) && NoDashes(PlainLines(title, lines))
  {
    TitleIsPlain(title);
  }

  lemma {:induction false} TitleFileReads(f: Format, title: string)
    requires OneLine(title) && title != ""
    ensures Parse(f, TitleSection(title)) == [Plain(title, "")]
  {
    TitleIsPlain(title);
    OneSection(["", "## " + title]);
    TitleReads(f, title);
    SectionsCons(f, TitleSection(title), []);
    assert [TitleSection(title)] + [] == [TitleSection(title)];
  }

  /** Without the newline at its end a section reads the same. */
  lemma {:induction false} FirstSection(f: Format, ls: seq<string>)
    requires Sections(Terminated(ls)) == [Terminated(ls)] && Trim(Terminated(ls)) == Joined(ls)
    ensures ParseSection(f, Joined(ls)) == Parse(f, Terminated(ls))
  {
    TrimIsTrimmed(Terminated(ls));
    SectionsCons(f, Terminated(ls), []);
    assert [Terminated(ls)] + [] == [Terminated(ls)];
  }
}
