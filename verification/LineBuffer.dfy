/** A line buffer fed by chunks, for any consumer of lines that may stop the stream. */
module LineBuffer {
  import opened Prelude

  /** A consumer: whether it still wants lines, and what it does with one. */
  datatype Consumer<!S> = Consumer(running: S -> bool, take: (S, string) -> S)

  datatype Buffered<S> = Buffered(state: S, buf: string)

  /** Consumes the complete lines of the buffer, up to one that ends the stream. */
  function Drain<S>(c: Consumer<S>, s: S, buf: string): Buffered<S>
    decreases |buf|
  {
    var nl := Find(buf, '\n');
    if !c.running(s) || nl == |buf| then Buffered(s, buf)
    else Drain(c, c.take(s, buf[..nl]), buf[nl + 1..])
  }

  function Feed<S>(c: Consumer<S>, b: Buffered<S>, chunks: seq<string>): Buffered<S>
    decreases |chunks|
  {
    if chunks == [] || !c.running(b.state) then b
    else Feed(c, Drain(c, b.state, b.buf + chunks[0]), chunks[1..])
  }

  function Concat(chunks: seq<string>): string {
    if chunks == [] then "" else chunks[0] + Concat(chunks[1..])
  }

  /** Draining in two pieces is draining at once. */
  lemma {:induction false} DrainSplit<S>(c: Consumer<S>, s: S, a: string, b: string)
    ensures var first := Drain(c, s, a);
            Drain(c, s, a + b).state ==
            if c.running(first.state) then Drain(c, first.state, first.buf + b).state else first.state
    decreases |a|
  {
    var nl := Find(a, '\n');
    if c.running(s) && nl < |a| {
      FindUnique(a + b, '\n', nl);
      assert (a + b)[..nl] == a[..nl] && (a + b)[nl + 1..] == a[nl + 1..] + b;
      DrainSplit(c, c.take(s, a[..nl]), a[nl + 1..], b);
    }
  }

  /** After draining, the buffer holds no newline while the stream runs. */
  lemma {:induction false} DrainLeavesPartial<S>(c: Consumer<S>, s: S, buf: string)
    ensures var d := Drain(c, s, buf);
            c.running(d.state) ==> Find(d.buf, '\n') == |d.buf|
    decreases |buf|
  {
    var nl := Find(buf, '\n');
    if c.running(s) && nl < |buf| {
      DrainLeavesPartial(c, c.take(s, buf[..nl]), buf[nl + 1..]);
    }
  }

  lemma {:induction false} FeedIsDrain<S>(c: Consumer<S>, b: Buffered<S>, chunks: seq<string>)
    requires c.running(b.state) ==> Find(b.buf, '\n') == |b.buf|
    ensures Feed(c, b, chunks).state == Drain(c, b.state, b.buf + Concat(chunks)).state
    decreases |chunks|
  {
    if chunks == [] {
      assert b.buf + "" == b.buf;
    } else if c.running(b.state) {
      var d := Drain(c, b.state, b.buf + chunks[0]);
      DrainLeavesPartial(c, b.state, b.buf + chunks[0]);
      FeedIsDrain(c, d, chunks[1..]);
      DrainSplit(c, b.state, b.buf + chunks[0], Concat(chunks[1..]));
      Assoc(b.buf, chunks[0], Concat(chunks[1..]));
    }
  }

  /** What every line keeps, the stream keeps. */
  lemma {:induction false} DrainKeeps<S(!new)>(c: Consumer<S>, s: S, buf: string, inv: S -> bool)
    requires inv(s) && forall t, line :: c.running(t) && inv(t) ==> inv(c.take(t, line))
    ensures inv(Drain(c, s, buf).state)
    decreases |buf|
  {
    var nl := Find(buf, '\n');
    if c.running(s) && nl < |buf| {
      DrainKeeps(c, c.take(s, buf[..nl]), buf[nl + 1..], inv);
    }
  }

  // ── Line endings ─────────────────────────────────────────────────────────────

  /** `text` with every line feed preceded by one more carriage return. */
  function ToCrLf(text: string): string {
    if text == "" then "" else (if text[0] == '\n' then "\r\n" else [text[0]]) + ToCrLf(text[1..])
  }

  lemma {:induction false} CrLfLine(line: string, rest: string)
    requires '\n' !in line
    ensures ToCrLf(line) == line
    ensures ToCrLf(line + "\n" + rest) == line + "\r" + "\n" + ToCrLf(rest)
  {
    if line == "" {
      assert ("" + "\n" + rest)[1..] == rest;
      assert "" + "\r" + "\n" + ToCrLf(rest) == "\r\n" + ToCrLf(rest);
    } else {
      CrLfLine(line[1..], rest);
      assert (line + "\n" + rest)[1..] == line[1..] + "\n" + rest;
    }
  }

  /** One complete line at the front of the buffer. */
  lemma {:induction false} DrainLine<S>(c: Consumer<S>, s: S, line: string, rest: string)
    requires c.running(s) && '\n' !in line
    ensures Drain(c, s, line + "\n" + rest) == Drain(c, c.take(s, line), rest)
  {
    var buf := line + "\n" + rest;
    FindUnique(buf, '\n', |line|);
    assert buf[..|line|] == line && buf[|line| + 1..] == rest;
  }

  lemma {:induction false} CrLfStep<S>(c: Consumer<S>, s: S, line: string, rest: string)
    requires c.running(s) && '\n' !in line && c.take(s, line + "\r") == c.take(s, line)
    ensures Drain(c, s, ToCrLf(line + "\n" + rest)) == Drain(c, c.take(s, line), ToCrLf(rest))
  {
    CrLfLine(line, rest);
    DrainLine(c, s, line + "\r", ToCrLf(rest));
  }

  /** A consumer that ignores a trailing carriage return does not see the difference. */
  lemma {:induction false} CrLfDrain<S(!new)>(c: Consumer<S>, s: S, text: string)
    requires forall t, line :: c.take(t, line + "\r") == c.take(t, line)
    ensures Drain(c, s, ToCrLf(text)).state == Drain(c, s, text).state
    decreases |text|
  {
    var nl := Find(text, '\n');
    if nl == |text| {
      CrLfLine(text, "");
    } else if c.running(s) {
      var line, rest := text[..nl], text[nl + 1..];
      assert text == line + "\n" + rest;
      CrLfStep(c, s, line, rest);
      DrainLine(c, s, line, rest);
      CrLfDrain(c, c.take(s, line), rest);
    }
  }
}
