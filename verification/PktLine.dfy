/**
 The pkt-line framing of git's protocol and the parser of ref commands in a
 push request: four hexadecimal digits of length, then the payload.
 */
module PktLine {
  import opened Prelude
  import opened Text

  newtype byte = x: int | 0 <= x < 256

  /** The UTF-8 codec, as far as the parser relies on it. */
  datatype Codec = Codec(decode: seq<byte> -> Option<string>, encode: string -> seq<byte>)

  /** Decoding undoes encoding, and only the character NUL encodes to a zero byte. */
  ghost predicate IsUtf8(c: Codec) {
    && (forall s :: c.decode(c.encode(s)) == Some(s))
    && (forall s :: '\0' !in s ==> 0 !in c.encode(s))
  }

  // ── Lengths ──────────────────────────────────────────────────────────────────

  function HexDigit(n: nat): byte
    requires n < 16
  {
    if n < 10 then (48 + n) as byte else (87 + n) as byte
  }

  /** The value of a hexadecimal digit of either case. */
  function HexValue(b: byte): Option<nat> {
    var n := b as int;
    if 48 <= n <= 57 then Some(n - 48)
    else if 97 <= n <= 102 then Some(n - 87)
    else if 65 <= n <= 70 then Some(n - 55)
    else None
  }

  /** Lower-case hexadecimal digits, without leading zeros. */
  function Hex(n: nat): seq<byte> {
    if n < 16 then [HexDigit(n)] else Hex(n / 16) + [HexDigit(n % 16)]
  }

  /** `{:04x}`: at least four digits, more when the number needs them. */
  function Hex4(n: nat): seq<byte> {
    var digits := Hex(n);
    if |digits| >= 4 then digits else seq(4 - |digits|, _ => 48) + digits
  }

  /** The number some hexadecimal digits write. */
  function HexNumber(digits: seq<byte>): Option<nat> {
    if digits == [] then Some(0)
    else
      match (HexNumber(digits[..|digits| - 1]), HexValue(digits[|digits| - 1]))
      case (Some(high), Some(low)) => Some(0x10 * high + low)
      case _ => None
  }

  /** `from_str_radix` with radix 16 on four bytes: takes a leading plus sign, unreadable bytes count as 0. */
  function ReadLength(body: seq<byte>, pos: nat): nat
    requires pos + 4 <= |body|
  {
    var text := body[pos..pos + 4];
    match HexNumber(if text[0] == 43 then text[1..] else text)
    case None => 0
    case Some(n) => n
  }

  method EncodePktLine(data: seq<byte>) returns (out: seq<byte>)
    ensures out == Framed(data)
  {
    var len := |data| + 4;
    out := Hex4(len);
    out := out + data;
  }

  function Framed(data: seq<byte>): seq<byte> {
    Hex4(|data| + 4) + data
  }

  const FLUSH: seq<byte> := [48, 48, 48, 48]

  // ── Commands ─────────────────────────────────────────────────────────────────

  datatype RefCommand = RefCommand(oldId: string, newId: string, refname: string)

  /** `splitn(3, ' ')`, when it yields three parts. */
  function SplitCommand(s: string): Option<RefCommand> {
    var i := Find(s, ' ');
    if i == |s| then None
    else
      var rest := s[i + 1..];
      var j := Find(rest, ' ');
      if j == |rest| then None else Some(RefCommand(s[..i], rest[..j], rest[j + 1..]))
  }

  /** The command in one payload, if it holds one. */
  function CommandOf(c: Codec, data: seq<byte>): seq<RefCommand> {
    match c.decode(data[..Find(data, 0)])
    case None => []
    case Some(s) =>
      match SplitCommand(Trim(s))
      case None => []
      case Some(command) => [command]
  }

  /** How packets are read: the length field at a position, and what a payload stands for. */
  datatype Reader = Reader(length: (seq<byte>, nat) -> nat, payload: seq<byte> -> seq<RefCommand>)

  function LengthField(body: seq<byte>, pos: nat): nat {
    if pos + 4 <= |body| then ReadLength(body, pos) else 0
  }

  /** The reading the parser uses. */
  function Reading(c: Codec): Reader {
    Reader(LengthField, (data: seq<byte>) => CommandOf(c, data))
  }

  /** The readings of the packets from `pos` on, up to a flush or to where the framing breaks. */
  function Commands(r: Reader, body: seq<byte>, pos: nat): seq<RefCommand>
    requires pos <= |body|
    decreases |body| - pos
  {
    if pos + 4 > |body| then []
    else
      var n := r.length(body, pos);
      if n < 4 || pos + n > |body| then [] else r.payload(body[pos + 4..pos + n]) + Commands(r, body, pos + n)
  }

  /** Any bytes at all: the parser terminates and every slice is in range. */
  method ParseFrames(r: Reader, body: seq<byte>) returns (refs: seq<RefCommand>)
    ensures refs == Commands(r, body, 0)
  {
    refs := [];
    var pos := 0;
    ghost var rest := Commands(r, body, 0);
    while pos + 4 <= |body|
      invariant 0 <= pos <= |body|
      invariant rest == Commands(r, body, pos) && refs + rest == Commands(r, body, 0)
      decreases |body| - pos
    {
      var pktLen := r.length(body, pos);
      if pktLen == 0 {
        break;
      }
      if pktLen < 4 || pos + pktLen > |body| {
        break;
      }
      var found := r.payload(body[pos + 4..pos + pktLen]);
      rest := Commands(r, body, pos + pktLen);
      Assoc(refs, found, rest);
      refs := refs + found;
      pos := pos + pktLen;
    }
    assert rest == [] && refs + [] == refs;
  }

  method ParseRefCommands(c: Codec, body: seq<byte>) returns (refs: seq<RefCommand>)
    ensures refs == Commands(Reading(c), body, 0)
  {
    refs := ParseFrames(Reading(c), body);
  }

  // ── The round trip ───────────────────────────────────────────────────────────

  lemma {:induction false} Hex4Digits(n: nat)
    requires n <= 0xFFFF
    ensures Hex4(n) == [HexDigit(n / 0x1000), HexDigit(n / 0x100 % 0x10), HexDigit(n / 0x10 % 0x10), HexDigit(n % 0x10)]
  {
    if n >= 0x10 {
      var m := n / 0x10;
      assert Hex(n) == Hex(m) + [HexDigit(n % 0x10)];
      assert m / 0x10 == n / 0x100 && m / 0x100 == n / 0x1000;
      if m >= 0x10 {
        var k := m / 0x10;
        assert Hex(m) == Hex(k) + [HexDigit(m % 0x10)];
        assert k / 0x10 == n / 0x1000;
        if k >= 0x10 {
          assert Hex(k) == Hex(k / 0x10) + [HexDigit(k % 0x10)];
          assert Hex(k / 0x10) == [HexDigit(k / 0x10)];
        } else {
          assert Hex(k) == [HexDigit(k)];
        }
      } else {
        assert Hex(m) == [HexDigit(m)];
      }
    } else {
      assert Hex(n) == [HexDigit(n)];
    }
  }

  lemma {:induction false} DigitValue(n: nat)
    requires n < 16
    ensures HexValue(HexDigit(n)) == Some(n) && HexDigit(n) != 43
  {
  }

  lemma {:induction false} Hex4Width(n: nat)
    ensures |Hex4(n)| >= 4
  {
  }

  lemma {:induction false} HexSnoc(digits: seq<byte>, n: nat, high: nat)
    requires n < 16 && HexNumber(digits) == Some(high)
    ensures HexNumber(digits + [HexDigit(n)]) == Some(0x10 * high + n)
  {
    DigitValue(n);
    assert (digits + [HexDigit(n)])[..|digits|] == digits;
  }

  lemma {:induction false} ReadDigits(a: nat, b: nat, c: nat, d: nat, rest: seq<byte>)
    requires a < 16 && b < 16 && c < 16 && d < 16
    ensures ReadLength([HexDigit(a), HexDigit(b), HexDigit(c), HexDigit(d)] + rest, 0) ==
              0x1000 * a + 0x100 * b + 0x10 * c + d
  {
    var digits := [HexDigit(a), HexDigit(b), HexDigit(c), HexDigit(d)];
    HexSnoc([], a, 0);
    assert [] + [HexDigit(a)] == digits[..1];
    HexSnoc(digits[..1], b, a);
    assert digits[..1] + [HexDigit(b)] == digits[..2];
    HexSnoc(digits[..2], c, 0x10 * a + b);
    assert digits[..2] + [HexDigit(c)] == digits[..3];
    HexSnoc(digits[..3], d, 0x100 * a + 0x10 * b + c);
    assert digits[..3] + [HexDigit(d)] == digits;
    DigitValue(a);
    assert (digits + rest)[0..4] == digits;
  }

  lemma {:induction false} DigitSum(n: nat)
    requires n <= 0xFFFF
    ensures n == 0x1000 * (n / 0x1000) + 0x100 * (n / 0x100 % 0x10) + 0x10 * (n / 0x10 % 0x10) + n % 0x10
    ensures n / 0x1000 < 16
  {
    var m := n / 0x10;
    assert m / 0x10 == n / 0x100 && m / 0x10 / 0x10 == n / 0x1000;
  }

  lemma {:induction false} ReadBound(body: seq<byte>, pos: nat)
    requires pos + 4 <= |body|
    ensures ReadLength(body, pos) <= 0xFFFF
  {
    var text := body[pos..pos + 4];
    HexBound(text);
    HexBound(text[1..]);
  }

  lemma {:induction false} HexBound(digits: seq<byte>)
    requires |digits| <= 4
    ensures HexNumber(digits).Some? ==>
              HexNumber(digits).value < if |digits| == 4 then 0x10000 else if |digits| == 3 then 0x1000
                                        else if |digits| == 2 then 0x100 else if |digits| == 1 then 0x10 else 1
  {
    if digits != [] {
      HexBound(digits[..|digits| - 1]);
    }
  }

  /** A length is read back from the four bytes where it was written exactly when it fits them. */
  lemma {:induction false} LengthRoundTrip(n: nat, rest: seq<byte>)
    requires n >= 4
    ensures |Hex4(n) + rest| >= 4
    ensures ReadLength(Hex4(n) + rest, 0) == n <==> n <= 0xFFFF
    ensures n <= 0xFFFF ==> |Hex4(n)| == 4
  {
    Hex4Width(n);
    if n <= 0xFFFF {
      Hex4Digits(n);
      DigitSum(n);
      ReadDigits(n / 0x1000, n / 0x100 % 0x10, n / 0x10 % 0x10, n % 0x10, rest);
    } else {
      ReadBound(Hex4(n) + rest, 0);
    }
  }

  /** A command line as a client sends it: the command, white space after it, capabilities after a NUL. */
  datatype CommandLine = CommandLine(command: RefCommand, padding: string, capabilities: Option<seq<byte>>)

  function TextOf(r: RefCommand): string {
    r.oldId + " " + r.newId + " " + r.refname
  }

  function Payload(c: Codec, l: CommandLine): seq<byte> {
    c.encode(TextOf(l.command) + l.padding) + (if l.capabilities.Some? then [0] + l.capabilities.value else [])
  }

  /** A command the format can carry: no NUL, no space inside the ids, no white space at either end. */
  predicate Carries(l: CommandLine) {
    var r := l.command;
    && '\0' !in TextOf(r) + l.padding && AllSpace(l.padding)
    && ' ' !in r.oldId && ' ' !in r.newId
    && r.oldId != "" && !IsSpace(r.oldId[0])
    && r.refname != "" && !IsSpace(r.refname[|r.refname| - 1])
  }

  lemma {:induction false} FirstBlank(a: string, b: string)
    requires ' ' !in a
    ensures var s := a + [' '] + b;
            Find(s, ' ') == |a| < |s| && s[..|a|] == a && s[|a| + 1..] == b
  {
    FindAppend(a, ' ', b);
  }

  lemma {:induction false} SplitText(r: RefCommand)
    requires ' ' !in r.oldId && ' ' !in r.newId
    ensures SplitCommand(TextOf(r)) == Some(r)
  {
    var rest := r.newId + [' '] + r.refname;
    Assoc(r.oldId + [' '], r.newId + [' '], r.refname);
    Assoc(r.oldId + [' '], r.newId, [' ']);
    FirstBlank(r.oldId, rest);
    FirstBlank(r.newId, r.refname);
  }

  lemma {:induction false} TextStripped(c: Codec, l: CommandLine)
    requires IsUtf8(c) && Carries(l)
    ensures var data := Payload(c, l);
            data[..Find(data, 0)] == c.encode(TextOf(l.command) + l.padding)
  {
    var text := c.encode(TextOf(l.command) + l.padding);
    var more := if l.capabilities.Some? then l.capabilities.value else [];
    FindAppend(text, 0, more);
    if l.capabilities.Some? {
      assert Payload(c, l) == text + [0] + more;
    } else {
      assert Payload(c, l) == text;
    }
  }

  /** A payload yields its command, whatever the capabilities and with or without a newline. */
  lemma {:induction false} PayloadRoundTrip(c: Codec, l: CommandLine)
    requires IsUtf8(c) && Carries(l)
    ensures CommandOf(c, Payload(c, l)) == [l.command]
  {
    var r := l.command;
    TextStripped(c, l);
    assert IsTrimmed(TextOf(r));
    TrimPadded("", TextOf(r), l.padding);
    assert "" + TextOf(r) + l.padding == TextOf(r) + l.padding;
    SplitText(r);
  }

  function Stream(c: Codec, ls: seq<CommandLine>, pack: seq<byte>): seq<byte> {
    if ls == [] then FLUSH + pack else Framed(Payload(c, ls[0])) + Stream(c, ls[1..], pack)
  }

  function CommandsOf(ls: seq<CommandLine>): seq<RefCommand> {
    seq(|ls|, i requires 0 <= i < |ls| => ls[i].command)
  }

  lemma {:induction false} CommandsCons(ls: seq<CommandLine>)
    requires ls != []
    ensures CommandsOf(ls) == [ls[0].command] + CommandsOf(ls[1..])
  {
  }

  lemma {:induction false} LengthShifted(front: seq<byte>, body: seq<byte>, pos: nat)
    ensures LengthField(front + body, |front| + pos) == LengthField(body, pos)
  {
    if pos + 4 <= |body| {
      assert (front + body)[|front| + pos..|front| + pos + 4] == body[pos..pos + 4];
    }
  }

  lemma {:induction false} Shifted(r: Reader, front: seq<byte>, body: seq<byte>, pos: nat)
    requires pos <= |body| && forall p: nat :: r.length(front + body, |front| + p) == r.length(body, p)
    ensures Commands(r, front + body, |front| + pos) == Commands(r, body, pos)
    decreases |body| - pos
  {
    if pos + 4 <= |body| {
      var n, at := r.length(body, pos), |front| + pos;
      assert r.length(front + body, at) == n;
      if 4 <= n && pos + n <= |body| {
        assert (front + body)[at + 4..at + n] == body[pos + 4..pos + n];
        Shifted(r, front, body, pos + n);
      }
    }
  }

  /** A framed payload is read first, and then what follows it. */
  lemma {:induction false} FirstFrame(c: Codec, data: seq<byte>, rest: seq<byte>)
    requires |data| + 4 <= 0xFFFF
    ensures Commands(Reading(c), Framed(data) + rest, 0) == CommandOf(c, data) + Commands(Reading(c), rest, 0)
  {
    var r, n, body := Reading(c), |data| + 4, Framed(data) + rest;
    FramingExact(data, rest);
    LengthRoundTrip(n, data + rest);
    assert body[4..n] == data && |Framed(data)| == n;
    forall p: nat ensures r.length(body, |Framed(data)| + p) == r.length(rest, p) {
      LengthShifted(Framed(data), rest, p);
    }
    Shifted(r, Framed(data), rest, 0);
    FirstPacket(r, body, n);
  }

  lemma {:induction false} FirstPacket(r: Reader, body: seq<byte>, n: nat)
    requires 4 <= n <= |body| && r.length(body, 0) == n
    ensures Commands(r, body, 0) == r.payload(body[4..n]) + Commands(r, body, n)
  {
  }

  lemma {:induction false} NoPacket(r: Reader, body: seq<byte>)
    requires |body| >= 4 ==> r.length(body, 0) < 4
    ensures Commands(r, body, 0) == []
  {
  }

  /** Commands framed as pkt-lines, then a flush, then any pack bytes, parse as exactly those commands. */
  lemma {:induction false} PushRoundTrip(c: Codec, ls: seq<CommandLine>, pack: seq<byte>)
    requires IsUtf8(c)
    requires forall l :: l in ls ==> Carries(l) && |Payload(c, l)| + 4 <= 0xFFFF
    ensures Commands(Reading(c), Stream(c, ls, pack), 0) == CommandsOf(ls)
  {
    if ls == [] {
      ReadDigits(0, 0, 0, 0, pack);
      assert [HexDigit(0), HexDigit(0), HexDigit(0), HexDigit(0)] == FLUSH;
      NoPacket(Reading(c), FLUSH + pack);
    } else {
      FirstFrame(c, Payload(c, ls[0]), Stream(c, ls[1..], pack));
      PayloadRoundTrip(c, ls[0]);
      PushRoundTrip(c, ls[1..], pack);
      CommandsCons(ls);
    }
  }

  /** Framing is read back exactly when the length fits its four digits. */
  lemma {:induction false} FramingExact(data: seq<byte>, rest: seq<byte>)
    ensures |Framed(data) + rest| >= 4
    ensures ReadLength(Framed(data) + rest, 0) == |data| + 4 <==> |data| + 4 <= 0xFFFF
  {
    assert Framed(data) + rest == Hex4(|data| + 4) + (data + rest);
    LengthRoundTrip(|data| + 4, data + rest);
  }
}
