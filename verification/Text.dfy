/** The string operations of the source's standard library that the model needs. */
module Text {
  import opened Prelude

  /** The Unicode White_Space property, which `trim` uses. */
  predicate IsSpace(c: char) {
    var n := c as int;
    || 0x09 <= n <= 0x0D
    || n in {0x20, 0x85, 0xA0, 0x1680, 0x2028, 0x2029, 0x202F, 0x205F, 0x3000}
    || 0x2000 <= n <= 0x200A
  }

  function TrimStart(s: string): string {
    if s != "" && IsSpace(s[0]) then TrimStart(s[1..]) else s
  }

  function TrimEnd(s: string): string {
    if s != "" && IsSpace(s[|s| - 1]) then TrimEnd(s[..|s| - 1]) else s
  }

  function Trim(s: string): string {
    TrimEnd(TrimStart(s))
  }

  /** No white space at either end. */
  predicate IsTrimmed(s: string) {
    s != "" ==> !IsSpace(s[0]) && !IsSpace(s[|s| - 1])
  }

  predicate AllSpace(s: string) {
    forall i :: 0 <= i < |s| ==> IsSpace(s[i])
  }

  lemma {:induction false} TrimStartPast(p: string, s: string)
    requires AllSpace(p)
    ensures TrimStart(p + s) == TrimStart(s)
  {
    if p == "" {
      assert p + s == s;
    } else {
      TrimStartPast(p[1..], s);
      assert (p + s)[1..] == p[1..] + s;
    }
  }

  lemma {:induction false} TrimEndPast(s: string, p: string)
    requires AllSpace(p)
    ensures TrimEnd(s + p) == TrimEnd(s)
  {
    if p == "" {
      assert s + p == s;
    } else {
      TrimEndPast(s, p[..|p| - 1]);
      assert (s + p)[..|s + p| - 1] == s + p[..|p| - 1];
    }
  }

  /** Surrounding white space is all that trimming removes. */
  lemma {:induction false} TrimPadded(left: string, s: string, right: string)
    requires AllSpace(left) && AllSpace(right) && IsTrimmed(s)
    ensures Trim(left + s + right) == s
  {
    TrimStartPast(left, s + right);
    assert left + s + right == left + (s + right);
    if s == "" {
      assert s + right == right + "";
      TrimStartPast(right, "");
    } else {
      assert TrimStart(s + right) == s + right;
      TrimEndPast(s, right);
    }
  }

  lemma {:induction false} TrimTrimmed(s: string)
    requires IsTrimmed(s)
    ensures Trim(s) == s
  {
    TrimPadded("", s, "");
    assert "" + s + "" == s;
  }

  lemma {:induction false} TrimEndSuffix(s: string)
    ensures TrimEnd(s) <= s
    ensures TrimEnd(s) != "" ==> !IsSpace(TrimEnd(s)[|TrimEnd(s)| - 1])
  {
    if s != "" && IsSpace(s[|s| - 1]) {
      TrimEndSuffix(s[..|s| - 1]);
    }
  }

  lemma {:induction false} TrimStartHead(s: string)
    ensures TrimStart(s) != "" ==> !IsSpace(TrimStart(s)[0])
  {
    if s != "" && IsSpace(s[0]) {
      TrimStartHead(s[1..]);
    }
  }

  /** What trimming returns is trimmed, so trimming twice is trimming once. */
  lemma {:induction false} TrimIsTrimmed(s: string)
    ensures IsTrimmed(Trim(s)) && Trim(Trim(s)) == Trim(s)
  {
    TrimStartHead(s);
    TrimEndSuffix(TrimStart(s));
    TrimTrimmed(Trim(s));
  }

  lemma {:induction false} TrimEndPadding(s: string) returns (padding: string)
    ensures s == TrimEnd(s) + padding && AllSpace(padding)
  {
    if s != "" && IsSpace(s[|s| - 1]) {
      var n := |s| - 1;
      var rest := TrimEndPadding(s[..n]);
      padding := rest + [s[n]];
      assert s == s[..n] + [s[n]];
      Assoc(TrimEnd(s[..n]), rest, [s[n]]);
    } else {
      padding := "";
    }
  }

  lemma {:induction false} TrimStartOfSpace(s: string)
    requires TrimStart(s) == ""
    ensures AllSpace(s)
  {
    if s != "" {
      TrimStartOfSpace(s[1..]);
      assert forall i :: 0 < i < |s| ==> s[i] == s[1..][i - 1];
    }
  }

  lemma {:induction false} TrimShrinks(s: string)
    ensures |Trim(s)| <= |s|
  {
    StartShrinks(s);
    TrimEndSuffix(TrimStart(s));
  }

  lemma {:induction false} StartShrinks(s: string)
    ensures |TrimStart(s)| <= |s|
  {
    if s != "" && IsSpace(s[0]) {
      StartShrinks(s[1..]);
    }
  }

  /** Text with a visible character does not trim to nothing. */
  lemma {:induction false} VisibleStays(s: string, i: nat)
    requires i < |s| && !IsSpace(s[i])
    ensures Trim(s) != ""
  {
    if TrimStart(s) == "" {
      TrimStartOfSpace(s);
    } else {
      TrimStartHead(s);
      var t := TrimStart(s);
      var padding := TrimEndPadding(t);
      assert TrimEnd(t) != "" || t == padding;
    }
  }

  /** ASCII lower case: `to_ascii_lowercase`, and `to_lowercase` on ASCII text. */
  function LowerChar(c: char): char {
    if 'A' <= c <= 'Z' then (c as int + 32) as char else c
  }

  function Lower(s: string): (r: string)
    ensures |r| == |s|
  {
    seq(|s|, i requires 0 <= i < |s| => LowerChar(s[i]))
  }

  /** The pieces of `s` between occurrences of `sep`; one more than there are separators. */
  function Split(s: string, sep: char): (pieces: seq<string>)
    ensures |pieces| > 0
  {
    var i := Find(s, sep);
    if i == |s| then [s] else [s[..i]] + Split(s[i + 1..], sep)
  }

  lemma {:induction false} SplitCons(first: string, sep: char, rest: string)
    requires sep !in first
    ensures Split(first, sep) == [first]
    ensures Split(first + [sep] + rest, sep) == [first] + Split(rest, sep)
  {
    FindAppend(first, sep, rest);
    assert (first + [sep] + rest)[..|first|] == first && (first + [sep] + rest)[|first| + 1..] == rest;
  }

  /** The lines of `ls`, each followed by a newline. */
  function Terminated(ls: seq<string>): string {
    if ls == [] then "" else ls[0] + "\n" + Terminated(ls[1..])
  }

  /** The lines of `ls`, with a newline between neighbours. */
  function Joined(ls: seq<string>): string {
    if ls == [] then "" else if |ls| == 1 then ls[0] else ls[0] + "\n" + Joined(ls[1..])
  }

  predicate NoNewlines(ls: seq<string>) {
    forall l :: l in ls ==> '\n' !in l
  }

  lemma {:induction false} TerminatedConcat(a: seq<string>, b: seq<string>)
    ensures Terminated(a + b) == Terminated(a) + Terminated(b)
  {
    if a == [] {
      assert a + b == b && "" + Terminated(b) == Terminated(b);
    } else {
      TerminatedConcat(a[1..], b);
      assert (a + b)[0] == a[0] && (a + b)[1..] == a[1..] + b;
      Assoc(a[0] + "\n", Terminated(a[1..]), Terminated(b));
    }
  }

  lemma {:induction false} TerminatedJoined(ls: seq<string>)
    requires ls != []
    ensures Terminated(ls) == Joined(ls) + "\n"
  {
    if |ls| == 1 {
      assert ls[1..] == [];
      assert ls[0] + "\n" + "" == ls[0] + "\n";
    } else {
      TerminatedJoined(ls[1..]);
      Assoc(ls[0] + "\n", Joined(ls[1..]), "\n");
    }
  }

  lemma {:induction false} TerminatedSnoc(ls: seq<string>, l: string)
    ensures Terminated(ls + [l]) == Terminated(ls) + (l + "\n")
  {
    TerminatedConcat(ls, [l]);
    TerminatedJoined([l]);
  }

  lemma {:induction false} JoinedConcat(a: seq<string>, b: seq<string>)
    requires a != [] && b != []
    ensures Joined(a + b) == Joined(a) + "\n" + Joined(b)
  {
    assert (a + b)[0] == a[0] && (a + b)[1..] == a[1..] + b;
    if |a| > 1 {
      JoinedConcat(a[1..], b);
      Assoc(a[0] + "\n", Joined(a[1..]) + "\n", Joined(b));
      Assoc(a[0] + "\n", Joined(a[1..]), "\n");
    } else {
      assert a[1..] + b == b;
    }
  }

  /** Lines without newlines are split off again as they were joined. */
  lemma {:induction false} SplitJoined(ls: seq<string>)
    requires ls != [] && NoNewlines(ls)
    ensures Split(Joined(ls), '\n') == ls
  {
    assert ls[0] in ls;
    if |ls| == 1 {
      SplitCons(ls[0], '\n', "");
    } else {
      var tail := ls[1..];
      SplitJoined(tail);
      SplitCons(ls[0], '\n', Joined(tail));
      assert Joined(ls) == ls[0] + ['\n'] + Joined(tail);
    }
  }

  /** Any text is the join of the lines it splits into. */
  lemma {:induction false} JoinedSplit(s: string)
    ensures Joined(Split(s, '\n')) == s && NoNewlines(Split(s, '\n'))
    decreases |s|
  {
    var i := Find(s, '\n');
    if i < |s| {
      var line, rest := s[..i], Split(s[i + 1..], '\n');
      JoinedSplit(s[i + 1..]);
      assert s == line + "\n" + s[i + 1..];
      assert ([line] + rest)[1..] == rest;
    }
  }

  /** `split_once`: what stands before and after the first `sep`. */
  function SplitOnce(s: string, sep: char): Option<(string, string)> {
    var i := Find(s, sep);
    if i == |s| then None else Some((s[..i], s[i + 1..]))
  }

  /** `split_whitespace`: the maximal runs without white space. */
  function Words(s: string): seq<string> {
    WordsFrom("", s)
  }

  function WordsFrom(word: string, s: string): seq<string>
    decreases |s|
  {
    if s == "" then (if word == "" then [] else [word])
    else if IsSpace(s[0]) then (if word == "" then [] else [word]) + WordsFrom("", s[1..])
    else WordsFrom(word + [s[0]], s[1..])
  }

  /** A word: some text without white space. */
  predicate IsVisible(word: string) {
    word != "" && forall c :: c in word ==> !IsSpace(c)
  }

  lemma {:induction false} WordsPastGap(gap: string, rest: string)
    requires AllSpace(gap)
    ensures Words(gap + rest) == Words(rest)
  {
    if gap == "" {
      assert gap + rest == rest;
    } else {
      WordsPastGap(gap[1..], rest);
      assert (gap + rest)[1..] == gap[1..] + rest;
    }
  }

  /** A word that white space or the end of the text follows is split off. */
  lemma {:induction false} WordsGrow(start: string, word: string, rest: string)
    requires start + word != "" && (forall c :: c in word ==> !IsSpace(c)) && (rest != "" ==> IsSpace(rest[0]))
    ensures WordsFrom(start, word + rest) == [start + word] + Words(rest)
    decreases |word|
  {
    if word == "" {
      assert start + word == start && word + rest == rest;
      if rest != "" {
        WordsPastGap(rest[..1], rest[1..]);
        assert rest[..1] + rest[1..] == rest;
      }
    } else {
      WordsGrow(start + [word[0]], word[1..], rest);
      assert start + [word[0]] + word[1..] == start + word;
      assert (word + rest)[1..] == word[1..] + rest;
    }
  }

  /** White space before, between and after `n` words. */
  predicate AreGaps(gaps: seq<string>, n: nat) {
    && |gaps| == n + 1 && (forall i :: 0 <= i <= n ==> AllSpace(gaps[i]))
    && forall i :: 0 < i < n ==> gaps[i] != ""
  }

  /** The words with the gaps before, between and after them. */
  function Spread(words: seq<string>, gaps: seq<string>): string
    requires |gaps| == |words| + 1
  {
    if words == [] then gaps[0] else gaps[0] + (words[0] + Spread(words[1..], gaps[1..]))
  }

  /** Words are read back whatever white space stands between and around them. */
  lemma {:induction false} WordsOfSpread(words: seq<string>, gaps: seq<string>)
    requires AreGaps(gaps, |words|) && forall i :: 0 <= i < |words| ==> IsVisible(words[i])
    ensures Words(Spread(words, gaps)) == words
  {
    if words == [] {
      WordsPastGap(gaps[0], "");
      assert gaps[0] + "" == gaps[0];
    } else {
      var rest := Spread(words[1..], gaps[1..]);
      WordsOfSpread(words[1..], gaps[1..]);
      SpreadStart(words[1..], gaps[1..]);
      WordsPastGap(gaps[0], words[0] + rest);
      WordsGrow("", words[0], rest);
      assert "" + words[0] == words[0] && [words[0]] + words[1..] == words;
    }
  }

  lemma {:induction false} SpreadStart(words: seq<string>, gaps: seq<string>)
    requires |gaps| == |words| + 1 && AllSpace(gaps[0]) && (words != [] ==> gaps[0] != "")
    ensures var text := Spread(words, gaps);
            text != "" ==> IsSpace(text[0])
  {
  }

  // ── Decimal numbers ──────────────────────────────────────────────────────────

  const U32_MAX: nat := 0xFFFF_FFFF

  function Digits(s: string): Option<nat> {
    if s == "" then Some(0)
    else
      var c := s[|s| - 1];
      match Digits(s[..|s| - 1])
      case None => None
      case Some(high) => if '0' <= c <= '9' then Some(10 * high + (c as int - '0' as int)) else None
  }

  /** `parse::<u32>`: digits after an optional plus sign, within 32 bits. */
  function ParseU32(s: string): Option<nat> {
    var digits := if s != "" && s[0] == '+' then s[1..] else s;
    match Digits(digits)
    case None => None
    case Some(n) => if digits != "" && n <= U32_MAX then Some(n) else None
  }

  function Digit(n: nat): char
    requires n < 10
  {
    ('0' as int + n) as char
  }

  function Decimal(n: nat): string {
    if n < 10 then [Digit(n)] else Decimal(n / 10) + [Digit(n % 10)]
  }

  lemma {:induction false} DigitsOfDecimal(n: nat)
    ensures Decimal(n) != "" && Digits(Decimal(n)) == Some(n)
    ensures forall c :: c in Decimal(n) ==> '0' <= c <= '9'
  {
    if n < 10 {
      assert [Digit(n)][..0] == "";
    } else {
      DigitsOfDecimal(n / 10);
      assert (Decimal(n / 10) + [Digit(n % 10)])[..|Decimal(n / 10)|] == Decimal(n / 10);
    }
  }

  /** A decimal numeral is read back, up to 32 bits. */
  lemma {:induction false} DecimalRoundTrip(n: nat)
    ensures ParseU32(Decimal(n)) == if n <= U32_MAX then Some(n) else None
  {
    DigitsOfDecimal(n);
    assert Decimal(n)[0] in Decimal(n);
  }
}
