/** Cron expressions: the field parser, what a parsed field selects, and when an expression matches. */
module Cron {
  import opened Prelude
  import opened Text

  datatype CronError =
    | EmptySegment | InvalidStep | ZeroStep | InvalidValue | InvalidRange | OutOfRange | EmptySet | FieldCount

  /** How a field reads a single value. */
  datatype Kind = PlainNumber | MonthName | DayName

  function MonthNumber(name: string): Option<nat> {
    match name
    case "jan" => Some(1) case "feb" => Some(2) case "mar" => Some(3) case "apr" => Some(4)
    case "may" => Some(5) case "jun" => Some(6) case "jul" => Some(7) case "aug" => Some(8)
    case "sep" => Some(9) case "oct" => Some(10) case "nov" => Some(11) case "dec" => Some(12)
    case other => ParseU32(other)
  }

  function DayNumber(name: string): Option<nat> {
    match name
    case "sun" => Some(0) case "mon" => Some(1) case "tue" => Some(2) case "wed" => Some(3)
    case "thu" => Some(4) case "fri" => Some(5) case "sat" => Some(6)
    case other => ParseU32(other)
  }

  function ValueOf(kind: Kind, text: string): Option<nat> {
    match kind
    case PlainNumber => ParseU32(text)
    case MonthName => MonthNumber(Lower(Trim(text)))
    case DayName => DayNumber(Lower(Trim(text)))
  }

  /** A comma part that parsed: the values `start`, `start + step`, … up to `end`. */
  datatype Part = Part(start: nat, end: nat, step: nat)

  predicate Selects(p: Part, v: nat) {
    p.step > 0 && p.start <= v <= p.end && (v - p.start) % p.step == 0
  }

  /** The step after the first slash; 1 when there is none. */
  function StepOf(part: string): Result<nat, CronError> {
    match SplitOnce(part, '/')
    case None => Ok(1)
    case Some((_, text)) =>
      match ParseU32(Trim(text))
      case None => Err(InvalidStep)
      case Some(step) => if step == 0 then Err(ZeroStep) else Ok(step)
  }

  function BaseOf(part: string): string {
    match SplitOnce(part, '/')
    case None => part
    case Some((base, _)) => Trim(base)
  }

  /** First and last value of a part's base. */
  function RangeOf(base: string, min: nat, max: nat, kind: Kind): Result<(nat, nat), CronError> {
    if base == "*" then Ok((min, max))
    else
      match SplitOnce(base, '-')
      case None =>
        (match ValueOf(kind, base)
         case None => Err(InvalidValue)
         case Some(v) => Ok((v, v)))
      case Some((first, last)) =>
        match (ValueOf(kind, Trim(first)), ValueOf(kind, Trim(last)))
        case (Some(start), Some(end)) => if start > end then Err(InvalidRange) else Ok((start, end))
        case _ => Err(InvalidValue)
  }

  function ParsePart(text: string, min: nat, max: nat, kind: Kind): Result<Part, CronError> {
    var part := Trim(text);
    if part == "" then Err(EmptySegment)
    else
      match StepOf(part)
      case Err(e) => Err(e)
      case Ok(step) =>
        match RangeOf(BaseOf(part), min, max, kind)
        case Err(e) => Err(e)
        case Ok((start, end)) => if start < min || end > max then Err(OutOfRange) else Ok(Part(start, end, step))
  }

  function PartReader(min: nat, max: nat, kind: Kind): string -> Result<Part, CronError> {
    (text: string) => ParsePart(text, min, max, kind)
  }

  predicate AnySelects(parts: seq<Part>, v: nat) {
    exists p :: p in parts && Selects(p, v)
  }

  function Flags(parts: seq<Part>, max: nat): seq<bool> {
    seq(max + 1, v requires 0 <= v <= max => AnySelects(parts, v))
  }

  /** What a field parses to: one flag per value up to the largest. */
  function ParseField(read: string -> Result<Part, CronError>, spec: string,
                      max: nat): (r: Result<seq<bool>, CronError>)
    ensures r.Ok? ==> |r.value| == max + 1
  {
    match Traverse(read, Split(spec, ','))
    case Err(e) => Err(e)
    case Ok(parts) => Ok(Flags(parts, max))
  }

  // ── As the program runs it ───────────────────────────────────────────────────

  lemma {:induction false} AtLeastOne(d: nat, step: nat)
    requires d > 0
    ensures d * step >= step
  {
    assert d * step == (d - 1) * step + step;
  }

  lemma {:induction false} DivisionIsUnique(a: nat, step: nat, q: nat, r: nat)
    requires step > 0 && a == q * step + r && r < step
    ensures a % step == r
  {
    var p, t := a / step, a % step;
    assert a == p * step + t;
    assert (q - p) * step == q * step - p * step == t - r;
    assert (p - q) * step == r - t;
    if q > p {
      AtLeastOne(q - p, step);
    } else if p > q {
      AtLeastOne(p - q, step);
    }
  }

  /** From one multiple to the next: none between, and the next is one. */
  lemma {:induction false} NextMultiple(a: nat, step: nat, v: nat)
    requires step > 0 && a % step == 0 && a < v <= a + step
    ensures v % step == 0 <==> v == a + step
  {
    var q := a / step;
    assert a == q * step + 0;
    if v == a + step {
      assert (q + 1) * step == q * step + step;
      DivisionIsUnique(v, step, q + 1, 0);
    } else {
      DivisionIsUnique(v, step, q, v - a);
    }
  }

  /** The stepping loop: sets the flags of the part's values, and no others. */
  method MarkPart(flags: array<bool>, p: Part)
    requires p.step > 0 && p.start <= p.end < flags.Length <= U32_MAX
    modifies flags
    ensures forall v :: 0 <= v < flags.Length ==> (flags[v] <==> old(flags[v]) || Selects(p, v))
  {
    var value := p.start;
    while value <= p.end
      invariant p.start <= value && (value - p.start) % p.step == 0
      invariant forall v :: 0 <= v < flags.Length ==>
                  (flags[v] <==> old(flags[v]) || (Selects(p, v) && v < value))
      decreases p.end + 1 - value
    {
      flags[value] := true;
      var next := value + p.step;
      forall v: nat | value < v < next ensures !Selects(p, v) {
        if v <= p.end {
          NextMultiple(value - p.start, p.step, v - p.start);
        }
      }
      if next > U32_MAX {
        break;
      }
      NextMultiple(value - p.start, p.step, next - p.start);
      value := next;
    }
  }

  /** A part as the program relies on it: in range, with a step. */
  predicate InRange(p: Part, min: nat, max: nat) {
    min <= p.start <= p.end <= max && 0 < p.step <= U32_MAX
  }

  lemma {:induction false} ParsedInRange(text: string, min: nat, max: nat, kind: Kind)
    requires min <= max && ParsePart(text, min, max, kind).Ok?
    ensures InRange(ParsePart(text, min, max, kind).value, min, max)
  {
  }

  /** The flags of the values some part selects are set, and no others. */
  predicate Marked(flags: array<bool>, parts: seq<Part>)
    reads flags
  {
    forall v :: 0 <= v < flags.Length ==> (flags[v] <==> AnySelects(parts, v))
  }

  method AddPart(flags: array<bool>, ghost parts: seq<Part>, p: Part)
    requires p.step > 0 && p.start <= p.end < flags.Length <= U32_MAX && Marked(flags, parts)
    modifies flags
    ensures Marked(flags, parts + [p])
  {
    MarkPart(flags, p);
    forall v: nat | v < flags.Length ensures flags[v] <==> AnySelects(parts + [p], v) {
      SelectsSnoc(parts, p, v);
    }
  }

  /** `parse_cron_field` over any reading of its comma parts. */
  method MarkField(read: string -> Result<Part, CronError>, spec: string, min: nat, max: nat)
    returns (r: Result<seq<bool>, CronError>)
    requires min <= max < U32_MAX
    requires forall text :: read(text).Ok? ==> InRange(read(text).value, min, max)
    ensures r == ParseField(read, spec, max)
  {
    var flags := new bool[max + 1](_ => false);
    var texts := Split(spec, ',');
    ghost var parts: seq<Part> := [];
    for k := 0 to |texts|
      invariant Traverse(read, texts[..k]) == Ok(parts)
      invariant k > 0 ==> parts != [] && InRange(parts[0], min, max)
      invariant Marked(flags, parts)
    {
      var part := read(texts[k]);
      ReadNext(read, texts, k, parts);
      if part.Err? {
        return Err(part.error);
      }
      AddPart(flags, parts, part.value);
      parts := parts + [part.value];
    }
    assert texts[..|texts|] == texts;
    FirstSelected(parts, min, max);
    assert flags[parts[0].start];
    if forall v :: min <= v <= max ==> !flags[v] {
      return Err(EmptySet);
    }
    MarkedFlags(flags[..], parts, max);
    return Ok(flags[..]);
  }

  lemma {:induction false} ReadNext<A, B, E>(f: A -> Result<B, E>, xs: seq<A>, k: nat, ys: seq<B>)
    requires k < |xs| && Traverse(f, xs[..k]) == Ok(ys)
    ensures match f(xs[k])
            case Err(e) => Traverse(f, xs) == Err(e)
            case Ok(y) => Traverse(f, xs[..k + 1]) == Ok(ys + [y])
  {
    assert xs[..k + 1] == xs[..k] + [xs[k]];
    TraverseSnoc(f, xs[..k], xs[k]);
    TraverseOk(f, xs[..k]);
    if f(xs[k]).Err? {
      forall j | 0 <= j < k ensures f(xs[j]).Ok? {
        assert xs[..k][j] == xs[j];
      }
      TraverseErr(f, xs, k);
    }
  }

  lemma {:induction false} MarkedFlags(flags: seq<bool>, parts: seq<Part>, max: nat)
    requires |flags| == max + 1 && forall v :: 0 <= v <= max ==> (flags[v] <==> AnySelects(parts, v))
    ensures flags == Flags(parts, max)
  {
  }

  lemma {:induction false} FirstSelected(parts: seq<Part>, min: nat, max: nat)
    requires parts != [] && InRange(parts[0], min, max)
    ensures AnySelects(parts, parts[0].start)
  {
    assert Selects(parts[0], parts[0].start);
  }

  method ParseCronField(spec: string, min: nat, max: nat, kind: Kind) returns (r: Result<seq<bool>, CronError>)
    requires min <= max < U32_MAX
    ensures r == ParseField(PartReader(min, max, kind), spec, max)
  {
    var read := PartReader(min, max, kind);
    forall text | read(text).Ok? ensures InRange(read(text).value, min, max) {
      ParsedInRange(text, min, max, kind);
    }
    r := MarkField(read, spec, min, max);
  }

  lemma {:induction false} SelectsSnoc(parts: seq<Part>, p: Part, v: nat)
    ensures AnySelects(parts + [p], v) <==> AnySelects(parts, v) || Selects(p, v)
  {
    assert p in parts + [p];
    forall q | q in parts ensures q in parts + [p] {
    }
  }

  // ── What a field means ───────────────────────────────────────────────────────

  /**
   A field parses exactly when each of its comma parts does; otherwise its
   error is that of the first bad part `k`, and never the "empty set" error.
   */
  lemma {:induction false} FieldParses(spec: string, min: nat, max: nat, kind: Kind) returns (k: nat)
    ensures var r, texts := ParseField(PartReader(min, max, kind), spec, max), Split(spec, ',');
            && k <= |texts|
            && (forall j :: 0 <= j < k ==> ParsePart(texts[j], min, max, kind).Ok?)
            && (if k == |texts| then r.Ok?
                else r.Err? && r.error != EmptySet && ParsePart(texts[k], min, max, kind) == Err(r.error))
  {
    var read, texts := PartReader(min, max, kind), Split(spec, ',');
    TraverseOk(read, texts);
    if Traverse(read, texts).Err? {
      k := FirstBad(read, texts, |texts|);
      TraverseErr(read, texts, k);
      PartError(texts[k], min, max, kind);
    } else {
      k := |texts|;
    }
    forall j | 0 <= j < k ensures ParsePart(texts[j], min, max, kind).Ok? {
      assert read(texts[j]).Ok?;
    }
  }

  lemma {:induction false} FirstBad<A, B, E>(f: A -> Result<B, E>, xs: seq<A>, n: nat) returns (k: nat)
    requires n <= |xs| && exists j :: 0 <= j < n && f(xs[j]).Err?
    ensures k < n && f(xs[k]).Err? && forall j :: 0 <= j < k ==> f(xs[j]).Ok?
  {
    if exists j :: 0 <= j < n - 1 && f(xs[j]).Err? {
      k := FirstBad(f, xs, n - 1);
    } else {
      k := n - 1;
    }
  }

  /** In a field that parses, flag `v` is set exactly when some part selects `v`; some flag in range is set. */
  lemma {:induction false} FieldSelects(spec: string, min: nat, max: nat, kind: Kind)
    requires min <= max && ParseField(PartReader(min, max, kind), spec, max).Ok?
    ensures var flags, texts := ParseField(PartReader(min, max, kind), spec, max).value, Split(spec, ',');
            && |flags| == max + 1
            && (forall k :: 0 <= k < |texts| ==> ParsePart(texts[k], min, max, kind).Ok?)
            && (forall v: nat :: v <= max ==>
                  (flags[v] <==> exists k :: 0 <= k < |texts| && Selects(ParsePart(texts[k], min, max, kind).value, v)))
            && exists v :: min <= v <= max && flags[v]
  {
    var read, texts := PartReader(min, max, kind), Split(spec, ',');
    TraverseOk(read, texts);
    var parts := Traverse(read, texts).value;
    forall k | 0 <= k < |texts| ensures ParsePart(texts[k], min, max, kind) == Ok(parts[k]) {
      assert read(texts[k]) == Ok(parts[k]);
    }
    forall v: nat | v <= max
      ensures AnySelects(parts, v) <==>
                exists k :: 0 <= k < |texts| && Selects(ParsePart(texts[k], min, max, kind).value, v)
    {
      AnySelectsAt(parts, v);
    }
    ParsedInRange(texts[0], min, max, kind);
    FirstSelected(parts, min, max);
    assert Flags(parts, max)[parts[0].start];
  }

  lemma {:induction false} AnySelectsAt(parts: seq<Part>, v: nat)
    ensures AnySelects(parts, v) <==> exists k :: 0 <= k < |parts| && Selects(parts[k], v)
  {
  }

  lemma {:induction false} PartError(text: string, min: nat, max: nat, kind: Kind)
    ensures ParsePart(text, min, max, kind).Err? ==> ParsePart(text, min, max, kind).error != EmptySet
  {
  }

  // ── Parts as they are written ────────────────────────────────────────────────

  /** The base of a comma part: the star, one value, or two with a dash between. */
  datatype Base = Star | Single(v: string) | Range(first: string, last: string)

  /** A comma part in its written form: a base and perhaps a step, each value as the text it is written with. */
  datatype Written = Written(base: Base, step: Option<string>)

  /** Text without white space and commas. */
  predicate IsWord(s: string) {
    forall c :: c in s ==> !IsSpace(c) && c != ','
  }

  predicate WellWrittenBase(b: Base) {
    match b
    case Star => true
    case Single(v) => IsWord(v) && '/' !in v && '-' !in v && v != "*"
    case Range(first, last) => IsWord(first) && IsWord(last) && '/' !in first && '/' !in last && '-' !in first
  }

  /** The texts stay apart: dash and slash do not occur where they would split a text earlier. */
  predicate WellWritten(w: Written) {
    WellWrittenBase(w.base) && (w.step.Some? ==> IsWord(w.step.value)) && (w.base == Single("") ==> w.step.Some?)
  }

  function BaseText(b: Base): string {
    match b
    case Star => "*"
    case Single(v) => v
    case Range(first, last) => first + ['-'] + last
  }

  function PartText(w: Written): string {
    if w.step.Some? then BaseText(w.base) + ['/'] + w.step.value else BaseText(w.base)
  }

  /** The first and last value a base stands for in a field with values `min` to `max`. */
  function MeantBase(b: Base, min: nat, max: nat, kind: Kind): Result<(nat, nat), CronError> {
    match b
    case Star => Ok((min, max))
    case Single(text) =>
      (match ValueOf(kind, text)
       case None => Err(InvalidValue)
       case Some(v) => Ok((v, v)))
    case Range(first, last) =>
      match (ValueOf(kind, first), ValueOf(kind, last))
      case (Some(start), Some(end)) => if start > end then Err(InvalidRange) else Ok((start, end))
      case _ => Err(InvalidValue)
  }

  function MeantStep(step: Option<string>): Result<nat, CronError> {
    match step
    case None => Ok(1)
    case Some(text) =>
      match ParseU32(text)
      case None => Err(InvalidStep)
      case Some(n) => if n == 0 then Err(ZeroStep) else Ok(n)
  }

  /** What a written part stands for; a bad step is reported before a bad base. */
  function Meant(w: Written, min: nat, max: nat, kind: Kind): Result<Part, CronError> {
    match MeantStep(w.step)
    case Err(e) => Err(e)
    case Ok(step) =>
      match MeantBase(w.base, min, max, kind)
      case Err(e) => Err(e)
      case Ok((start, end)) => if start < min || end > max then Err(OutOfRange) else Ok(Part(start, end, step))
  }

  lemma {:induction false} NumeralIsNoName(s: string)
    requires s != "" && '0' <= s[0] <= '9'
    ensures MonthNumber(s) == ParseU32(s) && DayNumber(s) == ParseU32(s)
  {
  }

  lemma {:induction false} DecimalShape(n: nat)
    ensures var s := Decimal(n);
            s != "" && '0' <= s[0] <= '9' && IsWord(s) && '/' !in s && '-' !in s && Trim(s) == s && Lower(s) == s
  {
    var s := Decimal(n);
    DigitsOfDecimal(n);
    assert s[0] in s && s[|s| - 1] in s;
    TrimTrimmed(s);
    assert forall i :: 0 <= i < |s| ==> s[i] in s;
  }

  /** A decimal numeral stands for its number in every field, up to 32 bits. */
  lemma {:induction false} NumeralMeans(kind: Kind, n: nat)
    ensures ValueOf(kind, Decimal(n)) == if n <= U32_MAX then Some(n) else None
  {
    DecimalShape(n);
    DecimalRoundTrip(n);
    NumeralIsNoName(Decimal(n));
  }

  const MONTHS := ["jan", "feb", "mar", "apr", "may", "jun", "jul", "aug", "sep", "oct", "nov", "dec"]
  const DAYS := ["sun", "mon", "tue", "wed", "thu", "fri", "sat"]

  /** The names of months and weekdays, in any letter case, stand for their numbers. */
  lemma {:induction false} NameMeans(text: string, k: nat)
    requires IsTrimmed(text)
    ensures k < 12 && Lower(text) == MONTHS[k] ==> ValueOf(MonthName, text) == Some(k + 1)
    ensures k < 7 && Lower(text) == DAYS[k] ==> ValueOf(DayName, text) == Some(k)
  {
    TrimTrimmed(text);
  }

  lemma {:induction false} SplitOnceAt(a: string, sep: char, b: string)
    requires sep !in a
    ensures SplitOnce(a + [sep] + b, sep) == Some((a, b))
    ensures SplitOnce(a, sep) == None
  {
    FindAppend(a, sep, b);
    assert (a + [sep] + b)[..|a|] == a && (a + [sep] + b)[|a| + 1..] == b;
  }

  lemma {:induction false} WordTrims(s: string)
    requires IsWord(s)
    ensures IsTrimmed(s) && Trim(s) == s
  {
    if s != "" {
      assert s[0] in s && s[|s| - 1] in s;
    }
    TrimTrimmed(s);
  }

  lemma {:induction false} BaseIsWord(b: Base)
    requires WellWrittenBase(b)
    ensures IsWord(BaseText(b)) && '/' !in BaseText(b) && (BaseText(b) == "" <==> b == Single(""))
  {
  }

  lemma {:induction false} PartIsWord(w: Written)
    requires WellWritten(w)
    ensures IsWord(PartText(w)) && PartText(w) != ""
  {
    BaseIsWord(w.base);
  }

  lemma {:induction false} RangeMeant(first: string, last: string, min: nat, max: nat, kind: Kind)
    requires WellWrittenBase(Range(first, last))
    ensures RangeOf(first + ['-'] + last, min, max, kind) == MeantBase(Range(first, last), min, max, kind)
  {
    SplitOnceAt(first, '-', last);
    WordTrims(first);
    WordTrims(last);
    assert first + ['-'] + last != "*";
  }

  lemma {:induction false} BaseMeant(b: Base, min: nat, max: nat, kind: Kind)
    requires WellWrittenBase(b)
    ensures RangeOf(BaseText(b), min, max, kind) == MeantBase(b, min, max, kind)
  {
    match b
    case Star =>
    case Single(v) => SplitOnceAt(v, '-', "");
    case Range(first, last) => RangeMeant(first, last, min, max, kind);
  }

  lemma {:induction false} StepMeant(w: Written)
    requires WellWritten(w)
    ensures BaseOf(PartText(w)) == BaseText(w.base) && StepOf(PartText(w)) == MeantStep(w.step)
  {
    var base := BaseText(w.base);
    BaseIsWord(w.base);
    WordTrims(base);
    if w.step.Some? {
      SplitOnceAt(base, '/', w.step.value);
      WordTrims(w.step.value);
    } else {
      SplitOnceAt(base, '/', "");
    }
  }

  /** Every written part, with any white space around it, parses to what it stands for. */
  lemma {:induction false} PartMeant(left: string, w: Written, right: string, min: nat, max: nat, kind: Kind)
    requires AllSpace(left) && AllSpace(right) && WellWritten(w)
    ensures ParsePart(left + PartText(w) + right, min, max, kind) == Meant(w, min, max, kind)
  {
    PartIsWord(w);
    WordTrims(PartText(w));
    TrimPadded(left, PartText(w), right);
    StepMeant(w);
    BaseMeant(w.base, min, max, kind);
  }

  /** No text is left out: one without white space and commas is the text of some written part. */
  lemma {:induction false} EveryWordIsWritten(text: string) returns (w: Written)
    requires IsWord(text) && text != ""
    ensures WellWritten(w) && PartText(w) == text
  {
    var i := Find(text, '/');
    var base := BaseWritten(text[..i]);
    assert text[..i] == "" <==> base == Single("");
    if i < |text| {
      w := Written(base, Some(text[i + 1..]));
      assert text == text[..i] + ['/'] + text[i + 1..];
    } else {
      assert text[..i] == text;
      w := Written(base, None);
    }
  }

  lemma {:induction false} BaseWritten(text: string) returns (b: Base)
    requires IsWord(text) && '/' !in text
    ensures WellWrittenBase(b) && BaseText(b) == text && (b == Single("") <==> text == "")
  {
    var i := Find(text, '-');
    if text == "*" {
      b := Star;
    } else if i < |text| {
      b := Range(text[..i], text[i + 1..]);
      assert text == text[..i] + ['-'] + text[i + 1..];
    } else {
      b := Single(text);
    }
  }

  /** Texts with a comma between neighbours. */
  function Commas(texts: seq<string>): string
    requires texts != []
  {
    if |texts| == 1 then texts[0] else texts[0] + [','] + Commas(texts[1..])
  }

  function Texts(ws: seq<Written>): seq<string> {
    seq(|ws|, i requires 0 <= i < |ws| => PartText(ws[i]))
  }

  /** The parts of a field, separated by commas. */
  function FieldText(ws: seq<Written>): string
    requires ws != []
  {
    Commas(Texts(ws))
  }

  lemma {:induction false} CommasSplit(texts: seq<string>)
    requires texts != [] && forall i :: 0 <= i < |texts| ==> ',' !in texts[i]
    ensures Split(Commas(texts), ',') == texts
  {
    if |texts| == 1 {
      SplitCons(texts[0], ',', "");
    } else {
      CommasSplit(texts[1..]);
      SplitCons(texts[0], ',', Commas(texts[1..]));
      assert [texts[0]] + texts[1..] == texts;
    }
  }

  predicate AllWritten(ws: seq<Written>) {
    ws != [] && forall i :: 0 <= i < |ws| ==> WellWritten(ws[i])
  }

  lemma {:induction false} FieldSplits(ws: seq<Written>)
    requires AllWritten(ws)
    ensures Split(FieldText(ws), ',') == Texts(ws)
  {
    forall i | 0 <= i < |ws| ensures ',' !in Texts(ws)[i] {
      PartIsWord(ws[i]);
    }
    CommasSplit(Texts(ws));
  }

  lemma {:induction false} TraverseAgrees<A, B, C, E>(f: A -> Result<C, E>, xs: seq<A>, g: B -> Result<C, E>,
                                                      ys: seq<B>)
    requires |xs| == |ys| && forall i :: 0 <= i < |xs| ==> f(xs[i]) == g(ys[i])
    ensures Traverse(f, xs) == Traverse(g, ys)
  {
    if xs != [] {
      TraverseAgrees(f, xs[..|xs| - 1], g, ys[..|ys| - 1]);
    }
  }

  function Meaning(min: nat, max: nat, kind: Kind): Written -> Result<Part, CronError> {
    (w: Written) => Meant(w, min, max, kind)
  }

  /** Every written field parses to the union of what its parts stand for, or to the first part's error. */
  lemma {:induction false} FieldMeant(ws: seq<Written>, min: nat, max: nat, kind: Kind)
    requires AllWritten(ws)
    ensures ParseField(PartReader(min, max, kind), FieldText(ws), max) ==
              match Traverse(Meaning(min, max, kind), ws)
              case Err(e) => Err(e)
              case Ok(parts) => Ok(Flags(parts, max))
  {
    var read, meant := PartReader(min, max, kind), Meaning(min, max, kind);
    FieldSplits(ws);
    forall i | 0 <= i < |ws| ensures read(Texts(ws)[i]) == meant(ws[i]) {
      BarePartMeant(ws[i], min, max, kind);
    }
    TraverseAgrees(read, Texts(ws), meant, ws);
  }

  lemma {:induction false} BarePartMeant(w: Written, min: nat, max: nat, kind: Kind)
    requires WellWritten(w)
    ensures ParsePart(PartText(w), min, max, kind) == Meant(w, min, max, kind)
  {
    PartMeant("", w, "", min, max, kind);
    assert "" + PartText(w) + "" == PartText(w);
  }

  // ── Expressions ──────────────────────────────────────────────────────────────

  datatype CronExpression = CronExpression(
    minute: seq<bool>, hour: seq<bool>, dayOfMonth: seq<bool>, month: seq<bool>, dayOfWeek: seq<bool>,
    domAny: bool, dowAny: bool)

  predicate WellFormed(e: CronExpression) {
    |e.minute| == 60 && |e.hour| == 24 && |e.dayOfMonth| == 32 && |e.month| == 13 && |e.dayOfWeek| == 8
  }

  function FieldOf(text: string, min: nat, max: nat, kind: Kind): (r: Result<seq<bool>, CronError>)
    ensures r.Ok? ==> |r.value| == max + 1
  {
    ParseField(PartReader(min, max, kind), text, max)
  }

  /** What a field of an expression parses to: its flags, or an error. */
  type Field = Result<seq<bool>, CronError>

  /** The first field that does not parse gives the error. */
  function Combine(minute: Field, hour: Field, dayOfMonth: Field, month: Field, dayOfWeek: Field,
                   domAny: bool, dowAny: bool): Result<CronExpression, CronError>
  {
    if minute.Err? then Err(minute.error)
    else if hour.Err? then Err(hour.error)
    else if dayOfMonth.Err? then Err(dayOfMonth.error)
    else if month.Err? then Err(month.error)
    else if dayOfWeek.Err? then Err(dayOfWeek.error)
    else Ok(CronExpression(minute.value, hour.value, dayOfMonth.value, month.value, dayOfWeek.value, domAny, dowAny))
  }

  /** Five fields, each with its range and names. */
  function ParseExpression(expr: string): (r: Result<CronExpression, CronError>)
    ensures r.Ok? ==> WellFormed(r.value)
  {
    var fields := Words(expr);
    if |fields| != 5 then Err(FieldCount)
    else
      Combine(FieldOf(fields[0], 0, 59, PlainNumber), FieldOf(fields[1], 0, 23, PlainNumber),
              FieldOf(fields[2], 1, 31, PlainNumber), FieldOf(fields[3], 1, 12, MonthName),
              FieldOf(fields[4], 0, 7, DayName), Trim(fields[2]) == "*", Trim(fields[4]) == "*")
  }

  /** The calendar fields of a wall-clock minute; Sunday is 0. */
  datatype When = When(minute: nat, hour: nat, day: nat, month: nat, weekday: nat)

  predicate InCalendar(w: When) {
    w.minute < 60 && w.hour < 24 && 1 <= w.day <= 31 && 1 <= w.month <= 12 && w.weekday < 7
  }

  /** Every index is in bounds for a well-formed expression and a calendar minute. */
  predicate CronMatches(e: CronExpression, w: When)
    requires WellFormed(e) && InCalendar(w)
  {
    if !e.minute[w.minute] || !e.hour[w.hour] || !e.month[w.month] then false
    else
      var domMatch := e.dayOfMonth[w.day];
      var dowMatch := e.dayOfWeek[w.weekday] || (w.weekday == 0 && e.dayOfWeek[7]);
      if e.domAny && e.dowAny then true
      else if e.domAny then dowMatch
      else if e.dowAny then domMatch
      else domMatch || dowMatch
  }

  /** Some day number of the field names this weekday; 0 and 7 are both Sunday. */
  predicate NamesWeekday(flags: seq<bool>, weekday: nat) {
    exists v :: 0 <= v < |flags| && flags[v] && v % 7 == weekday
  }

  /** The day rule of POSIX crontab: a restricted day field decides, and of two restricted ones either may. */
  lemma {:induction false} CronMatchesMeans(e: CronExpression, w: When)
    requires WellFormed(e) && InCalendar(w)
    ensures CronMatches(e, w) <==>
              && e.minute[w.minute] && e.hour[w.hour] && e.month[w.month]
              && (|| (e.domAny && e.dowAny)
                  || (!e.domAny && e.dayOfMonth[w.day])
                  || (!e.dowAny && NamesWeekday(e.dayOfWeek, w.weekday)))
  {
    WeekdayFlag(e.dayOfWeek, w.weekday);
  }

  lemma {:induction false} WeekdayFlag(flags: seq<bool>, weekday: nat)
    requires |flags| == 8 && weekday < 7
    ensures NamesWeekday(flags, weekday) <==> flags[weekday] || (weekday == 0 && flags[7])
  {
    if flags[weekday] {
      assert weekday % 7 == weekday;
    } else if weekday == 0 && flags[7] {
      assert 7 % 7 == 0;
    }
  }

  function CountSet(flags: seq<bool>): nat {
    if flags == [] then 0 else CountSet(flags[..|flags| - 1]) + (if flags[|flags| - 1] then 1 else 0)
  }

  /** More than two minutes of the hour: such an expression needs human approval. */
  predicate IsSubhourly(expr: string) {
    var r := ParseExpression(expr);
    r.Ok? && CountSet(r.value.minute) > 2
  }

  // ── Expressions as they are written ──────────────────────────────────────────

  lemma {:induction false} CommasShape(texts: seq<string>)
    requires texts != [] && forall i :: 0 <= i < |texts| ==> texts[i] != "" && forall c :: c in texts[i] ==> !IsSpace(c)
    ensures Commas(texts) != "" && forall c :: c in Commas(texts) ==> !IsSpace(c)
    ensures |texts| > 1 ==> |Commas(texts)| > 1
  {
    if |texts| > 1 {
      CommasShape(texts[1..]);
    }
  }

  lemma {:induction false} FieldIsOneWord(ws: seq<Written>)
    requires AllWritten(ws)
    ensures IsVisible(FieldText(ws)) && (|ws| > 1 ==> |FieldText(ws)| > 1)
  {
    forall i | 0 <= i < |ws| ensures Texts(ws)[i] != "" && forall c :: c in Texts(ws)[i] ==> !IsSpace(c) {
      PartIsWord(ws[i]);
    }
    CommasShape(Texts(ws));
  }

  /** What a written field selects, or the error of its first bad part. */
  function MeantField(ws: seq<Written>, min: nat, max: nat, kind: Kind): Result<seq<bool>, CronError> {
    match Traverse(Meaning(min, max, kind), ws)
    case Err(e) => Err(e)
    case Ok(parts) => Ok(Flags(parts, max))
  }

  /** Only the single star reads as "any". */
  predicate IsStar(ws: seq<Written>) {
    ws == [Written(Star, None)]
  }

  lemma {:induction false} StarText(ws: seq<Written>)
    requires AllWritten(ws)
    ensures Trim(FieldText(ws)) == "*" <==> IsStar(ws)
  {
    FieldIsOneWord(ws);
    var text := FieldText(ws);
    assert text[0] in text && text[|text| - 1] in text;
    TrimTrimmed(text);
    if |ws| == 1 {
      assert text == PartText(ws[0]);
      StarPart(ws[0]);
    }
  }

  lemma {:induction false} StarPart(w: Written)
    requires WellWritten(w)
    ensures PartText(w) == "*" <==> w == Written(Star, None)
  {
    if w.step.Some? {
      assert '/' in PartText(w);
    } else if w.base.Range? {
      assert '-' in PartText(w);
    }
  }

  /** The five fields of an expression, each as what it is written as. */
  datatype WrittenFields = WrittenFields(
    minute: seq<Written>, hour: seq<Written>, day: seq<Written>, month: seq<Written>, weekday: seq<Written>)
  {
    predicate Valid() {
      AllWritten(minute) && AllWritten(hour) && AllWritten(day) && AllWritten(month) && AllWritten(weekday)
    }

    /** What the fields mean, in the order minute, hour, day of month, month, weekday. */
    function Meanings(): seq<Field> {
      [MeantField(minute, 0, 59, PlainNumber), MeantField(hour, 0, 23, PlainNumber),
       MeantField(day, 1, 31, PlainNumber),
       MeantField(month, 1, 12, MonthName), MeantField(weekday, 0, 7, DayName)]
    }

    function FieldTexts(): seq<string>
      requires Valid()
    {
      [FieldText(minute), FieldText(hour), FieldText(day), FieldText(month), FieldText(weekday)]
    }
  }

  /** The text of five written fields, with white space between them and perhaps around them. */
  function ExpressionText(gaps: seq<string>, w: WrittenFields): string
    requires |gaps| == 6 && w.Valid()
  {
    Spread(w.FieldTexts(), gaps)
  }

  lemma {:induction false} ExpressionWords(gaps: seq<string>, w: WrittenFields)
    requires AreGaps(gaps, 5) && w.Valid()
    ensures Words(ExpressionText(gaps, w)) == w.FieldTexts()
  {
    FieldIsOneWord(w.minute);
    FieldIsOneWord(w.hour);
    FieldIsOneWord(w.day);
    FieldIsOneWord(w.month);
    FieldIsOneWord(w.weekday);
    WordsOfSpread(w.FieldTexts(), gaps);
  }

  /** The error of the first field that has one. */
  function FirstError(fields: seq<Field>): Option<CronError> {
    if fields == [] then None else if fields[0].Err? then Some(fields[0].error) else FirstError(fields[1..])
  }

  lemma {:induction false} FieldIs(ws: seq<Written>, min: nat, max: nat, kind: Kind)
    requires AllWritten(ws)
    ensures FieldOf(FieldText(ws), min, max, kind) == MeantField(ws, min, max, kind)
  {
    FieldMeant(ws, min, max, kind);
  }

  /** The fields put together, or the error of the first bad one. */
  predicate Together(parsed: Result<CronExpression, CronError>, fields: seq<Field>, domAny: bool, dowAny: bool)
    requires |fields| == 5
  {
    match FirstError(fields)
    case Some(error) => parsed == Err(error)
    case None =>
      && (forall k :: 0 <= k < 5 ==> fields[k].Ok?)
      && parsed == Ok(CronExpression(fields[0].value, fields[1].value, fields[2].value, fields[3].value,
                                     fields[4].value, domAny, dowAny))
  }

  lemma {:induction false} CombinesTogether(fs: seq<Field>, domAny: bool, dowAny: bool)
    requires |fs| == 5
    ensures Together(Combine(fs[0], fs[1], fs[2], fs[3], fs[4], domAny, dowAny), fs, domAny, dowAny)
  {
    FirstErrorOf(fs);
  }

  lemma {:induction false} FiveFields(expr: string, texts: seq<string>, a: Field, b: Field, c: Field, d: Field,
                                      e: Field)
    requires |texts| == 5 && Words(expr) == texts
    requires FieldOf(texts[0], 0, 59, PlainNumber) == a && FieldOf(texts[1], 0, 23, PlainNumber) == b
    requires FieldOf(texts[2], 1, 31, PlainNumber) == c && FieldOf(texts[3], 1, 12, MonthName) == d
    requires FieldOf(texts[4], 0, 7, DayName) == e
    ensures ParseExpression(expr) == Combine(a, b, c, d, e, Trim(texts[2]) == "*", Trim(texts[4]) == "*")
  {
  }

  /**
   Five written fields, however far apart, parse to what each of them selects,
   in the order minute, hour, day of month, month, day of week and with their
   ranges and names, or to the error of the first bad field; a day field is "any"
   exactly when it is the lone star.
   */
  lemma {:induction false} ExpressionMeant(gaps: seq<string>, w: WrittenFields)
    requires AreGaps(gaps, 5) && w.Valid()
    ensures Together(ParseExpression(ExpressionText(gaps, w)), w.Meanings(), IsStar(w.day), IsStar(w.weekday))
  {
    ExpressionWords(gaps, w);
    FieldIs(w.minute, 0, 59, PlainNumber);
    FieldIs(w.hour, 0, 23, PlainNumber);
    FieldIs(w.day, 1, 31, PlainNumber);
    FieldIs(w.month, 1, 12, MonthName);
    FieldIs(w.weekday, 0, 7, DayName);
    StarText(w.day);
    StarText(w.weekday);
    var fs := w.Meanings();
    FiveFields(ExpressionText(gaps, w), w.FieldTexts(), fs[0], fs[1], fs[2], fs[3], fs[4]);
    CombinesTogether(fs, IsStar(w.day), IsStar(w.weekday));
  }

  lemma {:induction false} FirstErrorCons(a: Field, rest: seq<Field>)
    ensures FirstError([a] + rest) == if a.Err? then Some(a.error) else FirstError(rest)
  {
    assert ([a] + rest)[1..] == rest;
  }

  lemma {:induction false} FirstErrorOf(fs: seq<Field>)
    requires |fs| == 5
    ensures FirstError(fs) ==
              if fs[0].Err? then Some(fs[0].error) else if fs[1].Err? then Some(fs[1].error)
              else if fs[2].Err? then Some(fs[2].error) else if fs[3].Err? then Some(fs[3].error)
              else if fs[4].Err? then Some(fs[4].error) else None
  {
    assert fs == [fs[0]] + ([fs[1]] + ([fs[2]] + ([fs[3]] + ([fs[4]] + []))));
    FirstErrorCons(fs[4], []);
    FirstErrorCons(fs[3], [fs[4]] + []);
    FirstErrorCons(fs[2], [fs[3]] + ([fs[4]] + []));
    FirstErrorCons(fs[1], [fs[2]] + ([fs[3]] + ([fs[4]] + [])));
    FirstErrorCons(fs[0], [fs[1]] + ([fs[2]] + ([fs[3]] + ([fs[4]] + []))));
  }
}
