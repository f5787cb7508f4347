/**
 When a heartbeat entry is due, and what one poll of the scheduler does. Wall
 time is a monotone function of the instant, in nanoseconds of a fixed zone.
 */
module Schedules {
  import opened Prelude
  import opened Heartbeat
  import opened Cron
  import Civil

  const SECOND: nat := 1_000_000_000
  const MINUTE: nat := 60 * SECOND
  const HOUR: nat := 60 * MINUTE
  const DAY: nat := 24 * HOUR
  const WEEK: nat := 7 * DAY

  type Zone = int -> int

  /**
   What being due depends on besides the entry: the wall clock, and what cron
   texts mean. `TheClock` gives cron texts their meaning; most results hold for any.
   */
  datatype Clock = Clock(zone: Zone, matches: (string, nat) -> bool, subhourly: string -> bool)

  ghost predicate Monotone(zone: Zone) {
    forall a, b :: a <= b ==> zone(a) <= zone(b)
  }

  function WallDate(zone: Zone, t: int): int {
    zone(t) / DAY
  }

  function WallMinute(zone: Zone, t: int): int {
    zone(t) / MINUTE
  }

  /** The calendar fields of a wall minute; day 0 is a Thursday. */
  function WhenOf(minute: nat): When {
    var days := minute / 1440;
    var date := Civil.DaysToYmd(days);
    When(minute % 60, minute / 60 % 24, date.day, date.month, (days + 4) % 7)
  }

  lemma {:induction false} WhenInCalendar(minute: nat)
    ensures InCalendar(WhenOf(minute))
  {
    Civil.DaysToYmdCounts(minute / 1440);
  }

  /** The calendar fields of minute `m` of day `days`, whose date is `date`. */
  function OnDate(m: nat, days: nat, date: Civil.Date): When {
    When(m % 60, m / 60 % 24, date.day, date.month, (days + 4) % 7)
  }

  lemma {:induction false} WhenIsOnDate(minute: nat, days: nat)
    requires days == minute / 1440
    ensures WhenOf(minute) == OnDate(minute, days, Civil.DaysToYmd(days))
  {
  }

  lemma {:induction false} FirstMinute(date: Civil.Date)
    ensures OnDate(0, 0, date) == When(0, 0, date.day, date.month, 4)
  {
  }

  /** Minute 0 is midnight of Thursday the first of January. */
  lemma {:induction false} WhenStarts()
    ensures WhenOf(0) == When(0, 0, 1, 1, 4)
  {
    Civil.DayZero();
    WhenIsOnDate(0, 0);
    FirstMinute(Civil.DaysToYmd(0));
  }

  lemma {:induction false} OnNextDate(minute: nat, days: nat, date: Civil.Date, next: Civil.Date)
    ensures var today, tomorrow := OnDate(minute, days, date), OnDate(minute + 1440, days + 1, next);
            && tomorrow.minute == today.minute && tomorrow.hour == today.hour
            && tomorrow.weekday == (today.weekday + 1) % 7
  {
    DayLater(minute);
  }

  /** A day later only the date and the weekday have moved on, each to its successor. */
  lemma {:induction false} WhenAdvances(minute: nat)
    ensures var today, tomorrow := WhenOf(minute), WhenOf(minute + 1440);
            && tomorrow.minute == today.minute && tomorrow.hour == today.hour
            && tomorrow.weekday == (today.weekday + 1) % 7
            && var next := Civil.NextDay(Civil.DaysToYmd(minute / 1440));
               tomorrow.day == next.day && tomorrow.month == next.month
  {
    var days := minute / 1440;
    DayLater(minute);
    WhenIsOnDate(minute, days);
    WhenIsOnDate(minute + 1440, days + 1);
    OnNextDate(minute, days, Civil.DaysToYmd(days), Civil.DaysToYmd(days + 1));
    Civil.DaysToYmdIsGregorian(days);
  }

  lemma {:induction false} DayLater(minute: nat)
    ensures (minute + 1440) / 1440 == minute / 1440 + 1
    ensures (minute + 1440) % 60 == minute % 60 && (minute + 1440) / 60 % 24 == minute / 60 % 24
  {
    assert (minute + 1440) / 60 == minute / 60 + 24;
  }

  /** Whether a cron expression selects a wall minute; text that does not parse selects none. */
  function Matches(expr: string, minute: nat): bool {
    WhenInCalendar(minute);
    var parsed := ParseExpression(expr);
    parsed.Ok? && CronMatches(parsed.value, WhenOf(minute))
  }

  /** A cron text that parses and selects a wall minute: its flags for the time, and the day rule of crontab. */
  predicate SelectsMinute(expr: string, minute: nat) {
    var parsed, w := ParseExpression(expr), WhenOf(minute);
    WhenInCalendar(minute);
    && parsed.Ok?
    && var e := parsed.value;
       && e.minute[w.minute] && e.hour[w.hour] && e.month[w.month]
       && (|| (e.domAny && e.dowAny)
           || (!e.domAny && e.dayOfMonth[w.day])
           || (!e.dowAny && NamesWeekday(e.dayOfWeek, w.weekday)))
  }

  lemma {:induction false} MatchesMeans(expr: string, minute: nat)
    ensures Matches(expr, minute) <==> SelectsMinute(expr, minute)
  {
    WhenInCalendar(minute);
    var parsed := ParseExpression(expr);
    if parsed.Ok? {
      CronMatchesMeans(parsed.value, WhenOf(minute));
    }
  }

  /** A first run is always due; later ones when the last run is before the current slot and the slot matches. */
  function IsCronDue(c: Clock, expr: string, lastWall: Option<int>, wall: nat): bool {
    if lastWall.None? then true
    else
      var slot := wall - wall % MINUTE;
      lastWall.value < slot && c.matches(expr, slot / MINUTE)
  }

  /** The clock with the meaning `Cron` gives to cron texts. */
  function TheClock(zone: Zone): Clock {
    Clock(zone, Matches, IsSubhourly)
  }

  predicate NeedsApproval(c: Clock, s: Schedule) {
    s.Minutely? || (s.CronSchedule? && c.subhourly(s.expr))
  }

  /** `gate` and `now` are the two readings of the clock. */
  predicate IsEntryDue(e: Entry, c: Clock, gate: int, now: int)
    requires c.zone(now) >= 0
  {
    if NeedsApproval(c, e.schedule) && !e.approved then false
    else if e.notBefore.Some? && gate < e.notBefore.value then false
    else if e.priority.Urgent? && e.lastRun.None? && !e.schedule.Once? then true
    else
      match e.schedule
      case Once => e.lastRun.None?
      case Minutely => e.lastRun.None? || now - e.lastRun.value >= MINUTE
      case Hourly => e.lastRun.None? || now - e.lastRun.value > HOUR
      case Daily => e.lastRun.None? || WallDate(c.zone, e.lastRun.value) < WallDate(c.zone, now)
      case Weekly => e.lastRun.None? || now - e.lastRun.value > WEEK
      case CronSchedule(expr) =>
        IsCronDue(c, expr, if e.lastRun.None? then None else Some(c.zone(e.lastRun.value)), c.zone(now))
      case OtherSchedule(_) => false
  }

  /** What the clock alone asks of a later run. */
  predicate Elapsed(c: Clock, s: Schedule, last: int, now: int)
    requires c.zone(now) >= 0
  {
    match s
    case Once => false
    case Minutely => now - last >= MINUTE
    case Hourly => now - last > HOUR
    case Daily => WallDate(c.zone, last) < WallDate(c.zone, now)
    case Weekly => now - last > WEEK
    case CronSchedule(expr) =>
      WallMinute(c.zone, last) < WallMinute(c.zone, now) && c.matches(expr, WallMinute(c.zone, now))
    case OtherSchedule(_) => false
  }

  /** When an entry is due, for any meaning of cron texts. */
  lemma {:induction false} DueFor(e: Entry, c: Clock, gate: int, now: int)
    requires c.zone(now) >= 0
    ensures IsEntryDue(e, c, gate, now) <==>
              && (e.schedule.Minutely? || (e.schedule.CronSchedule? && c.subhourly(e.schedule.expr)) ==> e.approved)
              && (e.notBefore.Some? ==> gate >= e.notBefore.value)
              && (if e.lastRun.Some? then Elapsed(c, e.schedule, e.lastRun.value, now)
                  else e.schedule.OtherSchedule? ==> e.priority.Urgent?)
  {
    if e.schedule.CronSchedule? && e.lastRun.Some? {
      SlotIsMinute(c.zone(now), c.zone(e.lastRun.value));
    }
  }

  /** The minutes of the hour that some flags select. */
  function MinutesOf(flags: seq<bool>): set<nat> {
    set v: nat | v < |flags| && flags[v]
  }

  lemma {:induction false} CountIsSize(flags: seq<bool>)
    ensures CountSet(flags) == |MinutesOf(flags)|
  {
    if flags != [] {
      var n := |flags| - 1;
      CountIsSize(flags[..n]);
      assert MinutesOf(flags) == MinutesOf(flags[..n]) + (if flags[n] then {n} else {});
    }
  }

  /** Every minute, or by a cron text that parses and selects more than two of the sixty minutes of the hour. */
  predicate IsFrequent(s: Schedule) {
    s.Minutely? || (s.CronSchedule? && SelectsOften(s.expr))
  }

  predicate SelectsOften(expr: string) {
    var parsed := ParseExpression(expr);
    parsed.Ok? && |parsed.value.minute| == 60 && |MinutesOf(parsed.value.minute)| > 2
  }

  lemma {:induction false} SubhourlyMeans(expr: string)
    ensures IsSubhourly(expr) <==> SelectsOften(expr)
  {
    if ParseExpression(expr).Ok? {
      CountIsSize(ParseExpression(expr).value.minute);
    }
  }

  /** What the schedules ask of a later run, in nanoseconds and in wall minutes that a cron text selects. */
  predicate ElapsedSince(zone: Zone, s: Schedule, last: int, now: int, minute: nat) {
    match s
    case Once => false
    case Minutely => now - last >= 60_000_000_000
    case Hourly => now - last > 3_600_000_000_000
    case Daily => zone(last) / 86_400_000_000_000 < zone(now) / 86_400_000_000_000
    case Weekly => now - last > 604_800_000_000_000
    case CronSchedule(expr) => zone(last) / 60_000_000_000 < minute && SelectsMinute(expr, minute)
    case OtherSchedule(_) => false
  }

  lemma {:induction false} ElapsedMeans(c: Clock, s: Schedule, last: int, now: int, minute: nat)
    requires c == TheClock(c.zone) && c.zone(now) >= 0 && minute == WallMinute(c.zone, now)
    ensures Elapsed(c, s, last, now) <==> ElapsedSince(c.zone, s, last, now, minute)
  {
    if s.CronSchedule? {
      MatchesMeans(s.expr, minute);
    }
  }

  /**
   When an entry is due: approved if it is frequent, past its `not_before`, and
   either run before and elapsed, or never run and of a known schedule. The fast
   path for urgent entries matters for unknown schedules alone.
   */
  lemma {:induction false} DueExactly(e: Entry, c: Clock, gate: int, now: int, minute: nat)
    requires c == TheClock(c.zone) && c.zone(now) >= 0 && minute == WallMinute(c.zone, now)
    ensures IsEntryDue(e, c, gate, now) <==>
              && (IsFrequent(e.schedule) ==> e.approved)
              && (e.notBefore.Some? ==> gate >= e.notBefore.value)
              && (if e.lastRun.Some? then ElapsedSince(c.zone, e.schedule, e.lastRun.value, now, minute)
                  else e.schedule.OtherSchedule? ==> e.priority.Urgent?)
  {
    DueFor(e, c, gate, now);
    if e.schedule.CronSchedule? {
      SubhourlyMeans(e.schedule.expr);
    }
    if e.lastRun.Some? {
      ElapsedMeans(c, e.schedule, e.lastRun.value, now, minute);
    }
  }

  /** Being before the start of a minute is being in an earlier minute. */
  lemma {:induction false} SlotIsMinute(wall: nat, last: int)
    ensures var slot := wall - wall % MINUTE;
            slot / MINUTE == wall / MINUTE && (last < slot <==> last / MINUTE < wall / MINUTE)
  {
    var m := wall / MINUTE;
    assert wall - wall % MINUTE == MINUTE * m;
    assert last == MINUTE * (last / MINUTE) + last % MINUTE;
  }

  // ── One poll ─────────────────────────────────────────────────────────────────

  /** A poll: the clock readings for each entry, the dispatch stamp, and whether a task run is active. */
  datatype Poll = Poll(gate: nat -> int, now: nat -> int, stamp: int, busy: bool)

  /** The clock moves forward through a poll, and is past 1970 on the wall. */
  ghost predicate PollTimes(p: Poll, c: Clock) {
    forall i: nat :: p.gate(i) <= p.now(i) <= p.stamp && c.zone(p.now(i)) >= 0
  }

  predicate Active(s: Status) {
    s.Pending? || s.Running? || s.Processing?
  }

  predicate Pressing(p: Priority) {
    p.Urgent? || p.High?
  }

  /** Entry `i` is dispatched by poll `p`. */
  predicate Dispatched(e: Entry, i: nat, p: Poll, c: Clock)
    requires c.zone(p.now(i)) >= 0
  {
    Active(e.status) && IsEntryDue(e, c, p.gate(i), p.now(i)) && (p.busy ==> Pressing(e.priority))
  }

  /** What a poll dispatches: pending, running and processing entries that are due, under load urgent and high ones. */
  lemma {:induction false} DispatchedExactly(e: Entry, i: nat, p: Poll, c: Clock)
    requires c.zone(p.now(i)) >= 0
    ensures Dispatched(e, i, p, c) <==>
              && e.status in {Pending, Running, Processing} && IsEntryDue(e, c, p.gate(i), p.now(i))
              && (!p.busy || e.priority == Urgent || e.priority == High)
  {
  }

  function Stamp(e: Entry, stamp: int): Entry {
    e.(lastRun := Some(stamp), status := if e.schedule.Once? then Done else Running)
  }

  function Ticked(es: seq<Entry>, p: Poll, c: Clock): seq<Entry>
    requires forall i: nat :: c.zone(p.now(i)) >= 0
  {
    seq(|es|, i requires 0 <= i < |es| =>
      if Dispatched(es[i], i, p, c) then Stamp(es[i], p.stamp) else es[i])
  }

  function Rank(p: Priority): nat {
    match p
    case Urgent => 0
    case High => 1
    case Normal => 2
    case Low => 3
    case OtherPriority(_) => 4
  }

  lemma {:induction false} RankOrder(other: string)
    ensures Rank(Urgent) < Rank(High) < Rank(Normal) < Rank(Low) < Rank(OtherPriority(other))
  {
  }

  /** Entry `i` goes before entry `j`: more urgent, or listed earlier among equals. */
  predicate Before(es: seq<Entry>, i: nat, j: nat)
    requires i < |es| && j < |es|
  {
    Rank(es[i].priority) < Rank(es[j].priority) || (Rank(es[i].priority) == Rank(es[j].priority) && i < j)
  }

  predicate Indexes(es: seq<Entry>, due: seq<nat>) {
    forall a :: 0 <= a < |due| ==> due[a] < |es|
  }

  predicate Ascending(due: seq<nat>) {
    forall a, b :: 0 <= a < b < |due| ==> due[a] < due[b]
  }

  predicate InOrder(es: seq<Entry>, due: seq<nat>)
    requires Indexes(es, due)
  {
    forall a, b :: 0 <= a < b < |due| ==> Before(es, due[a], due[b])
  }

  /** Those of `due` whose rank is `r`, in order. */
  function OfRank(es: seq<Entry>, due: seq<nat>, r: nat): (chosen: seq<nat>)
    requires Indexes(es, due)
    ensures forall i :: i in chosen <==> i in due && i < |es| && Rank(es[i].priority) == r
  {
    if due == [] then []
    else
      var front, i := due[..|due| - 1], due[|due| - 1];
      assert due == front + [i];
      if Rank(es[i].priority) == r then OfRank(es, front, r) + [i] else OfRank(es, front, r)
  }

  /** The stable sort by rank, up to rank `r`. */
  function SortedUpTo(es: seq<Entry>, due: seq<nat>, r: nat): (sorted: seq<nat>)
    requires Indexes(es, due)
    ensures forall i :: i in sorted <==> i in due && i < |es| && Rank(es[i].priority) <= r
  {
    if r == 0 then OfRank(es, due, 0) else SortedUpTo(es, due, r - 1) + OfRank(es, due, r)
  }

  lemma {:induction false} OfRankOrdered(es: seq<Entry>, due: seq<nat>, r: nat)
    requires Indexes(es, due) && Ascending(due)
    ensures Indexes(es, OfRank(es, due, r)) && InOrder(es, OfRank(es, due, r))
  {
    if due != [] {
      var front, i := due[..|due| - 1], due[|due| - 1];
      OfRankOrdered(es, front, r);
      var chosen := OfRank(es, front, r);
      forall a | 0 <= a < |chosen| ensures chosen[a] < i && Rank(es[chosen[a]].priority) == r {
        assert chosen[a] in chosen;
      }
    }
  }

  lemma {:induction false} OrderedConcat(es: seq<Entry>, a: seq<nat>, b: seq<nat>)
    requires Indexes(es, a) && Indexes(es, b) && InOrder(es, a) && InOrder(es, b)
    requires forall i, j :: 0 <= i < |a| && 0 <= j < |b| ==> Before(es, a[i], b[j])
    ensures Indexes(es, a + b) && InOrder(es, a + b)
  {
  }

  lemma {:induction false} SortIsOrdered(es: seq<Entry>, due: seq<nat>, r: nat)
    requires Indexes(es, due) && Ascending(due)
    ensures Indexes(es, SortedUpTo(es, due, r)) && InOrder(es, SortedUpTo(es, due, r))
  {
    OfRankOrdered(es, due, r);
    if r > 0 {
      SortIsOrdered(es, due, r - 1);
      var front, last := SortedUpTo(es, due, r - 1), OfRank(es, due, r);
      forall i, j | 0 <= i < |front| && 0 <= j < |last| ensures Before(es, front[i], last[j]) {
        assert front[i] in front && last[j] in last;
      }
      OrderedConcat(es, front, last);
    }
  }

  /** The entries that are active and due, whether or not a task run suppresses them. */
  predicate Eligible(e: Entry, i: nat, p: Poll, c: Clock)
    requires c.zone(p.now(i)) >= 0
  {
    Active(e.status) && IsEntryDue(e, c, p.gate(i), p.now(i))
  }

  method CollectDue(entries: array<Entry>, p: Poll, c: Clock) returns (due: seq<nat>)
    requires forall i: nat :: c.zone(p.now(i)) >= 0
    ensures Indexes(entries[..], due) && InOrder(entries[..], due)
    ensures forall i: nat :: i in due <==> i < entries.Length && Eligible(entries[i], i, p, c)
  {
    var found: seq<nat> := [];
    for i := 0 to entries.Length
      invariant Indexes(entries[..], found) && Ascending(found)
      invariant forall k: nat :: k in found <==> k < i && Eligible(entries[k], k, p, c)
    {
      var e := entries[i];
      if Active(e.status) && IsEntryDue(e, c, p.gate(i), p.now(i)) {
        assert forall a :: 0 <= a < |found| ==> found[a] in found;
        found := found + [i];
      }
    }
    due := SortedUpTo(entries[..], found, 4);
    SortIsOrdered(entries[..], found, 4);
  }

  /** Drops the entries that are neither urgent nor high. */
  method RetainPressing(entries: array<Entry>, due: seq<nat>) returns (kept: seq<nat>)
    requires Indexes(entries[..], due) && InOrder(entries[..], due)
    ensures Indexes(entries[..], kept) && InOrder(entries[..], kept)
    ensures forall i: nat :: i in kept <==> i in due && i < entries.Length && Pressing(entries[i].priority)
  {
    kept := [];
    for k := 0 to |due|
      invariant Indexes(entries[..], kept) && InOrder(entries[..], kept)
      invariant forall i: nat :: i in kept <==> i in due[..k] && i < entries.Length && Pressing(entries[i].priority)
    {
      assert due[..k + 1] == due[..k] + [due[k]];
      if Pressing(entries[due[k]].priority) {
        forall a | 0 <= a < |kept| ensures Before(entries[..], kept[a], due[k]) {
          assert kept[a] in kept;
          var b :| 0 <= b < k && due[b] == kept[a];
        }
        kept := kept + [due[k]];
      }
    }
    assert due[..|due|] == due;
  }

  method StampAll(entries: array<Entry>, due: seq<nat>, stamp: int)
    requires Indexes(entries[..], due) && InOrder(entries[..], due)
    modifies entries
    ensures forall i: nat :: i < entries.Length ==>
              entries[i] == if i in due then Stamp(old(entries[i]), stamp) else old(entries[i])
  {
    for k := 0 to |due|
      invariant forall i: nat :: i < entries.Length ==>
                  entries[i] == if i in due[..k] then Stamp(old(entries[i]), stamp) else old(entries[i])
    {
      var i := due[k];
      assert i < entries.Length;
      assert due[..k + 1] == due[..k] + [i];
      assert i !in due[..k];
      entries[i] := entries[i].(lastRun := Some(stamp), status := if entries[i].schedule.Once? then Done else Running);
    }
    assert due[..|due|] == due;
  }

  /** One tick over the loaded entries, in place; returns what it dispatches, urgent first. */
  method Tick(entries: array<Entry>, p: Poll, c: Clock) returns (due: seq<nat>)
    requires forall i: nat :: c.zone(p.now(i)) >= 0
    modifies entries
    ensures entries[..] == Ticked(old(entries[..]), p, c)
    ensures Indexes(old(entries[..]), due) && InOrder(old(entries[..]), due)
    ensures forall i: nat :: i in due <==> i < entries.Length && Dispatched(old(entries[i]), i, p, c)
  {
    due := CollectDue(entries, p, c);
    if p.busy && due != [] {
      due := RetainPressing(entries, due);
    }
    StampAll(entries, due, p.stamp);
  }
}
