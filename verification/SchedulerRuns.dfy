/**
 Whole runs of the poll loop. Every poll loads the heartbeat file, dispatches
 and stamps the due entries, and saves the file when there were any; saves
 succeed and nobody else writes the file. The state between polls is the
 file's text alone.
 */
module SchedulerRuns {
  import opened Prelude
  import opened Heartbeat
  import opened HeartbeatText
  import opened HeartbeatRoundTrip
  import opened HeartbeatParsed
  import opened HeartbeatRereads
  import opened Schedules
  import Cron

  /** The parts of the world that stay fixed during a run. */
  datatype World = World(
    showTime: int -> string, parseTime: string -> Option<int>, isAlphanumeric: char -> bool, clock: Clock)

  function FormatOf(w: World): Format {
    FileFormat(w.showTime, w.parseTime, w.isAlphanumeric)
  }

  ghost predicate Steady(w: World) {
    Sound(FormatOf(w)) && Monotone(w.clock.zone)
  }

  /** The polls of a run: the clock moves forward through each and from one to the next. */
  ghost predicate Polls(w: World, polls: seq<Poll>) {
    && (forall k :: 0 <= k < |polls| ==> PollTimes(polls[k], w.clock))
    && (forall k, i: nat :: 0 < k < |polls| ==> polls[k - 1].stamp <= polls[k].gate(i))
  }

  /** The entries of the file's text. */
  function Loaded(w: World, file: string): seq<Entry> {
    Parse(FormatOf(w), file)
  }

  predicate AnyDispatched(es: seq<Entry>, p: Poll, c: Clock)
    requires forall i: nat :: c.zone(p.now(i)) >= 0
  {
    exists i: nat :: i < |es| && Dispatched(es[i], i, p, c)
  }

  /** One poll, on the text of the file. */
  function Polled(w: World, file: string, p: Poll): string
    requires forall i: nat :: w.clock.zone(p.now(i)) >= 0
  {
    var es := Loaded(w, file);
    if AnyDispatched(es, p, w.clock) then Serialize(FormatOf(w), Ticked(es, p, w.clock)) else file
  }

  ghost function FileAfter(w: World, file: string, polls: seq<Poll>): string
    requires Polls(w, polls)
  {
    if polls == [] then file
    else
      var n := |polls| - 1;
      FrontPolls(w, polls);
      Polled(w, FileAfter(w, file, polls[..n]), polls[n])
  }

  lemma {:induction false} FrontPolls(w: World, polls: seq<Poll>)
    requires Polls(w, polls) && polls != []
    ensures Polls(w, polls[..|polls| - 1]) && PollTimes(polls[|polls| - 1], w.clock)
  {
    var front := polls[..|polls| - 1];
    forall k | 0 <= k < |front| ensures PollTimes(front[k], w.clock) {
      assert front[k] == polls[k];
    }
    forall k, i: nat | 0 < k < |front| ensures front[k - 1].stamp <= front[k].gate(i) {
      assert front[k] == polls[k] && front[k - 1] == polls[k - 1];
    }
  }

  /** The entries a run works on, poll by poll. */
  ghost function EntriesAfter(w: World, es: seq<Entry>, polls: seq<Poll>): (r: seq<Entry>)
    requires Polls(w, polls)
    ensures |r| == |es|
  {
    if polls == [] then es
    else
      var n := |polls| - 1;
      FrontPolls(w, polls);
      Ticked(EntriesAfter(w, es, polls[..n]), polls[n], w.clock)
  }

  // ── Saving and reloading ─────────────────────────────────────────────────────

  /** Entries in the shape the parser gives them: saving and reloading is the identity exactly when they are clean. */
  lemma {:induction false} SavedExactly(w: World, es: seq<Entry>)
    requires Steady(w) && AllCarried(es)
    ensures Loaded(w, Serialize(FormatOf(w), es)) == es <==> AllClean(es)
  {
    FileRoundTrip(w.showTime, w.parseTime, w.isAlphanumeric, es);
  }

  lemma {:induction false} LoadedIsCarried(w: World, file: string)
    ensures AllCarried(Loaded(w, file))
  {
    ParsedIsCarried(w.showTime, w.parseTime, w.isAlphanumeric, file);
  }

  lemma {:induction false} StampKeepsShape(e: Entry, stamp: int)
    ensures Carried(Stamp(e, stamp)) <== Carried(e)
    ensures Clean(Stamp(e, stamp)) <==> Clean(e)
  {
  }

  lemma {:induction false} TickKeepsShape(es: seq<Entry>, p: Poll, c: Clock)
    requires forall i: nat :: c.zone(p.now(i)) >= 0
    ensures AllCarried(es) ==> AllCarried(Ticked(es, p, c))
    ensures AllClean(es) <==> AllClean(Ticked(es, p, c))
  {
    var ticked := Ticked(es, p, c);
    forall i | 0 <= i < |es|
      ensures es[i] in es && ticked[i] in ticked
      ensures (Carried(es[i]) ==> Carried(ticked[i])) && (Clean(es[i]) <==> Clean(ticked[i]))
    {
      StampKeepsShape(es[i], p.stamp);
    }
  }

  lemma {:induction false} UndispatchedTick(es: seq<Entry>, p: Poll, c: Clock)
    requires forall i: nat :: c.zone(p.now(i)) >= 0
    requires !AnyDispatched(es, p, c)
    ensures Ticked(es, p, c) == es
  {
  }

  /** A poll that saves leaves the file with the entries it computed exactly when the bodies it loaded were clean. */
  lemma {:induction false} PollSavesExactly(w: World, file: string, p: Poll)
    requires Steady(w) && PollTimes(p, w.clock) && AnyDispatched(Loaded(w, file), p, w.clock)
    ensures Loaded(w, Polled(w, file, p)) == Ticked(Loaded(w, file), p, w.clock) <==> AllClean(Loaded(w, file))
  {
    var es := Loaded(w, file);
    LoadedIsCarried(w, file);
    TickKeepsShape(es, p, w.clock);
    SavedExactly(w, Ticked(es, p, w.clock));
  }

  /** Through every run a file with clean bodies holds exactly the entries computed: reloading undoes saving. */
  lemma {:induction false} FileTracksEntries(w: World, file: string, polls: seq<Poll>)
    requires Steady(w) && Polls(w, polls) && AllClean(Loaded(w, file))
    ensures Loaded(w, FileAfter(w, file, polls)) == EntriesAfter(w, Loaded(w, file), polls)
    ensures AllClean(EntriesAfter(w, Loaded(w, file), polls))
  {
    if polls != [] {
      var n := |polls| - 1;
      FrontPolls(w, polls);
      FileTracksEntries(w, file, polls[..n]);
      var before := FileAfter(w, file, polls[..n]);
      TickKeepsShape(Loaded(w, before), polls[n], w.clock);
      if AnyDispatched(Loaded(w, before), polls[n], w.clock) {
        PollSavesExactly(w, before, polls[n]);
      } else {
        UndispatchedTick(Loaded(w, before), polls[n], w.clock);
      }
    }
  }

  // ── What a run keeps of a file whose bodies change ───────────────────────────

  /** No body before entry `i` can come to split its section, so entry `i` keeps its place. */
  predicate LastingBefore(es: seq<Entry>, i: nat) {
    forall k :: 0 <= k < i && k < |es| ==> Lasting(es[k].body)
  }

  /** The entries up to `i` are the same but for their bodies. */
  predicate AgreeUpTo(es: seq<Entry>, fs: seq<Entry>, i: nat) {
    i < |es| && i < |fs| && forall k :: 0 <= k <= i ==> fs[k] == es[k].(body := fs[k].body)
  }

  lemma {:induction false} DueIgnoresBody(e: Entry, body: string, i: nat, p: Poll, c: Clock)
    requires c.zone(p.now(i)) >= 0
    ensures Dispatched(e.(body := body), i, p, c) <==> Dispatched(e, i, p, c)
  {
  }

  lemma {:induction false} TickAgrees(es: seq<Entry>, fs: seq<Entry>, i: nat, p: Poll, c: Clock)
    requires AgreeUpTo(es, fs, i) && LastingBefore(fs, i) && forall j: nat :: c.zone(p.now(j)) >= 0
    ensures AgreeUpTo(Ticked(es, p, c), Ticked(fs, p, c), i) && LastingBefore(Ticked(fs, p, c), i)
  {
    forall k | 0 <= k <= i
      ensures Ticked(fs, p, c)[k] == Ticked(es, p, c)[k].(body := Ticked(fs, p, c)[k].body)
      ensures Ticked(fs, p, c)[k].body == fs[k].body
    {
      DueIgnoresBody(es[k], fs[k].body, k, p, c);
    }
  }

  lemma {:induction false} RereadAgrees(es: seq<Entry>, fs: seq<Entry>, read: seq<Entry>, i: nat)
    requires AgreeUpTo(es, fs, i) && LastingBefore(fs, i) && ReadsUpTo(fs, i, read)
    ensures AgreeUpTo(es, read, i) && LastingBefore(read, i)
  {
    forall k | 0 <= k < i ensures Lasting(read[k].body) {
      RereadKeepsLasting(fs[k].body);
    }
  }

  lemma {:induction false} SaveAgrees(w: World, es: seq<Entry>, fs: seq<Entry>, i: nat)
    requires Steady(w) && AllCarried(fs) && AgreeUpTo(es, fs, i) && LastingBefore(fs, i)
    ensures var read := Loaded(w, Serialize(FormatOf(w), fs));
            AgreeUpTo(es, read, i) && LastingBefore(read, i)
  {
    SavedUpTo(w.showTime, w.parseTime, w.isAlphanumeric, fs, i);
    RereadAgrees(es, fs, Loaded(w, Serialize(FormatOf(w), fs)), i);
  }

  lemma {:induction false} PollAgrees(w: World, es: seq<Entry>, file: string, i: nat, p: Poll)
    requires Steady(w) && PollTimes(p, w.clock)
      && AgreeUpTo(es, Loaded(w, file), i) && LastingBefore(Loaded(w, file), i)
    ensures var after := Loaded(w, Polled(w, file, p));
            AgreeUpTo(Ticked(es, p, w.clock), after, i) && LastingBefore(after, i)
  {
    var fs := Loaded(w, file);
    TickAgrees(es, fs, i, p, w.clock);
    if AnyDispatched(fs, p, w.clock) {
      LoadedIsCarried(w, file);
      TickKeepsShape(fs, p, w.clock);
      SaveAgrees(w, Ticked(es, p, w.clock), Ticked(fs, p, w.clock), i);
    } else {
      UndispatchedTick(fs, p, w.clock);
    }
  }

  /** Where no earlier body can come to split, a run keeps every entry up to `i` in its place, all but the bodies. */
  lemma {:induction false} FileTracksUpTo(w: World, file: string, polls: seq<Poll>, i: nat)
    requires Steady(w) && Polls(w, polls) && i < |Loaded(w, file)| && LastingBefore(Loaded(w, file), i)
    ensures var after := Loaded(w, FileAfter(w, file, polls));
            AgreeUpTo(EntriesAfter(w, Loaded(w, file), polls), after, i) && LastingBefore(after, i)
  {
    if polls != [] {
      var n := |polls| - 1;
      FrontPolls(w, polls);
      FileTracksUpTo(w, file, polls[..n], i);
      PollAgrees(w, EntriesAfter(w, Loaded(w, file), polls[..n]), FileAfter(w, file, polls[..n]), i, polls[n]);
    }
  }

  /** Clean bodies cannot come to split. */
  lemma {:induction false} CleanFilesLast(w: World, file: string, i: nat)
    requires AllClean(Loaded(w, file))
    ensures LastingBefore(Loaded(w, file), i)
  {
    var es := Loaded(w, file);
    LoadedIsCarried(w, file);
    forall k | 0 <= k < i && k < |es| ensures Lasting(es[k].body) {
      assert es[k] in es;
      PlainBodiesLast(es[k].body);
    }
  }

  // ── The runs of one entry ────────────────────────────────────────────────────

  function Started(e: Entry): seq<int> {
    if e.lastRun.Some? then [e.lastRun.value] else []
  }

  /** When entry `i` of `es` ran: its last run before the polls, then the stamps of the polls that dispatched it. */
  ghost function EntryRuns(w: World, es: seq<Entry>, polls: seq<Poll>, i: nat): seq<int>
    requires Polls(w, polls) && i < |es|
  {
    if polls == [] then Started(es[i])
    else
      var n := |polls| - 1;
      FrontPolls(w, polls);
      var e := EntriesAfter(w, es, polls[..n])[i];
      EntryRuns(w, es, polls[..n], i) + (if Dispatched(e, i, polls[n], w.clock) then [polls[n].stamp] else [])
  }

  /** Consecutive runs `a` and `b` of an entry with schedule `s`. */
  predicate Spaced(s: Schedule, zone: Zone, a: int, b: int) {
    match s
    case Once => false
    case Minutely => b - a >= 60_000_000_000
    case Hourly => b - a > 3_600_000_000_000
    case Daily => zone(a) / 86_400_000_000_000 < zone(b) / 86_400_000_000_000
    case Weekly => b - a > 604_800_000_000_000
    case CronSchedule(_) => zone(a) / 60_000_000_000 < zone(b) / 60_000_000_000
    case OtherSchedule(_) => false
  }

  lemma {:induction false} SlotOrder(last: int, wall: int, stamp: int)
    requires last < wall - wall % MINUTE && wall <= stamp
    ensures last / MINUTE < stamp / MINUTE
  {
    assert wall - wall % MINUTE == MINUTE * (wall / MINUTE);
    assert wall / MINUTE <= stamp / MINUTE;
  }

  lemma {:induction false} DateOrder(a: int, b: int)
    requires a <= b
    ensures a / DAY <= b / DAY
  {
  }

  lemma {:induction false} DueMeansSpaced(e: Entry, c: Clock, gate: int, now: int, stamp: int)
    requires Monotone(c.zone) && c.zone(now) >= 0 && now <= stamp
    requires IsEntryDue(e, c, gate, now) && e.lastRun.Some?
    ensures Spaced(e.schedule, c.zone, e.lastRun.value, stamp)
  {
    assert c.zone(now) <= c.zone(stamp);
    DateOrder(c.zone(now), c.zone(stamp));
    if e.schedule.CronSchedule? {
      SlotOrder(c.zone(e.lastRun.value), c.zone(now), c.zone(stamp));
    }
  }

  /** `e` is `start` after the runs `runs`, of which the first may be from before. */
  predicate Evolved(start: Entry, e: Entry, runs: seq<int>) {
    && |runs| >= |Started(start)|
    && e.lastRun == (if runs == [] then None else Some(runs[|runs| - 1]))
    && e == start.(lastRun := e.lastRun, status := e.status)
    && e.status == (if |runs| == |Started(start)| then start.status else if start.schedule.Once? then Done else Running)
  }

  lemma {:induction false} EvolvesNext(start: Entry, e: Entry, runs: seq<int>, ran: bool, stamp: int)
    requires Evolved(start, e, runs)
    ensures Evolved(start, if ran then Stamp(e, stamp) else e, runs + (if ran then [stamp] else []))
  {
    assert runs + [] == runs;
  }

  /** Polls change nothing about an entry but when it last ran and its status. */
  lemma {:induction false} EntryEvolves(w: World, es: seq<Entry>, polls: seq<Poll>, i: nat)
    requires Polls(w, polls) && i < |es|
    ensures Evolved(es[i], EntriesAfter(w, es, polls)[i], EntryRuns(w, es, polls, i))
  {
    if polls != [] {
      var n := |polls| - 1;
      FrontPolls(w, polls);
      EntryEvolves(w, es, polls[..n], i);
      var e := EntriesAfter(w, es, polls[..n])[i];
      EvolvesNext(es[i], e, EntryRuns(w, es, polls[..n], i), Dispatched(e, i, polls[n], w.clock), polls[n].stamp);
    }
  }

  /** Each two consecutive runs of an entry are spaced as its schedule says. */
  lemma {:induction false} EntryRunsSpaced(w: World, es: seq<Entry>, polls: seq<Poll>, i: nat, k: nat)
    requires Steady(w) && Polls(w, polls) && i < |es|
    requires k + 1 < |EntryRuns(w, es, polls, i)|
    ensures Spaced(es[i].schedule, w.clock.zone, EntryRuns(w, es, polls, i)[k], EntryRuns(w, es, polls, i)[k + 1])
  {
    if polls != [] {
      var n := |polls| - 1;
      FrontPolls(w, polls);
      var runs, e := EntryRuns(w, es, polls[..n], i), EntriesAfter(w, es, polls[..n])[i];
      if k + 1 < |runs| {
        EntryRunsSpaced(w, es, polls[..n], i, k);
      } else {
        EntryEvolves(w, es, polls[..n], i);
        assert polls[n].now(i) <= polls[n].stamp;
        DueMeansSpaced(e, w.clock, polls[n].gate(i), polls[n].now(i), polls[n].stamp);
      }
    }
  }

  /** The same holds of any two runs, not just of neighbours. */
  lemma {:induction false} AnyEntryRunsSpaced(w: World, es: seq<Entry>, polls: seq<Poll>, i: nat, j: nat, k: nat)
    requires Steady(w) && Polls(w, polls) && i < |es| && j < k < |EntryRuns(w, es, polls, i)|
    ensures Spaced(es[i].schedule, w.clock.zone, EntryRuns(w, es, polls, i)[j], EntryRuns(w, es, polls, i)[k])
  {
    EntryRunsSpaced(w, es, polls, i, k - 1);
    if j < k - 1 {
      AnyEntryRunsSpaced(w, es, polls, i, j, k - 1);
    }
  }

  /** Every run after the start is the stamp of a poll that found the entry due. */
  lemma {:induction false} RunHasPoll(w: World, es: seq<Entry>, polls: seq<Poll>, i: nat, k: nat) returns (h: nat)
    requires Polls(w, polls) && i < |es| && |Started(es[i])| <= k < |EntryRuns(w, es, polls, i)|
    ensures h < |polls| && Polls(w, polls[..h]) && PollTimes(polls[h], w.clock)
    ensures EntryRuns(w, es, polls, i)[k] == polls[h].stamp
    ensures var e := EntriesAfter(w, es, polls[..h])[i];
            && Dispatched(e, i, polls[h], w.clock) && (k > 0 ==> e.lastRun.Some?)
            && e.schedule == es[i].schedule && e.notBefore == es[i].notBefore && e.approved == es[i].approved
  {
    var n := |polls| - 1;
    FrontPolls(w, polls);
    var before := EntryRuns(w, es, polls[..n], i);
    EntryEvolves(w, es, polls[..n], i);
    if k < |before| {
      h := RunHasPoll(w, es, polls[..n], i, k);
      assert polls[..n][..h] == polls[..h];
    } else {
      h := n;
    }
  }

  lemma {:induction false} GateHolds(e: Entry, i: nat, p: Poll, c: Clock)
    requires PollTimes(p, c) && c.zone(p.now(i)) >= 0 && Dispatched(e, i, p, c) && e.notBefore.Some?
    ensures p.stamp >= e.notBefore.value
  {
    assert p.gate(i) <= p.now(i) <= p.stamp;
  }

  lemma {:induction false} RepeatMatches(e: Entry, i: nat, p: Poll, c: Clock)
    requires c.zone(p.now(i)) >= 0 && Dispatched(e, i, p, c) && e.schedule.CronSchedule? && e.lastRun.Some?
    ensures c.matches(e.schedule.expr, WallMinute(c.zone, p.now(i)))
  {
    SlotMinute(c.zone(p.now(i)));
  }

  lemma {:induction false} ClockMatches(c: Clock, expr: string, minute: nat)
    requires c == TheClock(c.zone)
    ensures c.matches(expr, minute) <==> SelectsMinute(expr, minute)
  {
    MatchesMeans(expr, minute);
  }

  lemma {:induction false} MinuteOfWall(wall: nat) returns (m: nat)
    ensures m == wall / MINUTE
  {
    m := wall / MINUTE;
  }

  lemma {:induction false} RepeatSelects(e: Entry, i: nat, p: Poll, c: Clock) returns (m: nat)
    requires c == TheClock(c.zone) && c.zone(p.now(i)) >= 0
    requires Dispatched(e, i, p, c) && e.schedule.CronSchedule? && e.lastRun.Some?
    ensures m == WallMinute(c.zone, p.now(i)) && SelectsMinute(e.schedule.expr, m)
  {
    RepeatMatches(e, i, p, c);
    m := MinuteOfWall(c.zone(p.now(i)));
    ClockMatches(c, e.schedule.expr, m);
  }

  lemma {:induction false} SlotMinute(wall: nat)
    ensures (wall - wall % MINUTE) / MINUTE == wall / MINUTE
  {
    assert wall - wall % MINUTE == MINUTE * (wall / MINUTE);
  }

  // ── Every matching minute is served ──────────────────────────────────────────

  /** Clocks do not hand out a last run from the future. */
  lemma {:induction false} LastRunIsPast(w: World, es: seq<Entry>, polls: seq<Poll>, i: nat)
    requires Polls(w, polls) && i < |es| && polls != []
    requires es[i].lastRun.Some? ==> es[i].lastRun.value <= polls[0].gate(i)
    ensures var e := EntriesAfter(w, es, polls)[i];
            e.lastRun.Some? ==> e.lastRun.value <= polls[|polls| - 1].stamp
  {
    var n := |polls| - 1;
    FrontPolls(w, polls);
    assert polls[n].gate(i) <= polls[n].now(i) <= polls[n].stamp;
    if n > 0 {
      LastRunIsPast(w, es, polls[..n], i);
      assert polls[n - 1].stamp <= polls[n].gate(i);
    }
  }

  /** A poll in a matching minute may dispatch this entry: enabled, approved, past its gate, not suppressed. */
  predicate MayRun(c: Clock, e: Entry, p: Poll, i: nat) {
    && Active(e.status)
    && (NeedsApproval(c, e.schedule) ==> e.approved)
    && (e.notBefore.Some? ==> p.gate(i) >= e.notBefore.value)
    && (p.busy ==> Pressing(e.priority))
  }

  lemma {:induction false} MinuteServed(e: Entry, i: nat, p: Poll, c: Clock, m: nat)
    requires Monotone(c.zone) && PollTimes(p, c)
    requires e.schedule.CronSchedule? && MayRun(c, e, p, i) && c.matches(e.schedule.expr, m)
    requires c.zone(p.now(i)) >= 0 && WallMinute(c.zone, p.now(i)) == m == WallMinute(c.zone, p.stamp)
    requires e.lastRun.Some? ==> e.lastRun.value <= p.now(i)
    ensures var after := if Dispatched(e, i, p, c) then Stamp(e, p.stamp) else e;
            after.lastRun.Some? && WallMinute(c.zone, after.lastRun.value) == m
  {
    if !Dispatched(e, i, p, c) {
      var wall, last := c.zone(p.now(i)), c.zone(e.lastRun.value);
      SlotMinute(wall);
      assert last <= wall;
      assert last >= wall - wall % MINUTE;
      MinuteOrder(wall - wall % MINUTE, last);
      MinuteOrder(last, wall);
    }
  }

  lemma {:induction false} MinuteOrder(a: int, b: int)
    requires a <= b
    ensures a / MINUTE <= b / MINUTE
  {
  }

  lemma {:induction false} RunsGrow(w: World, es: seq<Entry>, polls: seq<Poll>, k: nat, i: nat)
    requires Polls(w, polls) && i < |es| && k <= |polls|
    ensures Polls(w, polls[..k]) && EntryRuns(w, es, polls[..k], i) <= EntryRuns(w, es, polls, i)
    decreases |polls|
  {
    if k < |polls| {
      FrontPolls(w, polls);
      RunsGrow(w, es, polls[..|polls| - 1], k, i);
      assert polls[..|polls| - 1][..k] == polls[..k];
    } else {
      assert polls[..k] == polls;
    }
  }

  lemma {:induction false} ServedAt(w: World, es: seq<Entry>, polls: seq<Poll>, i: nat, m: nat)
    requires Steady(w) && Polls(w, polls) && i < |es| && polls != []
    requires es[i].schedule.CronSchedule? && MayRun(w.clock, es[i], polls[|polls| - 1], i)
    requires w.clock.matches(es[i].schedule.expr, m)
    requires var p := polls[|polls| - 1];
             WallMinute(w.clock.zone, p.now(i)) == m == WallMinute(w.clock.zone, p.stamp)
    requires es[i].lastRun.Some? ==> es[i].lastRun.value <= polls[0].gate(i)
    ensures var runs := EntryRuns(w, es, polls, i);
            runs != [] && WallMinute(w.clock.zone, runs[|runs| - 1]) == m
  {
    var k := |polls| - 1;
    FrontPolls(w, polls);
    var e := EntriesAfter(w, es, polls[..k])[i];
    StillMayRun(w, es, polls, i, k);
    LastRunBeforePoll(w, es, polls, i, k);
    MinuteServed(e, i, polls[k], w.clock, m);
    NextEntry(w, es, polls, i, k);
    EntryEvolves(w, es, polls, i);
  }

  lemma {:induction false} StillMayRun(w: World, es: seq<Entry>, polls: seq<Poll>, i: nat, k: nat)
    requires Polls(w, polls) && i < |es| && |polls| == k + 1 && Polls(w, polls[..k])
    requires es[i].schedule.CronSchedule? && MayRun(w.clock, es[i], polls[k], i)
    ensures var e := EntriesAfter(w, es, polls[..k])[i];
            e.schedule == es[i].schedule && MayRun(w.clock, e, polls[k], i)
  {
    EntryEvolves(w, es, polls[..k], i);
  }

  lemma {:induction false} NextEntry(w: World, es: seq<Entry>, polls: seq<Poll>, i: nat, k: nat)
    requires Polls(w, polls) && i < |es| && |polls| == k + 1 && Polls(w, polls[..k]) && PollTimes(polls[k], w.clock)
    ensures var e := EntriesAfter(w, es, polls[..k])[i];
            EntriesAfter(w, es, polls)[i] == if Dispatched(e, i, polls[k], w.clock) then Stamp(e, polls[k].stamp) else e
  {
  }

  lemma {:induction false} LastRunBeforePoll(w: World, es: seq<Entry>, polls: seq<Poll>, i: nat, k: nat)
    requires Polls(w, polls) && i < |es| && |polls| == k + 1 && Polls(w, polls[..k])
    requires es[i].lastRun.Some? ==> es[i].lastRun.value <= polls[0].gate(i)
    ensures var e := EntriesAfter(w, es, polls[..k])[i];
            e.lastRun.Some? ==> e.lastRun.value <= polls[k].now(i)
  {
    assert polls[k].gate(i) <= polls[k].now(i);
    if k > 0 {
      LastRunIsPast(w, es, polls[..k], i);
      assert polls[k - 1].stamp <= polls[k].gate(i);
    }
  }

  lemma {:induction false} EntryServesOnce(w: World, es: seq<Entry>, polls: seq<Poll>, i: nat, k: nat, m: nat)
    returns (j: nat)
    requires Steady(w) && Polls(w, polls) && i < |es| && k < |polls|
    requires es[i].schedule.CronSchedule? && MayRun(w.clock, es[i], polls[k], i)
      && w.clock.matches(es[i].schedule.expr, m)
    requires WallMinute(w.clock.zone, polls[k].now(i)) == m == WallMinute(w.clock.zone, polls[k].stamp)
    requires es[i].lastRun.Some? ==> es[i].lastRun.value <= polls[0].gate(i)
    ensures var runs := EntryRuns(w, es, polls, i);
            && j < |runs| && WallMinute(w.clock.zone, runs[j]) == m
            && forall h :: 0 <= h < |runs| && h != j ==> WallMinute(w.clock.zone, runs[h]) != m
  {
    RunsGrow(w, es, polls, k + 1, i);
    ServedAt(w, es, polls[..k + 1], i, m);
    j := |EntryRuns(w, es, polls[..k + 1], i)| - 1;
    OnlyRunInMinute(w, es, polls, i, j, m);
  }

  lemma {:induction false} OnlyRunInMinute(w: World, es: seq<Entry>, polls: seq<Poll>, i: nat, j: nat, m: nat)
    requires Steady(w) && Polls(w, polls) && i < |es| && es[i].schedule.CronSchedule?
    requires j < |EntryRuns(w, es, polls, i)| && WallMinute(w.clock.zone, EntryRuns(w, es, polls, i)[j]) == m
    ensures var runs := EntryRuns(w, es, polls, i);
            forall h :: 0 <= h < |runs| && h != j ==> WallMinute(w.clock.zone, runs[h]) != m
  {
    var runs := EntryRuns(w, es, polls, i);
    forall h | 0 <= h < |runs| && h != j ensures WallMinute(w.clock.zone, runs[h]) != m {
      if h < j {
        AnyEntryRunsSpaced(w, es, polls, i, h, j);
      } else {
        AnyEntryRunsSpaced(w, es, polls, i, j, h);
      }
    }
  }

  // ── The runs of an entry of the file ─────────────────────────────────────────

  /**
   When entry `i` of the file ran: its last run before the polls, then the
   stamps of the polls that found it due in the file as it was then.
   */
  ghost function RunsOf(w: World, file: string, polls: seq<Poll>, i: nat): seq<int>
    requires Polls(w, polls) && i < |Loaded(w, file)|
  {
    if polls == [] then Started(Loaded(w, file)[i])
    else
      var n := |polls| - 1;
      FrontPolls(w, polls);
      var es := Loaded(w, FileAfter(w, file, polls[..n]));
      RunsOf(w, file, polls[..n], i)
      + (if i < |es| && Dispatched(es[i], i, polls[n], w.clock) then [polls[n].stamp] else [])
  }

  lemma {:induction false} FileRunsAreEntryRuns(w: World, file: string, polls: seq<Poll>, i: nat)
    requires Steady(w) && Polls(w, polls) && i < |Loaded(w, file)| && LastingBefore(Loaded(w, file), i)
    ensures RunsOf(w, file, polls, i) == EntryRuns(w, Loaded(w, file), polls, i)
  {
    if polls != [] {
      var n := |polls| - 1;
      FrontPolls(w, polls);
      FileRunsAreEntryRuns(w, file, polls[..n], i);
      FileTracksUpTo(w, file, polls[..n], i);
      var e, after := EntriesAfter(w, Loaded(w, file), polls[..n])[i], Loaded(w, FileAfter(w, file, polls[..n]));
      DueIgnoresBody(e, after[i].body, i, polls[n], w.clock);
    }
  }

  /** In every run, any two runs of an entry are spaced as its schedule says. */
  lemma {:induction false} RunsAreSpaced(w: World, file: string, polls: seq<Poll>, i: nat, j: nat, k: nat)
    requires Steady(w) && Polls(w, polls) && i < |Loaded(w, file)| && LastingBefore(Loaded(w, file), i)
    requires j < k < |RunsOf(w, file, polls, i)|
    ensures var runs := RunsOf(w, file, polls, i);
            Spaced(Loaded(w, file)[i].schedule, w.clock.zone, runs[j], runs[k])
  {
    FileRunsAreEntryRuns(w, file, polls, i);
    AnyEntryRunsSpaced(w, Loaded(w, file), polls, i, j, k);
  }

  /** A `once` entry is dispatched at most once, and never again if it had run before. */
  lemma {:induction false} OnceAtMostOnce(w: World, file: string, polls: seq<Poll>, i: nat)
    requires Steady(w) && Polls(w, polls) && i < |Loaded(w, file)| && LastingBefore(Loaded(w, file), i)
    requires Loaded(w, file)[i].schedule.Once?
    ensures |RunsOf(w, file, polls, i)| <= 1
  {
    if |RunsOf(w, file, polls, i)| > 1 {
      RunsAreSpaced(w, file, polls, i, 0, 1);
    }
  }

  /** Polls change nothing about an entry of the file but its last run, its status and, if it is not clean, its body. */
  lemma {:induction false} FileEntryEvolves(w: World, file: string, polls: seq<Poll>, i: nat)
    requires Steady(w) && Polls(w, polls) && i < |Loaded(w, file)| && LastingBefore(Loaded(w, file), i)
    ensures var es, after := Loaded(w, file), Loaded(w, FileAfter(w, file, polls));
            && i < |after|
            && Evolved(es[i], after[i].(body := es[i].body), RunsOf(w, file, polls, i))
            && (AllClean(es) ==> |after| == |es| && after[i].body == es[i].body)
  {
    FileTracksUpTo(w, file, polls, i);
    FileRunsAreEntryRuns(w, file, polls, i);
    EntryEvolves(w, Loaded(w, file), polls, i);
    if AllClean(Loaded(w, file)) {
      FileTracksEntries(w, file, polls);
    }
  }

  /** No run of an entry after the start is stamped before its `not_before`. */
  lemma {:induction false} NotBeforeHolds(w: World, file: string, polls: seq<Poll>, i: nat, k: nat)
    requires Steady(w) && Polls(w, polls) && i < |Loaded(w, file)| && LastingBefore(Loaded(w, file), i)
    requires Loaded(w, file)[i].notBefore.Some?
    requires |Started(Loaded(w, file)[i])| <= k < |RunsOf(w, file, polls, i)|
    ensures RunsOf(w, file, polls, i)[k] >= Loaded(w, file)[i].notBefore.value
  {
    FileRunsAreEntryRuns(w, file, polls, i);
    var h := RunHasPoll(w, Loaded(w, file), polls, i, k);
    GateHolds(EntriesAfter(w, Loaded(w, file), polls[..h])[i], i, polls[h], w.clock);
  }

  lemma {:induction false} FrequentIsApproved(e: Entry, i: nat, p: Poll, c: Clock)
    requires c == TheClock(c.zone) && c.zone(p.now(i)) >= 0 && Dispatched(e, i, p, c) && IsFrequent(e.schedule)
    ensures e.approved
  {
    DueFor(e, c, p.gate(i), p.now(i));
    if e.schedule.CronSchedule? {
      SubhourlyMeans(e.schedule.expr);
    }
  }

  /** An entry that is to run every minute, or in more than two minutes of the hour, never runs unapproved. */
  lemma {:induction false} UnapprovedNeverRuns(w: World, file: string, polls: seq<Poll>, i: nat)
    requires Steady(w) && w.clock == TheClock(w.clock.zone)
    requires Polls(w, polls) && i < |Loaded(w, file)| && LastingBefore(Loaded(w, file), i)
    requires IsFrequent(Loaded(w, file)[i].schedule) && !Loaded(w, file)[i].approved
    ensures RunsOf(w, file, polls, i) == Started(Loaded(w, file)[i])
  {
    FileRunsAreEntryRuns(w, file, polls, i);
    var es := Loaded(w, file);
    var empty: seq<Poll> := [];
    assert polls[..0] == empty && EntryRuns(w, es, empty, i) == Started(es[i]);
    RunsGrow(w, es, polls, 0, i);
    if |EntryRuns(w, es, polls, i)| > |Started(es[i])| {
      var h := RunHasPoll(w, es, polls, i, |Started(es[i])|);
      FrequentIsApproved(EntriesAfter(w, es, polls[..h])[i], i, polls[h], w.clock);
    }
  }

  /** Every run of a cron entry but its very first comes from a poll that looked in a minute its expression selects. */
  lemma {:induction false} CronFiresOnMatch(w: World, file: string, polls: seq<Poll>, i: nat, k: nat)
    returns (h: nat, m: nat)
    requires Steady(w) && w.clock == TheClock(w.clock.zone)
    requires Polls(w, polls) && i < |Loaded(w, file)| && LastingBefore(Loaded(w, file), i)
    requires Loaded(w, file)[i].schedule.CronSchedule? && 0 < k < |RunsOf(w, file, polls, i)|
    ensures h < |polls| && RunsOf(w, file, polls, i)[k] == polls[h].stamp
    ensures m == WallMinute(w.clock.zone, polls[h].now(i)) && SelectsMinute(Loaded(w, file)[i].schedule.expr, m)
  {
    FileRunsAreEntryRuns(w, file, polls, i);
    h := RunHasPoll(w, Loaded(w, file), polls, i, k);
    m := RepeatSelects(EntriesAfter(w, Loaded(w, file), polls[..h])[i], i, polls[h], w.clock);
  }

  /**
   If poll `k` looks at a cron entry and stamps in one wall minute that the
   expression selects, and the entry may run, then over the whole run exactly
   one of the entry's runs falls in that minute.
   */
  lemma {:induction false} CronServesMinuteOnce(w: World, file: string, polls: seq<Poll>, i: nat, k: nat, m: nat)
    returns (j: nat)
    requires Steady(w) && w.clock == TheClock(w.clock.zone)
    requires Polls(w, polls) && i < |Loaded(w, file)| && LastingBefore(Loaded(w, file), i) && k < |polls|
    requires var e := Loaded(w, file)[i];
             && e.schedule.CronSchedule? && MayRun(w.clock, e, polls[k], i) && SelectsMinute(e.schedule.expr, m)
             && (e.lastRun.Some? ==> e.lastRun.value <= polls[0].gate(i))
    requires WallMinute(w.clock.zone, polls[k].now(i)) == m == WallMinute(w.clock.zone, polls[k].stamp)
    ensures var runs := RunsOf(w, file, polls, i);
            && j < |runs| && WallMinute(w.clock.zone, runs[j]) == m
            && forall h :: 0 <= h < |runs| && h != j ==> WallMinute(w.clock.zone, runs[h]) != m
  {
    FileRunsAreEntryRuns(w, file, polls, i);
    ClockMatches(w.clock, Loaded(w, file)[i].schedule.expr, m);
    j := EntryServesOnce(w, Loaded(w, file), polls, i, k, m);
  }

  // ── Why no earlier body may split ────────────────────────────────────────────

  lemma {:induction false} PlainIsDispatched(title: string, body: string, i: nat, p: Poll, c: Clock)
    requires c.zone(p.now(i)) >= 0 && !p.busy
    ensures Dispatched(Plain(title, body), i, p, c)
  {
  }

  lemma {:induction false} PairTicks(x: Entry, y: Entry, p: Poll, c: Clock)
    requires (forall i: nat :: c.zone(p.now(i)) >= 0) && Dispatched(x, 0, p, c) && Dispatched(y, 1, p, c)
    ensures AnyDispatched([x, y], p, c) && Ticked([x, y], p, c) == [Stamp(x, p.stamp), Stamp(y, p.stamp)]
  {
    assert Dispatched([x, y][0], 0, p, c);
  }

  lemma {:induction false} SplitPairSaved(w: World, x: Entry, y: Entry, b: string)
    requires Steady(w) && Carried(x) && Carried(y) && OneLine(b) && b != "" && x.body == SplitBody(b) && y.body == ""
    ensures Loaded(w, Serialize(FormatOf(w), [x, y])) == [x.(body := ""), Plain(b, ""), y]
  {
    var f := FormatOf(w);
    CarriedIsReadable(w.showTime, w.parseTime, w.isAlphanumeric, x);
    CarriedIsReadable(w.showTime, w.parseTime, w.isAlphanumeric, y);
    SplitPairReads(f, x, y, b);
    SavedIsPrinted(f, [x, y]);
  }

  lemma {:induction false} SplitPairReads(f: Format, x: Entry, y: Entry, b: string)
    requires Sound(f) && Readable(f, x) && GoodText(x) && Readable(f, y) && GoodText(y)
    requires OneLine(b) && b != "" && x.body == SplitBody(b) && y.body == ""
    ensures ReadPrinted(f, true, [x, y]) == [x.(body := ""), Plain(b, ""), y]
  {
    SplitSaved(f, true, x, [y], b);
    assert [x] + [y] == [x, y];
    LastReads(f, y);
    assert [x.(body := "")] + ([Plain(b, "")] + [y]) == [x.(body := ""), Plain(b, ""), y];
  }

  lemma {:induction false} SavedIsPrinted(f: Format, es: seq<Entry>)
    ensures Parse(f, Serialize(f, es)) == ReadPrinted(f, true, es)
  {
    assert HeadLines(true)[0] + "\n" == "# Heartbeat\n";
  }

  lemma {:induction false} LastReads(f: Format, y: Entry)
    requires Sound(f) && Readable(f, y) && GoodText(y) && y.body == ""
    ensures ReadPrinted(f, false, [y]) == [y]
  {
    SplitEmpty();
    var x, later := ReadFirst(f, false, [y]);
    assert Reread(y) == y && [y][1..] == [];
    EmptyTail(f, false);
    assert [y] + [] == [y];
  }

  /**
   A file of two entries, the body of the first with an indented separator line
   and a title after it. Its first save takes the indentation away: the file then
   has an entry that was never one, the second entry is the third, and the next
   poll finds another entry due in its place.
   */
  lemma {:induction false} SplitMovesEntries(w: World, a: string, b: string, c: string, p: Poll, q: Poll)
    requires Steady(w) && Polls(w, [p, q]) && Polls(w, [p]) && !p.busy && !q.busy
    requires OneLine(a) && OneLine(b) && b != "" && OneLine(c) && c != ""
    ensures var file := SplitFile(a, b, c);
            && Loaded(w, file) == [Plain(a, SplitBody(b)), Plain(c, "")]
            && Loaded(w, FileAfter(w, file, [p]))
               == [Stamp(Plain(a, ""), p.stamp), Plain(b, ""), Stamp(Plain(c, ""), p.stamp)]
            && RunsOf(w, file, [p, q], 1) == [p.stamp, q.stamp]
  {
    var file, x, y := SplitFile(a, b, c), Plain(a, SplitBody(b)), Plain(c, "");
    SplitFileReads(FormatOf(w), a, b, c);
    FrontPolls(w, [p]);
    FrontPolls(w, [p, q]);
    PlainIsDispatched(a, SplitBody(b), 0, p, w.clock);
    PlainIsDispatched(c, "", 1, p, w.clock);
    PairTicks(x, y, p, w.clock);
    SplitBodyShape(b);
    SplitPairSaved(w, Stamp(x, p.stamp), Stamp(y, p.stamp), b);
    FirstPoll(w, file, p);
    PlainIsDispatched(b, "", 1, q, w.clock);
    TwoRuns(w, file, p, q);
  }

  lemma {:induction false} FirstPoll(w: World, file: string, p: Poll)
    requires Polls(w, [p]) && PollTimes(p, w.clock)
    ensures FileAfter(w, file, [p]) == Polled(w, file, p)
  {
    assert [p][..0] == [];
  }

  lemma {:induction false} TwoRuns(w: World, file: string, p: Poll, q: Poll)
    requires Polls(w, [p]) && Polls(w, [p, q]) && PollTimes(p, w.clock) && PollTimes(q, w.clock)
    requires |Loaded(w, file)| > 1 && Loaded(w, file)[1].lastRun.None? && Dispatched(Loaded(w, file)[1], 1, p, w.clock)
    requires var after := Loaded(w, FileAfter(w, file, [p]));
             |after| > 1 && Dispatched(after[1], 1, q, w.clock)
    ensures RunsOf(w, file, [p, q], 1) == [p.stamp, q.stamp]
  {
    var front: seq<Poll> := [];
    assert [p][..0] == front && RunsOf(w, file, front, 1) == [];
    assert RunsOf(w, file, [p], 1) == [p.stamp];
    assert [p, q][..1] == [p] && [p.stamp] + [q.stamp] == [p.stamp, q.stamp];
  }
}
