/** Heartbeat entries and the text forms of their fields. */
module Heartbeat {
  import opened Prelude
  import opened Text
  import opened Cron

  datatype Priority = Urgent | High | Normal | Low | OtherPriority(text: string)

  datatype Schedule =
    Once | Minutely | Hourly | Daily | Weekly | CronSchedule(expr: string) | OtherSchedule(text: string)

  datatype Status = Pending | Running | Processing | Done | Skipped | Blocked | Failed | OtherStatus(text: string)

  /** A scheduled entry; instants are nanoseconds since the epoch. */
  datatype Entry = Entry(
    title: string, priority: Priority, schedule: Schedule, approved: bool, status: Status,
    lastRun: Option<int>, notBefore: Option<int>, body: string)

  function ShowPriority(p: Priority): string {
    match p
    case Urgent => "urgent"
    case High => "high"
    case Normal => "normal"
    case Low => "low"
    case OtherPriority(text) => text
  }

  function PriorityNamed(name: string): Priority {
    match name
    case "urgent" => Urgent
    case "high" => High
    case "normal" => Normal
    case "low" => Low
    case other => OtherPriority(other)
  }

  function ParsePriority(s: string): Priority {
    PriorityNamed(Lower(Trim(s)))
  }

  function ShowStatus(s: Status): string {
    match s
    case Pending => "pending"
    case Running => "running"
    case Processing => "processing"
    case Done => "done"
    case Skipped => "skipped"
    case Blocked => "blocked"
    case Failed => "failed"
    case OtherStatus(text) => text
  }

  function StatusNamed(name: string): Status {
    match name
    case "pending" => Pending
    case "running" => Running
    case "processing" => Processing
    case "done" => Done
    case "skipped" => Skipped
    case "blocked" => Blocked
    case "failed" => Failed
    case other => OtherStatus(other)
  }

  function ParseStatus(s: string): Status {
    StatusNamed(Lower(Trim(s)))
  }

  function ShowSchedule(s: Schedule): string {
    match s
    case Once => "once"
    case Minutely => "minutely"
    case Hourly => "hourly"
    case Daily => "daily"
    case Weekly => "weekly"
    case CronSchedule(expr) => "cron: " + expr
    case OtherSchedule(text) => text
  }

  /** The schedules that have a name of their own. */
  function ScheduleNamed(name: string): Option<Schedule> {
    match name
    case "once" => Some(Once)
    case "minutely" => Some(Minutely)
    case "minute" => Some(Minutely)
    case "every_minute" => Some(Minutely)
    case "hourly" => Some(Hourly)
    case "daily" => Some(Daily)
    case "weekly" => Some(Weekly)
    case _ => None
  }

  /** The text after a `cron:` prefix. */
  function CronText(raw: string): Option<string> {
    if |raw| >= 5 && raw[..5] == "cron:" then Some(Trim(raw[5..])) else None
  }

  function ParseSchedule(s: string): Schedule {
    var raw := Trim(s);
    if raw == "" then OtherSchedule("")
    else
      match ScheduleNamed(Lower(raw))
      case Some(schedule) => schedule
      case None =>
        var expr := if CronText(raw).Some? then CronText(raw).value else raw;
        if ParseExpression(expr).Ok? then CronSchedule(expr) else OtherSchedule(raw)
  }

  // ── Text forms that read back ────────────────────────────────────────────────

  predicate OneLine(s: string) {
    IsTrimmed(s) && '\n' !in s
  }

  predicate GoodPriority(p: Priority) {
    p.OtherPriority? ==> OneLine(p.text) && Lower(p.text) == p.text && p.text !in {"urgent", "high", "normal", "low"}
  }

  predicate GoodStatus(s: Status) {
    s.OtherStatus? ==>
      && OneLine(s.text) && Lower(s.text) == s.text
      && s.text !in {"pending", "running", "processing", "done", "skipped", "blocked", "failed"}
  }

  /** A cron text that parses, or another text that is no name and no cron text. */
  predicate GoodSchedule(s: Schedule) {
    && (s.CronSchedule? ==> OneLine(s.expr) && ParseExpression(s.expr).Ok?)
    && (s.OtherSchedule? ==>
          && OneLine(s.text)
          && Lower(s.text) !in {"once", "minutely", "minute", "every_minute", "hourly", "daily", "weekly"}
          && (s.text != "" ==> !ParseExpression(if CronText(s.text).Some? then CronText(s.text).value else s.text).Ok?))
  }

  /** The names of priorities and statuses, in any letter case and with white space around them. */
  lemma {:induction false} NamesMean(s: string)
    ensures var name := Lower(Trim(s));
            && ParsePriority(s) == (if name == "urgent" then Urgent else if name == "high" then High
                                    else if name == "normal" then Normal else if name == "low" then Low
                                    else OtherPriority(name))
            && ParseStatus(s) == (if name == "pending" then Pending else if name == "running" then Running
                                  else if name == "processing" then Processing else if name == "done" then Done
                                  else if name == "skipped" then Skipped else if name == "blocked" then Blocked
                                  else if name == "failed" then Failed else OtherStatus(name))
  {
  }

  /** The schedules by name, three of them for every minute. */
  lemma {:induction false} SchedulesMean(s: string)
    requires Trim(s) != ""
    ensures var name := Lower(Trim(s));
            && (ParseSchedule(s) == Once <==> name == "once")
            && (ParseSchedule(s) == Minutely <==> name == "minutely" || name == "minute" || name == "every_minute")
            && (ParseSchedule(s) == Hourly <==> name == "hourly")
            && (ParseSchedule(s) == Daily <==> name == "daily")
            && (ParseSchedule(s) == Weekly <==> name == "weekly")
  {
    var name := Lower(Trim(s));
    if ScheduleNamed(name) == None {
      assert ParseSchedule(s).CronSchedule? || ParseSchedule(s).OtherSchedule?;
    }
  }

  lemma {:induction false} PriorityRoundTrip(p: Priority)
    requires GoodPriority(p)
    ensures ParsePriority(ShowPriority(p)) == p && OneLine(ShowPriority(p))
  {
    var s := ShowPriority(p);
    assert IsTrimmed(s);
    TrimTrimmed(s);
    assert Lower(s) == s;
  }

  lemma {:induction false} StatusRoundTrip(s: Status)
    requires GoodStatus(s)
    ensures ParseStatus(ShowStatus(s)) == s && OneLine(ShowStatus(s))
  {
    var text := ShowStatus(s);
    assert IsTrimmed(text);
    TrimTrimmed(text);
    assert Lower(text) == text;
  }

  lemma {:induction false} EmptyIsNoCron()
    ensures !ParseExpression("").Ok?
  {
    assert Words("") == [];
  }

  lemma {:induction false} CronHasNoName(expr: string)
    ensures ScheduleNamed(Lower("cron: " + expr)) == None
  {
    var s := Lower("cron: " + expr);
    assert s[0] == 'c';
  }

  lemma {:induction false} CronTextOf(expr: string)
    requires IsTrimmed(expr) && expr != ""
    ensures CronText("cron: " + expr) == Some(expr) && IsTrimmed("cron: " + expr)
  {
    var s := "cron: " + expr;
    assert s[..5] == "cron:" && s[5..] == " " + expr;
    TrimPadded(" ", expr, "");
    assert " " + expr + "" == " " + expr;
    assert s[|s| - 1] == expr[|expr| - 1];
  }

  lemma {:induction false} NamedSchedule(s: Schedule)
    requires !s.CronSchedule? && !s.OtherSchedule?
    ensures var text := ShowSchedule(s);
            text != "" && IsTrimmed(text) && '\n' !in text && ScheduleNamed(Lower(text)) == Some(s)
  {
    assert Lower(ShowSchedule(s)) == ShowSchedule(s);
  }

  lemma {:induction false} ScheduleRoundTrip(s: Schedule)
    requires GoodSchedule(s)
    ensures ParseSchedule(ShowSchedule(s)) == s && OneLine(ShowSchedule(s))
  {
    var text := ShowSchedule(s);
    match s {
      case CronSchedule(expr) =>
        EmptyIsNoCron();
        CronTextOf(expr);
        CronHasNoName(expr);
      case OtherSchedule(_) =>
      case _ => NamedSchedule(s);
    }
    TrimTrimmed(text);
  }
}
