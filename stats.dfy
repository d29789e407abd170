/**
  The per-day focus statistics of the standalone Qt Pomodoro demo
  (`StatsStore`).  The history is an in-memory map from a day to its
  counters; a day is an abstract day number, so that "n days earlier" is
  subtraction, and the current day is passed in by the caller.
*/
module Stats {

  /** The counters kept for one day. */
  datatype DayStats = DayStats(pomodoros: int, focusMinutes: int)

  /** The counters of a day with no entry. */
  const NoStats := DayStats(0, 0)

  type Day = int

  type History = map<Day, DayStats>

  /** One line of the weekly report: the day and its counters. */
  datatype ReportRow = ReportRow(date: Day, pomodoros: int, focusMinutes: int)

  /** The counters stored for `day`, zeros when there are none. */
  function Lookup(h: History, day: Day): DayStats {
    if day in h then h[day] else NoStats
  }

  /** The report line of `day`. */
  function RowOf(h: History, day: Day): ReportRow {
    ReportRow(day, Lookup(h, day).pomodoros, Lookup(h, day).focusMinutes)
  }

  /** The history after one focus session of `minutes` on `today`: that day
      gains one pomodoro and the minutes (starting from zeros when it had no
      entry), and every other day keeps its counters. */
  function Logged(h: History, today: Day, minutes: int): (r: History)
    ensures Lookup(r, today).pomodoros == Lookup(h, today).pomodoros + 1
    ensures Lookup(r, today).focusMinutes == Lookup(h, today).focusMinutes + minutes
    ensures forall d :: d != today ==> Lookup(r, d) == Lookup(h, d)
    ensures r.Keys == h.Keys + {today}
  {
    var e := Lookup(h, today);
    h[today := DayStats(e.pomodoros + 1, e.focusMinutes + minutes)]
  }

  /** Logging a session shows up in the newest line of the weekly report
      and shifts no other line. */
  lemma LoggedReport(h: History, today: Day, minutes: int, i: int)
    requires 0 <= i < 7
    ensures var d := today - 6 + i;
            RowOf(Logged(h, today, minutes), d) ==
              if i == 6 then ReportRow(today, RowOf(h, today).pomodoros + 1, RowOf(h, today).focusMinutes + minutes)
              else RowOf(h, d)
  {
  }

  /** The store object; `history` stands for the decoded `stats/history`
      setting. */
  class StatsStore {
    var history: History

    constructor (history: History)
      ensures this.history == history
    {
      this.history := history;
    }

    method LogFocus(today: Day, minutes: int)
      modifies this
      ensures history == Logged(old(history), today, minutes)
    {
      var entry := if today in history then history[today] else NoStats;
      entry := entry.(pomodoros := entry.pomodoros + 1);
      entry := entry.(focusMinutes := entry.focusMinutes + minutes);
      history := history[today := entry];
    }

    /** The last seven days, oldest first and ending with `today`; a day
        without an entry reports zeros. */
    method WeeklyReport(today: Day) returns (days: seq<ReportRow>)
      ensures |days| == 7
      ensures forall i :: 0 <= i < 7 ==> days[i] == RowOf(history, today - 6 + i)
      ensures forall i :: 0 <= i < 7 ==> days[i].date == today - 6 + i
    {
      days := [];
      var delta := 6;
      while delta >= 0
        invariant -1 <= delta <= 6
        invariant |days| == 6 - delta
        invariant forall i :: 0 <= i < |days| ==> days[i] == RowOf(history, today - 6 + i)
      {
        var day := today - delta;
        var entry := if day in history then history[day] else NoStats;
        days := days + [ReportRow(day, entry.pomodoros, entry.focusMinutes)];
        delta := delta - 1;
      }
    }

    /** Today's counters, zeros when today has no entry. */
    method TodayStats(today: Day) returns (stats: DayStats)
      ensures today in history ==> stats == history[today]
      ensures today !in history ==> stats == NoStats
    {
      stats := if today in history then history[today] else NoStats;
    }
  }
}
