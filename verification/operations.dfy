/** taskOperations.toggleTask of src/operations.ts: toggling with the same-minute
    auto-increment rule. A moment is a whole number of minutes, so "the same minute" is
    equality. */
module Operations {
  import opened Results
  import opened Clock
  import opened StatusModel
  import opened TaskModel

  /** The one setting the operation reads. */
  datatype Settings = Settings(autoIncrementOnSameTime: bool)

  /** The end time a task in progress would be finished at would equal its start. */
  predicate WillIncrement(settings: Settings, t: Task, endTime: Moment) {
    settings.autoIncrementOnSameTime && t.start.Some? && t.start.value == endTime
  }

  /** Toggle the task with the given times, both defaulting to now; with auto-increment on,
      an end in the start's minute is moved one minute past the start. */
  function ToggleTask(settings: Settings, t: Task, startTime: Option<Moment>, endTime: Option<Moment>, now: Moment): (r: Task)
    ensures t.status.statusType == TODO ==>
      && r.status == MakeDoing() && r.start == Some(startTime.GetOr(now)) && r.end.None?
      && r.taskBody == t.checkboxBody
    ensures t.status.statusType == DOING ==>
      && r.status == MakeDone() && r.start == t.start
      && r.end == Some(if WillIncrement(settings, t, endTime.GetOr(now)) then t.start.value + 1 else endTime.GetOr(now))
      && r.taskBody == t.taskBody
    ensures t.status.statusType in {DONE, CANCELLED} ==> r == t
    ensures r.indentation == t.indentation && r.listMarker == t.listMarker
    ensures r.statusSymbol == t.statusSymbol && r.checkboxBody == t.checkboxBody
  {
    var s := startTime.GetOr(now);
    var e := endTime.GetOr(now);
    Toggle(t, Some(s), Some(if WillIncrement(settings, t, e) then t.start.value + 1 else e), now)
  }

  /** With auto-increment on, a task in progress with a start time is never finished at
      its start time; with it off, it is finished exactly at the given end time. */
  lemma IncrementSeparatesStartAndEnd(settings: Settings, t: Task, startTime: Option<Moment>, endTime: Option<Moment>, now: Moment)
    requires t.status.statusType == DOING && t.start.Some?
    ensures settings.autoIncrementOnSameTime ==>
      ToggleTask(settings, t, startTime, endTime, now).end.value != t.start.value
    ensures !settings.autoIncrementOnSameTime ==>
      ToggleTask(settings, t, startTime, endTime, now).end == Some(endTime.GetOr(now))
  {
  }

  /** The setting matters only when finishing a task whose start equals the end time:
      everywhere else both settings give the same task. */
  lemma SettingMattersOnlyOnSameMinute(t: Task, startTime: Option<Moment>, endTime: Option<Moment>, now: Moment)
    ensures ToggleTask(Settings(true), t, startTime, endTime, now) != ToggleTask(Settings(false), t, startTime, endTime, now)
            <==> t.status.statusType == DOING && t.start == Some(endTime.GetOr(now))
  {
  }

  /** Finishing a task in progress at or after its start: with auto-increment on, the task
      ends strictly after it started, so its duration is never zero; with it off, the
      duration may be zero. */
  lemma ToggleTaskPositiveDuration(settings: Settings, t: Task, startTime: Option<Moment>, endTime: Option<Moment>, now: Moment)
    requires t.status.statusType == DOING && t.start.Some? && t.start.value <= endTime.GetOr(now)
    ensures var r := ToggleTask(settings, t, startTime, endTime, now);
      && (settings.autoIncrementOnSameTime ==> r.start.value < r.end.value)
      && (!settings.autoIncrementOnSameTime ==> r.start.value <= r.end.value)
  {
  }

  /** The tests' examples: a task in progress since 10:00, finished at 10:00, ends at
      10:01 with the setting on and at 10:00 with it off; its start stays 10:00. */
  lemma SameMinuteExamples(t: Task, today: int)
    requires t.status == MakeDoing() && t.start == Some(today * MinutesPerDay + 600) && t.end.None?
    ensures var on := ToggleTask(Settings(true), t, Some(today * MinutesPerDay + 600), Some(today * MinutesPerDay + 600), 0);
      && on.start == Some(today * MinutesPerDay + 600) && on.end == Some(today * MinutesPerDay + 601)
      && FormatHHmm(on.end.value) == "10:01"
    ensures var off := ToggleTask(Settings(false), t, Some(today * MinutesPerDay + 600), Some(today * MinutesPerDay + 600), 0);
      && off.start == Some(today * MinutesPerDay + 600) && off.end == Some(today * MinutesPerDay + 600)
      && FormatHHmm(off.end.value) == "10:00"
  {
    var m := today * MinutesPerDay;
    assert (m + 601) % MinutesPerDay == 601;
    assert (m + 600) % MinutesPerDay == 600;
  }

  /** A task to do is started whatever the setting, and not ended. */
  lemma StartIgnoresSetting(settings: Settings, t: Task, startTime: Option<Moment>, endTime: Option<Moment>, now: Moment)
    requires t.status.statusType == TODO
    ensures ToggleTask(settings, t, startTime, endTime, now) == ToggleTask(Settings(false), t, startTime, endTime, now)
    ensures ToggleTask(settings, t, startTime, endTime, now).start.Some?
    ensures ToggleTask(settings, t, startTime, endTime, now).end.None?
  {
  }
}
