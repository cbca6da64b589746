/** The fields of a Task and the type checks that guard them: what the constructor
    accepts, what the time setters build, and the sort keys setSortingKey admits. */
module TaskFields {
  import opened PyValues

  /** The state of one Task object. Durations are timedeltas in seconds; the other
      fields hold whatever value passed the checks, with no coercion. */
  datatype TaskState = TaskState(
    name: string,
    description: Obj,
    difficultyLevel: Obj,
    priorityLevel: Obj,
    taskDate: Obj,
    predictedTimeRequired: Duration,
    actualTimeRequired: Duration,
    completed: Obj)

  /** What construction establishes and every setter keeps: a truthy description is
      a str, a truthy level is an int, and the date is never set (any truthy date
      is refused, see NewTask). */
  predicate WellFormed(t: TaskState) {
    (Truthy(t.description) ==> t.description.StrObj?) &&
    (Truthy(t.difficultyLevel) ==> IsInt(t.difficultyLevel)) &&
    (Truthy(t.priorityLevel) ==> IsInt(t.priorityLevel)) &&
    !Truthy(t.taskDate)
  }

  /** Task(name, description, task_difficulty_level, task_priority_level, task_date,
      predicted_time_required, actual_time_required, completed). The date test is
      isinstance(task_date, datetime.date) where `datetime` names the datetime class,
      whose `date` is a method rather than a type, so the test raises TypeError for
      every truthy task_date, a real date included. */
  function NewTask(name: Obj, description: Obj, difficulty: Obj, priority: Obj,
                   taskDate: Obj, predicted: Obj, actual: Obj, completed: Obj): (r: Result<TaskState>)
    ensures r.Err? ==> r.error == TypeError
    ensures r.Ok? <==>
      name.StrObj? && predicted.DurationObj? && actual.DurationObj? && !Truthy(taskDate) &&
      (description.StrObj? || !Truthy(description)) &&
      (IsInt(difficulty) || !Truthy(difficulty)) &&
      (IsInt(priority) || !Truthy(priority))
    ensures r.Ok? ==> WellFormed(r.value)
    ensures r.Ok? ==>
      StrObj(r.value.name) == name && r.value.description == description &&
      r.value.difficultyLevel == difficulty && r.value.priorityLevel == priority &&
      r.value.taskDate == taskDate && DurationObj(r.value.predictedTimeRequired) == predicted &&
      DurationObj(r.value.actualTimeRequired) == actual && r.value.completed == completed
  {
    if !predicted.DurationObj? || !actual.DurationObj? then Err(TypeError)
    else if Truthy(taskDate) then Err(TypeError)
    else if Truthy(description) && !description.StrObj? then Err(TypeError)
    else if Truthy(difficulty) && !IsInt(difficulty) then Err(TypeError)
    else if Truthy(priority) && !IsInt(priority) then Err(TypeError)
    else if !name.StrObj? then Err(TypeError)
    else Ok(TaskState(name.s, description, difficulty, priority, taskDate,
                      predicted.d, actual.d, completed))
  }

  /** With every optional argument left at its default (None, None, None, None,
      timedelta(0), timedelta(0), False) construction succeeds exactly for a str name. */
  lemma NewTaskWithDefaults(name: Obj)
    ensures var r := NewTask(name, NoneObj, NoneObj, NoneObj, NoneObj,
                             DurationObj(0), DurationObj(0), BoolObj(false));
            (r.Ok? <==> name.StrObj?) &&
            (r.Ok? ==> r.value == TaskState(name.s, NoneObj, NoneObj, NoneObj, NoneObj, 0, 0, BoolObj(false)))
  {
  }

  /** A date passed to the constructor is always refused. */
  lemma NewTaskRefusesDates(name: Obj, description: Obj, difficulty: Obj, priority: Obj,
                            date: Date, predicted: Obj, actual: Obj, completed: Obj)
    ensures NewTask(name, description, difficulty, priority, DateObj(date),
                    predicted, actual, completed) == Err(TypeError)
  {
  }

  /** timedelta(seconds=seconds, minutes=minutes, hours=hours) as the two time
      setters call it, after they have checked that all three are ints: the total is
      seconds + 60 * minutes + 3600 * hours, and a total beyond timedelta's range
      raises OverflowError. */
  function MakeDuration(seconds: Obj, minutes: Obj, hours: Obj): (r: Result<Duration>)
    ensures !(IsInt(seconds) && IsInt(minutes) && IsInt(hours)) ==> r == Err(TypeError)
    ensures IsInt(seconds) && IsInt(minutes) && IsInt(hours) ==>
      var total := IntValue(seconds) + 60 * IntValue(minutes) + 3600 * IntValue(hours);
      if MinSeconds <= total <= MaxSeconds then r == Ok(total) else r == Err(OverflowError)
  {
    if !IsInt(seconds) || !IsInt(minutes) || !IsInt(hours) then Err(TypeError)
    else
      var total := IntValue(seconds) + 60 * IntValue(minutes) + 3600 * IntValue(hours);
      if total < MinSeconds || total > MaxSeconds then Err(OverflowError) else Ok(total)
  }

  /** A duration built from clock components reads back as those components. */
  lemma MakeDurationShowsComponents(s: nat, m: nat, h: nat)
    requires s < 60 && m < 60 && h < 24
    ensures MakeDuration(IntObj(s), IntObj(m), IntObj(h)).Ok?
    ensures ShowDuration(MakeDuration(IntObj(s), IntObj(m), IntObj(h)).value)
            == NatDigits(h) + ":" + Pad2(m) + ":" + Pad2(s)
  {
    assert 24 * 0 + h == h;
    MakeDurationShowsDaysAndClock(s, m, h, 0);
  }

  /** A duration built from whole days' worth of hours plus a clock reading prints as
      the day count (when there is one) followed by that clock reading. */
  lemma MakeDurationShowsDaysAndClock(s: nat, m: nat, h: nat, days: nat)
    requires s < 60 && m < 60 && h < 24
    requires SecondsPerDay * days + (3600 * h + 60 * m + s) <= MaxSeconds
    ensures MakeDuration(IntObj(s), IntObj(m), IntObj(24 * days + h)).Ok?
    ensures var clock := NatDigits(h) + ":" + Pad2(m) + ":" + Pad2(s);
            ShowDuration(MakeDuration(IntObj(s), IntObj(m), IntObj(24 * days + h)).value) ==
              if days == 0 then clock
              else DecimalString(days) + " day" + (if days == 1 then "" else "s") + ", " + clock
  {
    var total := SecondsPerDay * days + (3600 * h + 60 * m + s);
    HoursInSeconds(s, m, h, days);
    assert MakeDuration(IntObj(s), IntObj(m), IntObj(24 * days + h)) == Ok(total);
    ShowDurationDaysAndClock(total, days, h, m, s);
  }

  /** 24 * days + h hours, m minutes and s seconds are that many whole days of seconds
      plus the clock reading h:m:s, and never negative. */
  lemma HoursInSeconds(s: nat, m: nat, h: nat, days: nat)
    ensures s + 60 * m + 3600 * (24 * days + h) == SecondsPerDay * days + (3600 * h + 60 * m + s)
    ensures 0 <= SecondsPerDay * days
  {
  }

  /** `sortKey in range(0, 5)`; a bool is in the range as 0 or 1, anything that is not
      an int is not. */
  predicate SortKeyInRange(key: Obj) {
    IsInt(key) && 0 <= IntValue(key) < 5
  }

  /** toggleCompletion's new value: `not completed`. */
  function Toggled(completed: Obj): (r: Obj)
    ensures r.BoolObj? && r.b != Truthy(completed)
  {
    BoolObj(!Truthy(completed))
  }

  /** Toggling twice restores a bool flag; any other value comes back as the bool of
      its truth value. */
  lemma ToggleTwice(completed: Obj)
    ensures Toggled(Toggled(completed)) == BoolObj(Truthy(completed))
    ensures completed.BoolObj? ==> Toggled(Toggled(completed)) == completed
  {
  }
}
