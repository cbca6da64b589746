/** The overloaded operators of Task: `+` and the six comparisons. Each dispatches on
    the class-wide sort key (passed here as `mode`) and then on the type of the right
    operand, and may return a value, raise, or fall off its end and return None. */
module TaskOperators {
  import opened PyValues
  import opened TaskFields

  /** The right operand, classified by the isinstance tests the operators make. */
  datatype Operand =
    | TaskOp(task: TaskState)
    | NumOp(n: int)           // an int or a bool
    | DurationOp(d: Duration) // a timedelta
    | DateOp(date: Date)
    | OtherOp                 // anything else: str, None, ...

  /** The duration the time modes work on: actual time in mode 0, predicted otherwise. */
  function TimeField(mode: int, t: TaskState): Duration {
    if mode == 0 then t.actualTimeRequired else t.predictedTimeRequired
  }

  /** The attribute a sort mode selects, as a Python value. */
  function SortField(mode: int, t: TaskState): Obj
    requires mode in {0, 1, 3, 4}
  {
    if mode == 0 then DurationObj(t.actualTimeRequired)
    else if mode == 1 then DurationObj(t.predictedTimeRequired)
    else if mode == 3 then t.difficultyLevel
    else t.priorityLevel
  }

  /** The branch structure shared by __gt__, __lt__, __ge__, __le__, __eq__ and __ne__,
      applying `rel` where each method applies its own operator.
      Modes 0 and 1: a number or a timedelta operand is asked for its
      actual_time_required / predicted_time_required, which it lacks.
      Mode 2: isinstance(other, datetime.date) raises, `datetime.date` being a method.
      Mode 3: a number is compared with the difficulty directly.
      Mode 4: a number is asked for its priority_level, which it lacks. */
  function Dispatch(rel: CmpOp, mode: int, self: TaskState, other: Operand): (r: Outcome<bool>)
    ensures other.TaskOp? && mode in {0, 1, 3, 4} ==>
      r == PyCompare(rel, SortField(mode, self), SortField(mode, other.task))
    ensures r.Error? ==> r.error == TypeError || r.error == AttributeError
    ensures r.Error? && r.error == TypeError ==>
      mode == 2 ||
      (other.TaskOp? && mode in {0, 1, 3, 4} &&
       !Orderable(SortField(mode, self), SortField(mode, other.task))) ||
      (mode == 3 && other.NumOp? && !Orderable(self.difficultyLevel, IntObj(other.n)))
  {
    if mode == 0 || mode == 1 then
      match other
      case TaskOp(u) => PyCompare(rel, DurationObj(TimeField(mode, self)), DurationObj(TimeField(mode, u)))
      case NumOp(_) => Error(AttributeError)
      case DurationOp(_) => Error(AttributeError)
      case _ => NoneResult
    else if mode == 2 then
      Error(TypeError)
    else if mode == 3 then
      match other
      case TaskOp(u) => PyCompare(rel, self.difficultyLevel, u.difficultyLevel)
      case NumOp(n) => PyCompare(rel, self.difficultyLevel, IntObj(n))
      case _ => NoneResult
    else if mode == 4 then
      match other
      case TaskOp(u) => PyCompare(rel, self.priorityLevel, u.priorityLevel)
      case NumOp(_) => Error(AttributeError)
      case _ => NoneResult
    else
      NoneResult
  }

  /** self > other */
  function Greater(mode: int, self: TaskState, other: Operand): (r: Outcome<bool>)
    ensures other.TaskOp? && mode in {0, 1, 3, 4} ==>
      r == PyCompare(Gt, SortField(mode, self), SortField(mode, other.task))
    ensures mode == 2 ==> r == Error(TypeError)
  {
    Dispatch(Gt, mode, self, other)
  }

  /** self < other */
  function Less(mode: int, self: TaskState, other: Operand): (r: Outcome<bool>)
    ensures other.TaskOp? && mode in {0, 1, 3, 4} ==>
      r == PyCompare(Lt, SortField(mode, self), SortField(mode, other.task))
    ensures mode == 2 ==> r == Error(TypeError)
  {
    Dispatch(Lt, mode, self, other)
  }

  /** self >= other */
  function GreaterEqual(mode: int, self: TaskState, other: Operand): (r: Outcome<bool>)
    ensures other.TaskOp? && mode in {0, 1, 3, 4} ==>
      r == PyCompare(Ge, SortField(mode, self), SortField(mode, other.task))
    ensures mode == 2 ==> r == Error(TypeError)
  {
    Dispatch(Ge, mode, self, other)
  }

  /** self <= other, as written: every branch of __le__ evaluates >=. */
  function LessEqual(mode: int, self: TaskState, other: Operand): (r: Outcome<bool>)
    ensures other.TaskOp? && mode in {0, 1, 3, 4} ==>
      r == PyCompare(Ge, SortField(mode, self), SortField(mode, other.task))
    ensures mode == 2 ==> r == Error(TypeError)
  {
    Dispatch(Ge, mode, self, other)
  }

  /** self == other */
  function Equal(mode: int, self: TaskState, other: Operand): (r: Outcome<bool>)
    ensures other.TaskOp? && mode in {0, 1, 3, 4} ==>
      r == PyCompare(Eq, SortField(mode, self), SortField(mode, other.task))
    ensures mode == 2 ==> r == Error(TypeError)
  {
    Dispatch(Eq, mode, self, other)
  }

  /** self != other */
  function NotEqual(mode: int, self: TaskState, other: Operand): (r: Outcome<bool>)
    ensures other.TaskOp? && mode in {0, 1, 3, 4} ==>
      r == PyCompare(Ne, SortField(mode, self), SortField(mode, other.task))
    ensures mode == 2 ==> r == Error(TypeError)
  {
    Dispatch(Ne, mode, self, other)
  }

  /** timedelta + timedelta, which raises OverflowError outside timedelta's range. */
  function SumDurations(a: Duration, b: Duration): (r: Outcome<Duration>)
    ensures r.Value? || r == Error(OverflowError)
    ensures r.Value? <==> MinSeconds <= a + b <= MaxSeconds
    ensures r.Value? ==> r.value == a + b
  {
    if a + b < MinSeconds || a + b > MaxSeconds then Error(OverflowError) else Value(a + b)
  }

  /** self + other: only the time modes 0 and 1 add; a number or a timedelta operand
      is asked for a duration attribute it lacks. */
  function Add(mode: int, self: TaskState, other: Operand): (r: Outcome<Duration>)
    ensures r.Value? ==>
      (mode == 0 || mode == 1) && other.TaskOp? &&
      r.value == TimeField(mode, self) + TimeField(mode, other.task)
    ensures r.Error? ==> r.error in {TypeError, AttributeError, OverflowError}
    ensures r.NoneResult? ==> (mode == 0 || mode == 1) && (other.DateOp? || other.OtherOp?)
  {
    if mode != 0 && mode != 1 then Error(TypeError)
    else
      match other
      case TaskOp(u) => SumDurations(TimeField(mode, self), TimeField(mode, u))
      case NumOp(_) => Error(AttributeError)
      case DurationOp(_) => Error(AttributeError)
      case _ => NoneResult
  }

  // ---------------------------------------------------------------------------
  // Addition

  /** Outside modes 0 and 1 addition raises TypeError, whatever the operand. */
  lemma AddRejectsNonTimeModes(mode: int, self: TaskState, other: Operand)
    requires mode != 0 && mode != 1
    ensures Add(mode, self, other) == Error(TypeError)
  {
  }

  /** Adding two tasks sums the actual times in mode 0 and the predicted times in
      mode 1, in either order. */
  lemma AddTasks(mode: int, a: TaskState, b: TaskState)
    requires mode == 0 || mode == 1
    ensures var sum := (if mode == 0 then a.actualTimeRequired + b.actualTimeRequired
                        else a.predictedTimeRequired + b.predictedTimeRequired);
            Add(mode, a, TaskOp(b)) ==
              (if MinSeconds <= sum <= MaxSeconds then Value(sum) else Error(OverflowError))
    ensures Add(mode, a, TaskOp(b)) == Add(mode, b, TaskOp(a))
  {
  }

  /** Adding anything but a task in a time mode raises AttributeError for a number or a
      timedelta and returns None for other values. */
  lemma AddNonTaskOperand(mode: int, self: TaskState, other: Operand)
    requires mode == 0 || mode == 1
    requires !other.TaskOp?
    ensures Add(mode, self, other) ==
      (if other.NumOp? || other.DurationOp? then Error(AttributeError) else NoneResult)
  {
  }

  /** Between tasks in a time mode, addition commutes and, where the partial sums stay
      within timedelta's range, associates. */
  lemma SumDurationsCommuteAndAssociate(a: Duration, b: Duration, c: Duration)
    ensures SumDurations(a, b) == SumDurations(b, a)
    ensures SumDurations(a, b).Value? && SumDurations(b, c).Value? &&
            SumDurations(a, b + c).Value? ==>
            SumDurations(a + b, c) == SumDurations(a, b + c)
  {
  }

  // ---------------------------------------------------------------------------
  // Comparison

  /** Between two tasks, every mode but the date mode compares the attribute the mode
      selects on both sides, as Python compares those two values. */
  lemma CompareTasksBySortField(rel: CmpOp, mode: int, a: TaskState, b: TaskState)
    requires mode in {0, 1, 3, 4}
    ensures Dispatch(rel, mode, a, TaskOp(b)) == PyCompare(rel, SortField(mode, a), SortField(mode, b))
  {
  }

  /** In the time modes two tasks compare as their selected durations do. */
  lemma TimeModesCompareDurations(mode: int, a: TaskState, b: TaskState)
    requires mode == 0 || mode == 1
    ensures Greater(mode, a, TaskOp(b)) == Value(TimeField(mode, a) > TimeField(mode, b))
    ensures Less(mode, a, TaskOp(b)) == Value(TimeField(mode, a) < TimeField(mode, b))
    ensures GreaterEqual(mode, a, TaskOp(b)) == Value(TimeField(mode, a) >= TimeField(mode, b))
    ensures Equal(mode, a, TaskOp(b)) == Value(TimeField(mode, a) == TimeField(mode, b))
    ensures NotEqual(mode, a, TaskOp(b)) == Value(TimeField(mode, a) != TimeField(mode, b))
  {
  }

  /** In the difficulty and priority modes two tasks whose levels are ints (or bools)
      compare as those integers. */
  lemma LevelModesCompareLevels(mode: int, a: TaskState, b: TaskState)
    requires mode == 3 || mode == 4
    requires IsInt(SortField(mode, a)) && IsInt(SortField(mode, b))
    ensures var x, y := IntValue(SortField(mode, a)), IntValue(SortField(mode, b));
            Greater(mode, a, TaskOp(b)) == Value(x > y) && Less(mode, a, TaskOp(b)) == Value(x < y) &&
            GreaterEqual(mode, a, TaskOp(b)) == Value(x >= y) &&
            Equal(mode, a, TaskOp(b)) == Value(x == y) && NotEqual(mode, a, TaskOp(b)) == Value(x != y)
  {
  }

  /** An unset level (None) cannot be ordered: <, >, >= raise TypeError, while == is
      true only against another unset level. */
  lemma UnsetLevelsDoNotOrder(mode: int, a: TaskState, b: TaskState)
    requires mode == 3 || mode == 4
    requires SortField(mode, a) == NoneObj
    ensures Greater(mode, a, TaskOp(b)) == Error(TypeError)
    ensures Less(mode, a, TaskOp(b)) == Error(TypeError)
    ensures GreaterEqual(mode, a, TaskOp(b)) == Error(TypeError)
    ensures Equal(mode, a, TaskOp(b)) == Value(SortField(mode, b) == NoneObj)
  {
  }

  /** The date mode raises TypeError for every operator and operand. */
  lemma DateModeRaises(rel: CmpOp, self: TaskState, other: Operand)
    ensures Dispatch(rel, 2, self, other) == Error(TypeError)
  {
  }

  /** A sort key outside 0..4 (set by writing the attribute directly) matches no
      branch, so every comparison returns None. */
  lemma UnknownModeReturnsNone(rel: CmpOp, mode: int, self: TaskState, other: Operand)
    requires !(0 <= mode <= 4)
    ensures Dispatch(rel, mode, self, other) == NoneResult
  {
  }

  /** In the difficulty mode a number n stands for a task whose difficulty is n. */
  lemma DifficultyModeNumberOperand(rel: CmpOp, self: TaskState, n: int, u: TaskState)
    requires u.difficultyLevel == IntObj(n)
    ensures Dispatch(rel, 3, self, NumOp(n)) == Dispatch(rel, 3, self, TaskOp(u))
  {
  }

  /** The operands for which no branch returns a value: a number or timedelta in the
      time modes and a number in the priority mode reach a branch that raises
      AttributeError; a date, or a timedelta outside the time modes, or any other value
      falls through to None. */
  lemma NonTaskOperands(rel: CmpOp, mode: int, self: TaskState, other: Operand)
    requires mode in {0, 1, 3, 4}
    requires !other.TaskOp? && !(mode == 3 && other.NumOp?)
    ensures Dispatch(rel, mode, self, other) ==
      (if other.NumOp? || (other.DurationOp? && mode <= 1) then Error(AttributeError) else NoneResult)
  {
  }

  /** != is the negation of == for every mode and operand, raised errors and None
      results included. */
  lemma NotEqualNegatesEqual(mode: int, self: TaskState, other: Operand)
    ensures match Equal(mode, self, other)
            case Value(b) => NotEqual(mode, self, other) == Value(!b)
            case _ => NotEqual(mode, self, other) == Equal(mode, self, other)
  {
  }

  /** a > b and b < a agree between tasks in every mode, and == and != give the same
      answer with the operands swapped. */
  lemma TaskComparisonsConverse(mode: int, a: TaskState, b: TaskState)
    ensures Greater(mode, a, TaskOp(b)) == Less(mode, b, TaskOp(a))
    ensures Equal(mode, a, TaskOp(b)) == Equal(mode, b, TaskOp(a))
    ensures NotEqual(mode, a, TaskOp(b)) == NotEqual(mode, b, TaskOp(a))
  {
    if mode in {0, 1, 3, 4} {
      PyCompareConverse(Gt, SortField(mode, a), SortField(mode, b));
      PyCompareConverse(Eq, SortField(mode, a), SortField(mode, b));
      PyCompareConverse(Ne, SortField(mode, a), SortField(mode, b));
    }
  }

  /** In every mode except the date mode a task equals itself. */
  lemma TaskEqualsItself(mode: int, t: TaskState)
    requires mode in {0, 1, 3, 4}
    ensures Equal(mode, t, TaskOp(t)) == Value(true)
    ensures NotEqual(mode, t, TaskOp(t)) == Value(false)
  {
    PyEqualsReflexive(SortField(mode, t));
  }

  /** Between two tasks in a time mode, exactly one of <, == and > holds. */
  lemma TimeModesTrichotomy(mode: int, a: TaskState, b: TaskState)
    requires mode == 0 || mode == 1
    ensures Less(mode, a, TaskOp(b)).Value? && Equal(mode, a, TaskOp(b)).Value? &&
            Greater(mode, a, TaskOp(b)).Value?
    ensures (if Less(mode, a, TaskOp(b)).value then 1 else 0)
          + (if Equal(mode, a, TaskOp(b)).value then 1 else 0)
          + (if Greater(mode, a, TaskOp(b)).value then 1 else 0) == 1
  {
  }

  // ---------------------------------------------------------------------------
  // __le__ as written, and as evidently intended

  /** __le__ returns exactly what __ge__ returns, in every mode and for every operand. */
  lemma LessEqualRepeatsGreaterEqual(mode: int, self: TaskState, other: Operand)
    ensures LessEqual(mode, self, other) == GreaterEqual(mode, self, other)
  {
  }

  function TaskWithActual(actual: Duration): TaskState {
    TaskState("t", NoneObj, NoneObj, NoneObj, NoneObj, 0, actual, BoolObj(false))
  }

  /** A task needing 10 s is reported as not <= one needing 20 s, and one needing
      20 s as <= one needing 10 s. */
  lemma LessEqualCounterexample()
    ensures LessEqual(0, TaskWithActual(10), TaskOp(TaskWithActual(20))) == Value(false)
    ensures LessEqual(0, TaskWithActual(20), TaskOp(TaskWithActual(10))) == Value(true)
    ensures LessEqualIntended(0, TaskWithActual(10), TaskOp(TaskWithActual(20))) == Value(true)
  {
  }

  /** self <= other with the operator the method's name promises. */
  function LessEqualIntended(mode: int, self: TaskState, other: Operand): Outcome<bool> {
    Dispatch(Le, mode, self, other)
  }

  /** The corrected <= is the converse of >= between tasks, and is < or ==. */
  lemma LessEqualIntendedIsConverse(mode: int, a: TaskState, b: TaskState)
    ensures LessEqualIntended(mode, a, TaskOp(b)) == GreaterEqual(mode, b, TaskOp(a))
    ensures mode in {0, 1, 3, 4} && Orderable(SortField(mode, a), SortField(mode, b)) ==>
      LessEqualIntended(mode, a, TaskOp(b)).Value? &&
      (LessEqualIntended(mode, a, TaskOp(b)).value <==>
       Less(mode, a, TaskOp(b)) == Value(true) || Equal(mode, a, TaskOp(b)) == Value(true))
  {
    if mode in {0, 1, 3, 4} {
      PyCompareConverse(Le, SortField(mode, a), SortField(mode, b));
    }
  }

  // ---------------------------------------------------------------------------
  // The priority mode's number operand, as written and as evidently intended

  /** As written, comparing a task with a number in the priority mode raises, even
      where the difficulty mode would compare the level with the number. */
  lemma PriorityNumberRaises(rel: CmpOp, self: TaskState, n: int)
    ensures Dispatch(rel, 4, self, NumOp(n)) == Error(AttributeError)
  {
  }

  /** Dispatch with the priority mode comparing a number operand against the priority,
      as the difficulty mode does against the difficulty. */
  function DispatchIntended(rel: CmpOp, mode: int, self: TaskState, other: Operand): Outcome<bool> {
    if mode == 4 && other.NumOp? then PyCompare(rel, self.priorityLevel, IntObj(other.n))
    else Dispatch(rel, mode, self, other)
  }

  /** With the correction a number n stands for a task whose priority is n, and a task
      of priority 5 is greater than 3. */
  lemma PriorityNumberIntended(rel: CmpOp, self: TaskState, n: int, u: TaskState)
    requires u.priorityLevel == IntObj(n)
    ensures DispatchIntended(rel, 4, self, NumOp(n)) == DispatchIntended(rel, 4, self, TaskOp(u))
    ensures DispatchIntended(Gt, 4, self.(priorityLevel := IntObj(5)), NumOp(3)) == Value(true)
  {
  }
}
