# TaskOrganizer's Task class, modelled in Dafny

TaskOrganizer is a single Python class, `Task` (`task.py`), that holds one to-do
item and does four things with it:

- It validates the item's fields in its constructor and in its setters.
- It orders items under a sort key shared by the whole class: 0 actual time,
  1 predicted time, 2 date, 3 difficulty, 4 priority.
- It adds the time fields of two items.
- It renders an item as a description (`__str__`) and as MySQL text: a `CREATE TABLE`
  statement for the class and an `INSERT` statement for an item.

The model is split into five modules:

- `PyValues` (`py_values.dfy`) covers the slice of Python the class relies on:
  - the values it is handed (`None`, `bool`, `int`, `str`, `timedelta`, `date`);
  - truthiness, and the fact that `bool` is an `int`;
  - rich comparison, where ordering values of unrelated types raises `TypeError`
    and `==` on them is `False`;
  - `str()` of ints and timedeltas, where a timedelta reads `[D day[s], ]H:MM:SS`
    with the day count floored;
  - the timedelta range, beyond which `OverflowError` is raised.
- `TaskFields` (`task_fields.dfy`) holds the state of an item as a value (`TaskState`).
  It also holds the constructor's type checks as a function (`NewTask`), the
  duration the time setters build (`MakeDuration`), and the sort-key range.
- `TaskObjects` (`task_objects.dfy`) holds the imperative part as classes:
  - `TaskClass` is the class object with the shared `sortingKey`. It has
    `setSortingKey` and the class method `getSQLCreateStatement`.
  - `Task` is an item, whose constructor and setters assign its fields.
  - `getSQLInsertStatement` and `__str__` grow a local string one piece at a time.
    Each is proved equal to a specification function in `TaskText`.
- `TaskText` (`task_text.dfy`) holds those specification functions. It also proves
  that the column list of the `INSERT` text follows the table the `CREATE` text
  declares, how the `INSERT` values line up with the `INSERT` columns, and how
  `__str__` relates to both.
- `TaskOperators` (`task_operators.dfy`) holds `+` and the six comparisons. They are
  pure functions of the two operands and the sort key. Each returns a value, an
  exception, or the `None` a Python method returns when control falls off its end.

Every operation that can fail returns a `Result` or `Outcome` that names the
exception (`TypeError`, `ValueError`, `AttributeError`, `OverflowError`). The
operations place no precondition on their callers, with two exceptions:

- `Task.Init`, the assignment tail of the constructor, requires the fields to have
  passed the constructor's checks.
- `Task.GetSQLInsertStatement` requires the class invariant those checks establish.

Where the source's docstrings, comments and method names suggest one thing and its
code does another, the model follows the code:

- `datetime` is imported as the class. `isinstance(x, datetime.date)` therefore
  raises `TypeError` for every truthy date, because `datetime.date` is a method,
  not a type. So the constructor refuses every date, `setTaskDate` always raises,
  and every comparison in the date mode raises.
- `__le__` evaluates `>=` (see Findings).
- Under key 4 a number operand is asked for its `priority_level` (see Findings).

Three further facts about the model. The time modes of the comparisons and of `+`
look up a time attribute on number and timedelta operands, which have none, so they
raise `AttributeError`. Durations may be negative, as timedeltas may. The rendered
texts contain exactly the characters the source appends, with no separators added.

## Model

| member | source | states |
|---|---|---|
| TaskFields.NewTask | task.py:53-85 | Construction succeeds exactly when both times are timedeltas, the date is falsy, a truthy description is a str, truthy levels are ints (or bools), and the name is a str; otherwise it raises TypeError. A successful result holds the arguments unchanged and is well formed |
| TaskFields.NewTaskWithDefaults | task.py:53-59 | With every default argument, construction succeeds exactly for a str name and yields None fields, zero times and `completed == False` |
| TaskFields.NewTaskRefusesDates | task.py:63-64 | Passing any date as task_date raises TypeError |
| TaskObjects.Task.Init | task.py:78-85 | The assignments store each argument in its field, and the new object satisfies the class invariant |
| TaskObjects.Task.Create | task.py:53-85 | The constructor runs the checks in the source's order. It raises exactly the error NewTask raises, and on success returns a fresh well-formed object whose state is NewTask's result |
| TaskObjects.TaskClass.constructor | task.py:36 | The shared sort key starts at 0 |
| TaskObjects.TaskClass.SetSortingKey | task.py:38-51 | A key in range(0, 5) replaces the shared key; any other key raises ValueError and leaves it unchanged; the key stays within 0..4 |
| TaskObjects.Task.SetPriorityLevel | task.py:88-91 | An int or bool replaces the priority and no other field changes; anything else raises TypeError and changes nothing; well-formedness is kept |
| TaskObjects.Task.SetDifficultyLevel | task.py:93-96 | As SetPriorityLevel, for the difficulty |
| TaskObjects.Task.SetDescription | task.py:98-101 | A str replaces the description; anything else raises TypeError and changes nothing; well-formedness is kept |
| TaskObjects.Task.SetTaskDate | task.py:103-106 | Always raises TypeError, whatever the components, and changes nothing |
| TaskFields.MakeDurationShowsDaysAndClock | task.py:108-116 | A duration built from whole days' worth of hours plus a clock reading is accepted, and prints as the day count ("1 day", "N days", or nothing under a day) followed by that clock reading |
| TaskFields.MakeDurationShowsComponents | task.py:108-111 | A duration built from clock components within a day reads back as H:MM:SS of those components |
| TaskObjects.Task.SetPredictedTimeRequired | task.py:108-111 | Succeeds exactly when MakeDuration does, raising its error otherwise; on success only the predicted time changes, to MakeDuration's value |
| TaskObjects.Task.SetActualTimeRequired | task.py:113-116 | As SetPredictedTimeRequired, for the actual time |
| TaskFields.ToggleTwice | task.py:118-119 | Toggling twice restores a bool flag, and turns any other value into the bool of its truthiness |
| TaskObjects.Task.ToggleCompletion | task.py:118-119 | Only `completed` changes, to the negation of its truthiness; well-formedness is kept |
| TaskOperators.Add | task.py:123-166 | `+` yields a value only under keys 0 and 1 with a task operand, and then it is the sum of the selected durations; it raises only TypeError, AttributeError or OverflowError; it returns None only under keys 0 and 1 for a date or other operand |
| TaskOperators.SumDurationsCommuteAndAssociate | task.py:136-145 | Adding two tasks' durations does not depend on their order, and regrouping three in-range sums gives the same result |
| TaskOperators.AddRejectsNonTimeModes | task.py:132-134 | Outside sort keys 0 and 1, `+` raises TypeError for every operand |
| TaskOperators.AddTasks | task.py:136-145 | Two tasks add their actual times under key 0 and their predicted times under key 1, with OverflowError beyond range, and the sum does not depend on operand order |
| TaskOperators.AddNonTaskOperand | task.py:136-149 | Under keys 0 and 1, a number or timedelta operand raises AttributeError, and any other non-task operand yields None |
| PyValues.PyCompareConverse | task.py:170-354 | `a op b` and `b op' a`, with op' the converse of op, give the same outcome, TypeError included |
| PyValues.PyEqualsReflexive | task.py:294-323 | Every value Python compares here equals itself |
| PyValues.PyCompareTrichotomy | task.py:170-230 | For orderable values exactly one of <, ==, > holds, and != is the negation of == |
| TaskOperators.Dispatch | task.py:170-354 | The shared branch structure of the six comparisons: between tasks under keys 0, 1, 3 and 4 it is Python's comparison of the attribute the key selects; it raises only TypeError or AttributeError; TypeError arises only under key 2, from unorderable task fields, or from an unorderable number under key 3 |
| TaskOperators.Greater | task.py:170-199 | `>` between tasks compares the selected attributes; under key 2 it raises TypeError |
| TaskOperators.Less | task.py:201-230 | `<` between tasks compares the selected attributes; under key 2 it raises TypeError |
| TaskOperators.GreaterEqual | task.py:232-261 | `>=` between tasks compares the selected attributes; under key 2 it raises TypeError |
| TaskOperators.LessEqual | task.py:263-292 | As written, `<=` between tasks applies `>=` to the selected attributes; under key 2 it raises TypeError |
| TaskOperators.Equal | task.py:294-323 | `==` between tasks compares the selected attributes; under key 2 it raises TypeError |
| TaskOperators.NotEqual | task.py:325-354 | `!=` between tasks compares the selected attributes; under key 2 it raises TypeError |
| TaskOperators.CompareTasksBySortField | task.py:170-354 | Between tasks, every key but the date key compares the attribute the key selects on both sides |
| TaskOperators.TimeModesCompareDurations | task.py:170-354 | Under keys 0 and 1, >, <, >=, == and != between tasks are the integer relations of the selected durations |
| TaskOperators.LevelModesCompareLevels | task.py:190-199 | Under keys 3 and 4, tasks with int levels compare as those integers |
| TaskOperators.UnsetLevelsDoNotOrder | task.py:190-199 | An unset (None) level makes <, > and >= raise TypeError, and == holds only against another unset level |
| TaskOperators.DateModeRaises | task.py:185-189 | Under key 2 every comparison raises TypeError, whatever the operand |
| TaskOperators.UnknownModeReturnsNone | task.py:170-199 | A key outside 0..4 matches no branch, so every comparison returns None |
| TaskOperators.DifficultyModeNumberOperand | task.py:190-194 | Under key 3, comparing with a number n is comparing with a task of difficulty n |
| TaskOperators.NonTaskOperands | task.py:170-199 | Operands for which no branch returns a value: a number or timedelta under the time keys, and a number under key 4, raise AttributeError; everything else falls through to None |
| TaskOperators.NotEqualNegatesEqual | task.py:294-354 | != is the negation of == for every key and operand; raised errors and None pass through unchanged |
| TaskOperators.TaskComparisonsConverse | task.py:170-230 | Between tasks, a > b is b < a, and == and != are symmetric, under every key |
| TaskOperators.TaskEqualsItself | task.py:294-354 | Under every key but the date key a task is == itself and not != itself |
| TaskOperators.TimeModesTrichotomy | task.py:170-230 | Under keys 0 and 1 exactly one of <, == and > holds between two tasks |
| TaskOperators.LessEqualRepeatsGreaterEqual | task.py:263-292 | `<=` returns exactly what `>=` returns, for every key and operand |
| TaskOperators.LessEqualCounterexample | task.py:263-270 | Under key 0 a 10 s task is not <= a 20 s task, while a 20 s task is <= a 10 s task |
| TaskOperators.LessEqualIntendedIsConverse | task.py:263-292 | The corrected <= is >= with operands swapped, and for orderable fields it holds exactly when < or == does |
| TaskOperators.PriorityNumberRaises | task.py:195-199 | Under key 4 a number operand raises AttributeError for every operator |
| TaskOperators.PriorityNumberIntended | task.py:195-199 | With the correction, a number n under key 4 stands for a task of priority n, and priority 5 > 3 |
| TaskObjects.TaskClass.GetSQLCreateStatement | task.py:14-34 | The text built one definition at a time is the table head, each column's definition in table order, the primary key and ");" |
| TaskText.TableColumnsDeclareEachOnce | task.py:23-31 | The CREATE text declares every field of a task, each exactly once |
| TaskText.InsertColumnsPresence | task.py:364-376 | The INSERT column list starts with name and lists description, difficulty_level and priority_level exactly when those fields are truthy |
| TaskText.InsertColumnsFollowTable | task.py:364-376 | The INSERT columns appear in the CREATE text's declaration order, as a subsequence |
| TaskText.InsertValuesAlignWithColumns | task.py:378-393 | The value list has four more entries than the column list; the first entries are the listed fields in column order; the last four are date, predicted time, actual time and completion, which no listed column names |
| TaskText.InsertStatementFrame | task.py:364-395 | The INSERT text starts with `INSERT INTO <table>(name,` and ends with `);` |
| TaskObjects.AppendColumnList | task.py:365-376 | The column half appends "(", each listed column name followed by a comma, and ")" |
| TaskObjects.AppendValueList | task.py:379-393 | The value half appends the INSERT values joined by commas, with no comma after the last |
| TaskObjects.Task.GetSQLInsertStatement | task.py:356-396 | The text built piece by piece equals the INSERT statement of the object's state |
| TaskText.DescribeShowsInsertFields | task.py:398-408 | `__str__` shows the INSERT columns' fields in the same order, then the date, actual time, predicted time and completion, so the two times appear in the opposite order to INSERT |
| TaskObjects.Task.ToString | task.py:398-415 | The text built piece by piece is each shown field's label followed by its str(), in `__str__`'s order |
| TaskObjects.Task.Repr | task.py:417-418 | `__repr__` returns the same text as `__str__`, the description of the object's state |
| PyValues.NatDigitsRoundTrip | task.py:384-388 | str() of a non-negative int reads back as that int |
| PyValues.ShowDurationDaysAndClock | task.py:390-392 | A timedelta of some whole days plus a clock reading prints as the day count ("1 day", "N days", nothing for zero days) followed by H:MM:SS |
| PyValues.ShowDurationWithinDay | task.py:390-392 | A timedelta shorter than a day reads as its hours, two-digit minutes and two-digit seconds |
| PyValues.ShowDurationWithinDayBelowZero | task.py:390-392 | A timedelta up to a day below zero reads as "-1 day, " and the clock reading of what remains of that day |

## Left out

- Floats: the `(float, int)` branches are modelled for ints and bools only. A float operand would take those branches: AttributeError under keys 0, 1 and 4, and a comparison with the difficulty under key 3. The model cannot express that, because it has no float values.
- Values of types the model has no case for (floats, lists, dicts, user objects) are not represented as fields. The constructor checks a level's type only when the level is truthy, so it stores falsy values such as `0.0`, `[]` or `{}` as levels. It never checks `completed` at all.
- Microseconds: durations are whole seconds.
- Calendar validity of dates: no date is ever stored, because every truthy date is refused.
- The `NotImplemented` and `NotImplementedError` branches of `__add__` (task.py:150-166) are unreachable after the key check at line 133, so `Add` does not spell them out.
- The `__main__` demonstration (task.py:420-429) is not part of this model.
- Direct assignment to fields or to `Task.sortingKey` bypasses the checks. It is not modelled, except that `UnknownModeReturnsNone` covers a key outside 0..4.
- Python's reflected operators (`5 < task` falling back to `task.__gt__(5)`) are not modelled; the task is always the left operand.
- Operands of other types that no branch tests for (str, None, lists, user objects) are grouped as one "other" case; floats are not in it. Str values compare by code point.
- The `status` string `__str__` computes and never uses (task.py:409-413) has no counterpart.
- TaskObjects.TaskClass.SetSortingKey: a bool key is stored as the int it equals (`True` as 1). Every reader of the key compares it with ints, so nothing observes the difference.
- TaskObjects.Task.GetSQLInsertStatement: requires the class invariant. A truthy description that is not a str would make the concatenation raise TypeError, and only direct field assignment can produce one.

## Findings

| source | as written | input that shows it | evidently intended | confidence | as-written member | corrected member |
|---|---|---|---|---|---|---|
| task.py:263-292 | every branch of `__le__` evaluates `>=` | sort key 0, a task needing 10 s `<=` a task needing 20 s returns False | `<=` | high; not executed | TaskOperators.LessEqualCounterexample | TaskOperators.LessEqualIntendedIsConverse |
| task.py:198-199 | under sort key 4 a number operand is asked for `priority_level`, raising AttributeError (also lines 229-230, 260-261, 291-292, 322-323, 353-354) | sort key 4, a task of priority 5 `>` 3 raises AttributeError | compare the priority with the number, as the difficulty key does | medium; not executed | TaskOperators.PriorityNumberRaises | TaskOperators.PriorityNumberIntended |
