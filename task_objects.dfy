/** The Task class as objects: the class object that holds the shared sort key, and
    the instances whose fields the constructor and setters assign. The overloaded
    operators read only the state and the sort key and are modelled as functions of
    them in TaskOperators. */
module TaskObjects {
  import opened PyValues
  import opened TaskFields
  import opened TaskText

  /** The class object: its attribute sortingKey is shared by every instance. */
  class TaskClass {
    /** 0 actual time, 1 predicted time, 2 date, 3 difficulty, 4 priority. */
    var sortingKey: int

    predicate Valid()
      reads this
    {
      0 <= sortingKey <= 4
    }

    /** The class body sets sortingKey = 0. */
    constructor ()
      ensures sortingKey == 0 && Valid()
    {
      sortingKey := 0;
    }

    /** setSortingKey(sortKey): a key outside range(0, 5) raises ValueError and leaves
        the key as it was; otherwise the key is replaced. A bool key is stored as the
        integer it equals, which is how every reader of the key treats it. */
    method SetSortingKey(key: Obj) returns (r: Result<()>)
      modifies this
      ensures r == (if SortKeyInRange(key) then Ok(()) else Err(ValueError))
      ensures sortingKey == (if r.Ok? then IntValue(key) else old(sortingKey))
      ensures r.Ok? || old(Valid()) ==> Valid()
    {
      if !SortKeyInRange(key) {
        return Err(ValueError);
      }
      sortingKey := IntValue(key);
      r := Ok(());
    }

    /** getSQLCreateStatement(table_name), appending one column definition at a time. */
    static method GetSQLCreateStatement(tableName: string) returns (s: string)
      ensures s == CreateStatement(tableName)
    {
      ghost var head := "CREATE TABLE " + tableName + " (";
      s := "CREATE TABLE " + tableName + " ";
      s := s + "(";
      ghost var done: seq<Column> := [];
      s := AppendClause(s, head, done, Id);
      done := done + [Id];
      s := AppendClause(s, head, done, Name);
      done := done + [Name];
      s := AppendClause(s, head, done, Description);
      done := done + [Description];
      s := AppendClause(s, head, done, DifficultyLevel);
      done := done + [DifficultyLevel];
      s := AppendClause(s, head, done, PriorityLevel);
      done := done + [PriorityLevel];
      s := AppendClause(s, head, done, TaskDate);
      done := done + [TaskDate];
      s := AppendClause(s, head, done, ActualTimeRequired);
      done := done + [ActualTimeRequired];
      s := AppendClause(s, head, done, PredictedTimeRequired);
      done := done + [PredictedTimeRequired];
      s := AppendClause(s, head, done, Completed);
      done := done + [Completed];
      TableColumnsOneByOne();
      s := s + "PRIMARY KEY(id)";
      s := s + ");";
    }
  }

  /** One task. */
  class Task {
    var name: string
    var description: Obj
    var difficultyLevel: Obj
    var priorityLevel: Obj
    var taskDate: Obj
    var predictedTimeRequired: Duration
    var actualTimeRequired: Duration
    var completed: Obj

    function State(): TaskState
      reads this
    {
      TaskState(name, description, difficultyLevel, priorityLevel, taskDate,
                predictedTimeRequired, actualTimeRequired, completed)
    }

    predicate Valid()
      reads this
    {
      WellFormed(State())
    }

    /** The field assignments that end __init__, once the checks have passed. */
    constructor Init(name: string, description: Obj, difficulty: Obj, priority: Obj, taskDate: Obj,
                     predicted: Duration, actual: Duration, completed: Obj)
      requires WellFormed(TaskState(name, description, difficulty, priority, taskDate,
                                    predicted, actual, completed))
      ensures State() == TaskState(name, description, difficulty, priority, taskDate,
                                   predicted, actual, completed)
      ensures Valid()
    {
      this.name := name;
      this.difficultyLevel := difficulty;
      this.priorityLevel := priority;
      this.description := description;
      this.taskDate := taskDate;
      this.actualTimeRequired := actual;
      this.predictedTimeRequired := predicted;
      this.completed := completed;
    }

    /** Task(...): the type checks of __init__ in the source's order, each raising
        TypeError, then the assignments. The date check raises for any truthy date,
        because `datetime.date` is not a type. */
    static method Create(name: Obj, description: Obj, difficulty: Obj, priority: Obj,
                         taskDate: Obj, predicted: Obj, actual: Obj, completed: Obj)
      returns (r: Result<Task>)
      ensures var spec := NewTask(name, description, difficulty, priority, taskDate,
                                  predicted, actual, completed);
              match r
              case Err(e) => spec == Err(e)
              case Ok(t) => fresh(t) && t.Valid() && spec == Ok(t.State())
    {
      ghost var spec := NewTask(name, description, difficulty, priority, taskDate,
                                predicted, actual, completed);
      if !predicted.DurationObj? || !actual.DurationObj? {
        return Err(TypeError);
      }
      if Truthy(taskDate) {
        return Err(TypeError);
      }
      if Truthy(description) && !description.StrObj? {
        return Err(TypeError);
      }
      if Truthy(difficulty) && !IsInt(difficulty) {
        return Err(TypeError);
      }
      if Truthy(priority) && !IsInt(priority) {
        return Err(TypeError);
      }
      if !name.StrObj? {
        return Err(TypeError);
      }
      var t := new Task.Init(name.s, description, difficulty, priority, taskDate,
                             predicted.d, actual.d, completed);
      assert spec == Ok(t.State());
      r := Ok(t);
    }

    /** setPriorityLevel: an int (or bool) replaces the priority; anything else raises
        TypeError and changes nothing. */
    method SetPriorityLevel(level: Obj) returns (r: Result<()>)
      modifies this
      ensures r == (if IsInt(level) then Ok(()) else Err(TypeError))
      ensures State() == if r.Ok? then old(State()).(priorityLevel := level) else old(State())
      ensures old(Valid()) ==> Valid()
    {
      if !IsInt(level) {
        return Err(TypeError);
      }
      priorityLevel := level;
      r := Ok(());
    }

    /** setDifficultyLevel: as setPriorityLevel, for the difficulty. */
    method SetDifficultyLevel(level: Obj) returns (r: Result<()>)
      modifies this
      ensures r == (if IsInt(level) then Ok(()) else Err(TypeError))
      ensures State() == if r.Ok? then old(State()).(difficultyLevel := level) else old(State())
      ensures old(Valid()) ==> Valid()
    {
      if !IsInt(level) {
        return Err(TypeError);
      }
      difficultyLevel := level;
      r := Ok(());
    }

    /** setDescription: a str replaces the description; anything else raises TypeError. */
    method SetDescription(text: Obj) returns (r: Result<()>)
      modifies this
      ensures r == (if text.StrObj? then Ok(()) else Err(TypeError))
      ensures State() == if r.Ok? then old(State()).(description := text) else old(State())
      ensures old(Valid()) ==> Valid()
    {
      if !text.StrObj? {
        return Err(TypeError);
      }
      description := text;
      r := Ok(());
    }

    /** setTaskDate(day, month, year): non-int components raise TypeError, and so do
        int ones, because `datetime.date(year=..., month=..., day=...)` calls the
        datetime class's date method without an instance. The date is never set. */
    method SetTaskDate(day: Obj, month: Obj, year: Obj) returns (r: Result<()>)
      ensures r == Err(TypeError)
    {
      if !IsInt(day) || !IsInt(month) || !IsInt(year) {
        return Err(TypeError);
      }
      r := Err(TypeError);
    }

    /** setPredictedTimeRequired(seconds, minutes, hours): stores the timedelta
        seconds + 60 * minutes + 3600 * hours; a non-int component raises TypeError and
        a total beyond timedelta's range OverflowError, changing nothing. */
    method SetPredictedTimeRequired(seconds: Obj, minutes: Obj, hours: Obj) returns (r: Result<()>)
      modifies this
      ensures var d := MakeDuration(seconds, minutes, hours);
              (r.Ok? <==> d.Ok?) && (r.Err? ==> r.error == d.error) &&
              State() == if d.Ok? then old(State()).(predictedTimeRequired := d.value) else old(State())
      ensures old(Valid()) ==> Valid()
    {
      var d := MakeDuration(seconds, minutes, hours);
      if d.Err? {
        return Err(d.error);
      }
      predictedTimeRequired := d.value;
      r := Ok(());
    }

    /** setActualTimeRequired(seconds, minutes, hours): as above, for the actual time. */
    method SetActualTimeRequired(seconds: Obj, minutes: Obj, hours: Obj) returns (r: Result<()>)
      modifies this
      ensures var d := MakeDuration(seconds, minutes, hours);
              (r.Ok? <==> d.Ok?) && (r.Err? ==> r.error == d.error) &&
              State() == if d.Ok? then old(State()).(actualTimeRequired := d.value) else old(State())
      ensures old(Valid()) ==> Valid()
    {
      var d := MakeDuration(seconds, minutes, hours);
      if d.Err? {
        return Err(d.error);
      }
      actualTimeRequired := d.value;
      r := Ok(());
    }

    /** toggleCompletion: completed becomes `not completed`. */
    method ToggleCompletion()
      modifies this
      ensures State() == old(State()).(completed := Toggled(old(completed)))
      ensures old(Valid()) ==> Valid()
    {
      completed := Toggled(completed);
    }

    /** getSQLInsertStatement(table_name), growing the text one piece at a time: the
        column list, then the value list. The description is concatenated directly,
        which needs it to be a str when it is truthy. */
    method GetSQLInsertStatement(tableName: string) returns (s: string)
      requires Valid()
      ensures s == InsertStatement(State(), tableName)
    {
      var t := State();
      s := "INSERT INTO " + tableName;
      s := AppendColumnList(s, t);
      s := s + "VALUES (";
      s := AppendValueList(s, t);
      s := s + ");";
    }

    /** __str__, growing the text one labelled piece at a time. The source also computes
        a status string that it never uses. */
    method ToString() returns (s: string)
      ensures s == Describe(State())
    {
      var t := State();
      s := "Task Name: " + t.name;
      assert s == Terminated(Pieces(t, []), "") + Label(Name) + FieldText(t, Name);
      DescribeStep(t, [], Name);
      ghost var cols := [Name];
      if Truthy(t.description) {
        s := AppendPiece(s, t, cols, Description);
        cols := cols + [Description];
      }
      ghost var withDescription := [Name] + OptColumn(Truthy(t.description), Description);
      assert cols == withDescription;
      if Truthy(t.difficultyLevel) {
        s := AppendPiece(s, t, cols, DifficultyLevel);
        cols := cols + [DifficultyLevel];
      }
      ghost var withDifficulty := withDescription + OptColumn(Truthy(t.difficultyLevel), DifficultyLevel);
      assert cols == withDifficulty;
      if Truthy(t.priorityLevel) {
        s := AppendPiece(s, t, cols, PriorityLevel);
        cols := cols + [PriorityLevel];
      }
      assert cols == withDifficulty + OptColumn(Truthy(t.priorityLevel), PriorityLevel);
      s := AppendPiece(s, t, cols, TaskDate);
      cols := cols + [TaskDate];
      s := AppendPiece(s, t, cols, ActualTimeRequired);
      cols := cols + [ActualTimeRequired];
      s := AppendPiece(s, t, cols, PredictedTimeRequired);
      cols := cols + [PredictedTimeRequired];
      s := AppendPiece(s, t, cols, Completed);
      cols := cols + [Completed];
      DescribedColumnsInOrder(t);
    }

    /** __repr__: the text __str__ builds. */
    method Repr() returns (s: string)
      ensures s == Describe(State())
    {
      s := ToString();
    }
  }

  /** The column half of getSQLInsertStatement: "(name," and then each truthy optional
      field's column name and a comma, then ")". */
  method AppendColumnList(s: string, t: TaskState) returns (s': string)
    ensures s' == s + "(" + Terminated(ColumnNames(InsertColumns(t)), ",") + ")"
  {
    ghost var head := s + "(";
    s' := s + "(name,";
    assert s' == head + Terminated(ColumnNames([Name]), ",");
    ghost var cols := [Name];
    if Truthy(t.description) {
      s' := AppendColumn(s', head, cols, Description);
      cols := cols + [Description];
    }
    assert cols == [Name] + OptColumn(Truthy(t.description), Description);
    if Truthy(t.difficultyLevel) {
      s' := AppendColumn(s', head, cols, DifficultyLevel);
      cols := cols + [DifficultyLevel];
    }
    assert cols == [Name] + OptColumn(Truthy(t.description), Description) +
                   OptColumn(Truthy(t.difficultyLevel), DifficultyLevel);
    if Truthy(t.priorityLevel) {
      s' := AppendColumn(s', head, cols, PriorityLevel);
      cols := cols + [PriorityLevel];
    }
    assert cols == InsertColumns(t);
    s' := s' + ")";
  }

  /** The value half of getSQLInsertStatement: the name and each truthy optional field,
      then the date, the predicted and actual times, each followed by a comma, then the
      completion flag. */
  method AppendValueList(mid: string, t: TaskState) returns (s: string)
    ensures s == mid + Joined(InsertValues(t), ",")
  {
    s := AppendLeadingValues(mid, t);
    ghost var vals := LeadingValues(t);
    s := AppendValue(s, mid, vals, ShowObj(t.taskDate));
    vals := vals + [ShowObj(t.taskDate)];
    s := AppendValue(s, mid, vals, ShowDuration(t.predictedTimeRequired));
    vals := vals + [ShowDuration(t.predictedTimeRequired)];
    s := AppendValue(s, mid, vals, ShowDuration(t.actualTimeRequired));
    vals := vals + [ShowDuration(t.actualTimeRequired)];
    s := s + ShowObj(t.completed);
    JoinedIsTerminatedThenLast(vals, ShowObj(t.completed), ",");
  }

  /** The name and the truthy optional fields, each followed by a comma. */
  method AppendLeadingValues(mid: string, t: TaskState) returns (s: string)
    ensures s == mid + Terminated(LeadingValues(t), ",")
  {
    s := mid;
    assert s == mid + Terminated([], ",");
    s := AppendValue(s, mid, [], t.name);
    ghost var vals := [t.name];
    s := AppendValueIf(s, mid, vals, Truthy(t.description), ShowObj(t.description));
    vals := vals + Opt(Truthy(t.description), ShowObj(t.description));
    s := AppendValueIf(s, mid, vals, Truthy(t.difficultyLevel), ShowObj(t.difficultyLevel));
    vals := vals + Opt(Truthy(t.difficultyLevel), ShowObj(t.difficultyLevel));
    s := AppendValueIf(s, mid, vals, Truthy(t.priorityLevel), ShowObj(t.priorityLevel));
  }

  /** Appends a value and its comma only when the field is truthy. */
  method AppendValueIf(s: string, ghost head: string, ghost vals: seq<string>, present: bool, v: string)
    returns (s': string)
    requires s == head + Terminated(vals, ",")
    ensures s' == head + Terminated(vals + Opt(present, v), ",")
  {
    if present {
      s' := AppendValue(s, head, vals, v);
    } else {
      assert vals + [] == vals;
      s' := s;
    }
  }

  /** Appends the definition of column c to a CREATE text holding the definitions of
      the columns `done`. */
  method AppendClause(s: string, ghost head: string, ghost done: seq<Column>, c: Column) returns (s': string)
    requires s == head + Definitions(done)
    ensures s' == head + Definitions(done + [c])
  {
    ClauseStep(head, done, c);
    s' := s + Clause(c);
  }

  /** The table's columns, appended one at a time in declaration order. */
  lemma TableColumnsOneByOne()
    ensures [] + [Id] + [Name] + [Description] + [DifficultyLevel] + [PriorityLevel] + [TaskDate] +
            [ActualTimeRequired] + [PredictedTimeRequired] + [Completed] == TableColumns()
  {
    assert [] + [Id] + [Name] == [Id, Name];
    assert [Id, Name] + [Description] == [Id, Name, Description];
    assert [Id, Name, Description] + [DifficultyLevel] == [Id, Name, Description, DifficultyLevel];
    assert [Id, Name, Description, DifficultyLevel] + [PriorityLevel] ==
           [Id, Name, Description, DifficultyLevel, PriorityLevel];
    assert [Id, Name, Description, DifficultyLevel, PriorityLevel] + [TaskDate] ==
           [Id, Name, Description, DifficultyLevel, PriorityLevel, TaskDate];
    assert [Id, Name, Description, DifficultyLevel, PriorityLevel, TaskDate] + [ActualTimeRequired] ==
           [Id, Name, Description, DifficultyLevel, PriorityLevel, TaskDate, ActualTimeRequired];
    assert [Id, Name, Description, DifficultyLevel, PriorityLevel, TaskDate, ActualTimeRequired] +
           [PredictedTimeRequired] ==
           [Id, Name, Description, DifficultyLevel, PriorityLevel, TaskDate, ActualTimeRequired,
            PredictedTimeRequired];
  }

  /** Appends one column name and its comma to an INSERT column list built from `cols`. */
  method AppendColumn(s: string, ghost head: string, ghost cols: seq<Column>, c: Column) returns (s': string)
    requires s == head + Terminated(ColumnNames(cols), ",")
    ensures s' == head + Terminated(ColumnNames(cols + [c]), ",")
  {
    ColumnStep(head, cols, c);
    s' := s + ColumnName(c) + ",";
  }

  /** Appends one value and its comma to an INSERT value list built from `vals`. */
  method AppendValue(s: string, ghost head: string, ghost vals: seq<string>, v: string) returns (s': string)
    requires s == head + Terminated(vals, ",")
    ensures s' == head + Terminated(vals + [v], ",")
  {
    ValueStep(head, vals, v);
    s' := s + v + ",";
  }

  /** Appends one field's label and text to a description built from `cols`. */
  method AppendPiece(s: string, t: TaskState, ghost cols: seq<Column>, c: Column) returns (s': string)
    requires s == Terminated(Pieces(t, cols), "")
    ensures s' == Terminated(Pieces(t, cols + [c]), "")
  {
    DescribeStep(t, cols, c);
    s' := s + Label(c) + FieldText(t, c);
  }

  lemma ClauseStep(head: string, cols: seq<Column>, c: Column)
    ensures head + Definitions(cols) + Clause(c) == head + Definitions(cols + [c])
  {
    DefinitionsSnoc(cols, c);
    Associative(head, Definitions(cols), Clause(c));
  }

  lemma ColumnStep(head: string, cols: seq<Column>, c: Column)
    ensures head + Terminated(ColumnNames(cols), ",") + ColumnName(c) + "," ==
            head + Terminated(ColumnNames(cols + [c]), ",")
  {
    ColumnNamesAppend(cols, [c]);
    assert ColumnNames([c]) == [ColumnName(c)];
    ValueStep(head, ColumnNames(cols), ColumnName(c));
  }

  lemma ValueStep(head: string, vals: seq<string>, v: string)
    ensures head + Terminated(vals, ",") + v + "," == head + Terminated(vals + [v], ",")
  {
    TerminatedAppend(vals, [v], ",");
    assert Terminated([v], ",") == v + ",";
    var done := Terminated(vals, ",");
    Associative(head + done, v, ",");
    Associative(head, done, v + ",");
  }
}
