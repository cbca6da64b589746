/** The texts a Task produces: the CREATE TABLE statement of the class, the INSERT
    statement of one task, and the description __str__ returns. Each is specified as
    a list of pieces in the order the source appends them. */
module TaskText {
  import opened PyValues
  import opened TaskFields

  /** Each item followed by `sep`. */
  function Terminated(items: seq<string>, sep: string): string {
    if items == [] then "" else items[0] + sep + Terminated(items[1..], sep)
  }

  /** Concatenation regroups freely. */
  lemma Associative(a: string, b: string, c: string)
    ensures a + b + c == a + (b + c)
  {
  }

  /** The items with `sep` between consecutive ones. */
  function Joined(items: seq<string>, sep: string): string {
    if items == [] then ""
    else if |items| == 1 then items[0]
    else items[0] + sep + Joined(items[1..], sep)
  }

  lemma {:induction false} TerminatedAppend(xs: seq<string>, ys: seq<string>, sep: string)
    ensures Terminated(xs + ys, sep) == Terminated(xs, sep) + Terminated(ys, sep)
  {
    if xs != [] {
      assert (xs + ys)[1..] == xs[1..] + ys;
      TerminatedAppend(xs[1..], ys, sep);
    } else {
      assert xs + ys == ys;
    }
  }

  /** Joining is terminating all items but the last and then adding the last. */
  lemma {:induction false} JoinedIsTerminatedThenLast(xs: seq<string>, last: string, sep: string)
    ensures Joined(xs + [last], sep) == Terminated(xs, sep) + last
  {
    if xs != [] {
      assert (xs + [last])[1..] == xs[1..] + [last];
      JoinedIsTerminatedThenLast(xs[1..], last, sep);
    } else {
      assert xs + [last] == [last];
    }
  }

  function Opt(present: bool, item: string): seq<string> {
    if present then [item] else []
  }

  // ---------------------------------------------------------------------------
  // Columns

  /** The columns of the table the CREATE text declares. */
  datatype Column =
    | Id | Name | Description | DifficultyLevel | PriorityLevel | TaskDate
    | ActualTimeRequired | PredictedTimeRequired | Completed

  function ColumnName(c: Column): string {
    match c
    case Id => "id"
    case Name => "name"
    case Description => "description"
    case DifficultyLevel => "difficulty_level"
    case PriorityLevel => "priority_level"
    case TaskDate => "task_date"
    case ActualTimeRequired => "actual_time_required"
    case PredictedTimeRequired => "predicted_time_required"
    case Completed => "completed"
  }

  function ColumnNames(cols: seq<Column>): (names: seq<string>)
    ensures |names| == |cols|
    ensures forall k :: 0 <= k < |cols| ==> names[k] == ColumnName(cols[k])
  {
    if cols == [] then [] else [ColumnName(cols[0])] + ColumnNames(cols[1..])
  }

  lemma {:induction false} ColumnNamesAppend(xs: seq<Column>, ys: seq<Column>)
    ensures ColumnNames(xs + ys) == ColumnNames(xs) + ColumnNames(ys)
  {
    if xs != [] {
      assert (xs + ys)[1..] == xs[1..] + ys;
      ColumnNamesAppend(xs[1..], ys);
    } else {
      assert xs + ys == ys;
    }
  }

  // ---------------------------------------------------------------------------
  // CREATE TABLE

  /** The columns in the order the CREATE text declares them. */
  function TableColumns(): seq<Column> {
    [Id, Name, Description, DifficultyLevel, PriorityLevel,
     TaskDate, ActualTimeRequired, PredictedTimeRequired, Completed]
  }

  /** What the source writes after each column name, separators and DEFAULT clauses
      as they are. */
  function Declaration(c: Column): string {
    match c
    case Id => "INT AUTO_INCREMENT,"
    case Name => "VARCHAR NOT NULL, "
    case Description => "VARCHAR NULL, "
    case DifficultyLevel => "INT NULL, "
    case PriorityLevel => "INT NULL, "
    case TaskDate => "DATE NOT NULL, "
    case ActualTimeRequired => "TIME NOT NULL DEFAULT = 00:00:00, "
    case PredictedTimeRequired => "TIME NOT NULL DEFAULT = 00:00:00, "
    case Completed => "INT NOT NULL DEFAULT = 0,"
  }

  /** One column definition as the source appends it. */
  function Clause(c: Column): string {
    ColumnName(c) + " " + Declaration(c)
  }

  function Definitions(cols: seq<Column>): string {
    if cols == [] then "" else Clause(cols[0]) + Definitions(cols[1..])
  }

  lemma {:induction false} DefinitionsSnoc(cols: seq<Column>, c: Column)
    ensures Definitions(cols + [c]) == Definitions(cols) + Clause(c)
  {
    if cols != [] {
      assert (cols + [c])[1..] == cols[1..] + [c];
      DefinitionsSnoc(cols[1..], c);
    } else {
      assert cols + [c] == [c];
    }
  }

  /** getSQLCreateStatement(table_name). */
  function CreateStatement(tableName: string): string {
    "CREATE TABLE " + tableName + " (" + Definitions(TableColumns()) + "PRIMARY KEY(id)" + ");"
  }

  /** The CREATE text declares every column of a task exactly once. */
  lemma TableColumnsDeclareEachOnce()
    ensures forall c: Column :: c in TableColumns()
    ensures forall i, j :: 0 <= i < j < |TableColumns()| ==> TableColumns()[i] != TableColumns()[j]
  {
    var cs := TableColumns();
    forall c: Column
      ensures c in cs
    {
      var k := match c
        case Id => 0
        case Name => 1
        case Description => 2
        case DifficultyLevel => 3
        case PriorityLevel => 4
        case TaskDate => 5
        case ActualTimeRequired => 6
        case PredictedTimeRequired => 7
        case Completed => 8;
      assert cs[k] == c;
    }
  }

  // ---------------------------------------------------------------------------
  // INSERT

  function OptColumn(present: bool, c: Column): seq<Column> {
    if present then [c] else []
  }

  /** The columns the INSERT text lists: name, then description, difficulty_level and
      priority_level, each only when the field is truthy. */
  function InsertColumns(t: TaskState): seq<Column> {
    [Name] + OptColumn(Truthy(t.description), Description) +
    OptColumn(Truthy(t.difficultyLevel), DifficultyLevel) +
    OptColumn(Truthy(t.priorityLevel), PriorityLevel)
  }

  /** The text of a task's field under a column, through str(); the id has none. */
  function FieldText(t: TaskState, c: Column): string {
    match c
    case Id => ""
    case Name => t.name
    case Description => ShowObj(t.description)
    case DifficultyLevel => ShowObj(t.difficultyLevel)
    case PriorityLevel => ShowObj(t.priorityLevel)
    case TaskDate => ShowObj(t.taskDate)
    case ActualTimeRequired => ShowDuration(t.actualTimeRequired)
    case PredictedTimeRequired => ShowDuration(t.predictedTimeRequired)
    case Completed => ShowObj(t.completed)
  }

  /** The values the INSERT text lists before the fixed ones: the name, then the
      truthy optional fields. The description is concatenated as the str it is, which
      is its own str(); the other fields go through str(). */
  function LeadingValues(t: TaskState): seq<string> {
    [t.name] + Opt(Truthy(t.description), ShowObj(t.description)) +
    Opt(Truthy(t.difficultyLevel), ShowObj(t.difficultyLevel)) +
    Opt(Truthy(t.priorityLevel), ShowObj(t.priorityLevel))
  }

  /** The values the INSERT text lists: the leading values, then the date, the
      predicted time, the actual time and the completion flag. */
  function InsertValues(t: TaskState): seq<string> {
    LeadingValues(t) + [ShowObj(t.taskDate)] + [ShowDuration(t.predictedTimeRequired)] +
    [ShowDuration(t.actualTimeRequired)] + [ShowObj(t.completed)]
  }

  /** getSQLInsertStatement(table_name). */
  function InsertStatement(t: TaskState, tableName: string): string
  {
    "INSERT INTO " + tableName + "(" + Terminated(ColumnNames(InsertColumns(t)), ",") + ")" +
    "VALUES (" + Joined(InsertValues(t), ",") + ");"
  }

  /** xs occurs in ys in order, possibly with gaps. */
  predicate IsSubsequence(xs: seq<Column>, ys: seq<Column>)
    decreases |ys|
  {
    if xs == [] then true
    else if ys == [] then false
    else if xs[0] == ys[0] then IsSubsequence(xs[1..], ys[1..])
    else IsSubsequence(xs, ys[1..])
  }

  /** The column list starts with name and names an optional column exactly when its
      field is truthy. */
  lemma InsertColumnsPresence(t: TaskState)
    ensures InsertColumns(t)[0] == Name
    ensures Description in InsertColumns(t) <==> Truthy(t.description)
    ensures DifficultyLevel in InsertColumns(t) <==> Truthy(t.difficultyLevel)
    ensures PriorityLevel in InsertColumns(t) <==> Truthy(t.priorityLevel)
    ensures TaskDate !in InsertColumns(t) && PredictedTimeRequired !in InsertColumns(t) &&
            ActualTimeRequired !in InsertColumns(t) && Completed !in InsertColumns(t)
  {
  }

  /** Every column the INSERT text lists is declared by the CREATE text, and they come
      in the order the CREATE text declares them. */
  lemma InsertColumnsFollowTable(t: TaskState)
    ensures IsSubsequence(InsertColumns(t), TableColumns())
  {
    var t2 := TableColumns()[2..];
    var t1 := [Name] + t2;
    assert TableColumns() == [Id] + t1;
    var e := OptionalColumns(t);
    assert InsertColumns(t) == [Name] + e;
    OptionalColumnsFollowTable(t);
    OptionalHeadFollows(true, Name, e, t2);
    assert [] + ([Name] + e) == [Name] + e;
    OptionalHeadFollows(false, Id, [Name] + e, t1);
  }

  /** The optional part of the INSERT column list: description, difficulty_level and
      priority_level, each only when the field is truthy. */
  function OptionalColumns(t: TaskState): seq<Column> {
    OptColumn(Truthy(t.description), Description) +
    (OptColumn(Truthy(t.difficultyLevel), DifficultyLevel) +
     OptColumn(Truthy(t.priorityLevel), PriorityLevel))
  }

  /** The optional columns follow the CREATE declaration order from description on,
      and neither name nor id is among them. */
  lemma OptionalColumnsFollowTable(t: TaskState)
    ensures IsSubsequence(OptionalColumns(t), TableColumns()[2..])
    ensures Name !in OptionalColumns(t) && Id !in OptionalColumns(t)
  {
    var t4 := TableColumns()[4..];
    var t3 := TableColumns()[3..];
    assert t3 == [DifficultyLevel] + t4;
    assert TableColumns()[2..] == [Description] + t3;
    var p := OptColumn(Truthy(t.priorityLevel), PriorityLevel);
    var d := OptColumn(Truthy(t.difficultyLevel), DifficultyLevel) + p;
    assert p == p + [];
    OptionalHeadFollows(Truthy(t.priorityLevel), PriorityLevel, [], t4[1..]);
    assert [PriorityLevel] + t4[1..] == t4;
    OptionalHeadFollows(Truthy(t.difficultyLevel), DifficultyLevel, p, t4);
    OptionalHeadFollows(Truthy(t.description), Description, d, t3);
  }

  /** A column that may or may not lead xs keeps xs in order inside [c] + ys, provided
      c does not occur in xs. */
  lemma OptionalHeadFollows(present: bool, c: Column, xs: seq<Column>, ys: seq<Column>)
    requires IsSubsequence(xs, ys) && c !in xs
    ensures IsSubsequence(OptColumn(present, c) + xs, [c] + ys)
  {
    assert ([c] + ys)[1..] == ys;
    if present {
      assert (OptColumn(present, c) + xs)[1..] == xs;
    } else {
      assert OptColumn(present, c) + xs == xs;
    }
  }

  /** The texts of a task's fields under the given columns. */
  function FieldTexts(t: TaskState, cols: seq<Column>): (r: seq<string>)
    ensures |r| == |cols|
    ensures forall k :: 0 <= k < |cols| ==> r[k] == FieldText(t, cols[k])
  {
    seq(|cols|, k requires 0 <= k < |cols| => FieldText(t, cols[k]))
  }

  lemma FieldTextsOptional(t: TaskState, cols: seq<Column>, present: bool, c: Column)
    ensures FieldTexts(t, cols + OptColumn(present, c)) == FieldTexts(t, cols) + Opt(present, FieldText(t, c))
  {
  }

  /** The leading values are the fields of the listed columns, in the same order. */
  lemma LeadingValuesAreFieldTexts(t: TaskState)
    ensures LeadingValues(t) == FieldTexts(t, InsertColumns(t))
  {
    var withDescription := [Name] + OptColumn(Truthy(t.description), Description);
    var withDifficulty := withDescription + OptColumn(Truthy(t.difficultyLevel), DifficultyLevel);
    assert FieldTexts(t, [Name]) == [t.name];
    FieldTextsOptional(t, [Name], Truthy(t.description), Description);
    FieldTextsOptional(t, withDescription, Truthy(t.difficultyLevel), DifficultyLevel);
    FieldTextsOptional(t, withDifficulty, Truthy(t.priorityLevel), PriorityLevel);
  }

  /** The value list has four more entries than the column list: its first entries are
      the listed columns' fields in the same order, and the last four are the date, the
      predicted time, the actual time and the completion flag, which have no column
      in the list. */
  lemma InsertValuesAlignWithColumns(t: TaskState)
    ensures |InsertValues(t)| == |InsertColumns(t)| + 4
    ensures forall k :: 0 <= k < |InsertColumns(t)| ==> InsertValues(t)[k] == FieldText(t, InsertColumns(t)[k])
    ensures InsertValues(t)[|InsertColumns(t)|..] ==
      [FieldText(t, TaskDate), FieldText(t, PredictedTimeRequired),
       FieldText(t, ActualTimeRequired), FieldText(t, Completed)]
    ensures TaskDate !in InsertColumns(t) && PredictedTimeRequired !in InsertColumns(t) &&
            ActualTimeRequired !in InsertColumns(t) && Completed !in InsertColumns(t)
  {
    InsertColumnsPresence(t);
    LeadingValuesAreFieldTexts(t);
    var lead := LeadingValues(t);
    var fixed := [FieldText(t, TaskDate), FieldText(t, PredictedTimeRequired),
                  FieldText(t, ActualTimeRequired), FieldText(t, Completed)];
    assert InsertValues(t) == lead + fixed;
  }

  /** The INSERT text opens with the table name and the name column, and closes
      with ");". */
  lemma InsertStatementFrame(t: TaskState, tableName: string)
    ensures var s := InsertStatement(t, tableName);
            var head := "INSERT INTO " + tableName + "(name,";
            |s| >= |head| + 2 && s[..|head|] == head && s[|s| - 2..] == ");"
  {
    var head := "INSERT INTO " + tableName + "(name,";
    var body := InsertStatementBody(t, tableName);
    var s := head + body + ");";
    assert s[..|head|] == head;
    assert s[|s| - 2..] == ");";
  }

  /** The INSERT text is its opening `INSERT INTO <table>(name,`, the text in between,
      and the closing ");". */
  lemma InsertStatementBody(t: TaskState, tableName: string) returns (body: string)
    ensures InsertStatement(t, tableName) == "INSERT INTO " + tableName + "(name," + body + ");"
  {
    var names := ColumnNames(InsertColumns(t));
    assert names == ["name"] + names[1..];
    TerminatedAppend(["name"], names[1..], ",");
    var rest := Terminated(names[1..], ",");
    var values := Joined(InsertValues(t), ",");
    var open := "INSERT INTO " + tableName + "(";
    assert Terminated(["name"], ",") == "name,";
    body := rest + ")" + "VALUES (" + values;
    calc {
      InsertStatement(t, tableName);
      open + ("name," + rest) + ")" + "VALUES (" + values + ");";
      { Associative(open, "name,", rest); }
      open + "name," + rest + ")" + "VALUES (" + values + ");";
      { assert open + "name," == "INSERT INTO " + tableName + "(name,"; }
      "INSERT INTO " + tableName + "(name," + rest + ")" + "VALUES (" + values + ");";
    }
    Associative("INSERT INTO " + tableName + "(name,", rest, ")");
    Associative("INSERT INTO " + tableName + "(name,", rest + ")", "VALUES (");
    Associative("INSERT INTO " + tableName + "(name,", rest + ")" + "VALUES (", values);
  }

  // ---------------------------------------------------------------------------
  // __str__

  /** The label __str__ puts before a field. */
  function Label(c: Column): string {
    match c
    case Id => ""
    case Name => "Task Name: "
    case Description => "Task Description: "
    case DifficultyLevel => "Difficult Level: "
    case PriorityLevel => "Priority Level: "
    case TaskDate => "Task Date: "
    case ActualTimeRequired => "Actual Time Required: "
    case PredictedTimeRequired => "Predicted Time Required: "
    case Completed => "Completion Status: "
  }

  /** The fields __str__ shows, in order: the name, the description, difficulty and
      priority when truthy, then the date, the actual and predicted times and the
      completion flag. */
  function DescribedColumns(t: TaskState): seq<Column> {
    [Name] + OptColumn(Truthy(t.description), Description) +
    OptColumn(Truthy(t.difficultyLevel), DifficultyLevel) +
    OptColumn(Truthy(t.priorityLevel), PriorityLevel) +
    [TaskDate, ActualTimeRequired, PredictedTimeRequired, Completed]
  }

  /** The described columns one at a time, in the order __str__ appends them. */
  lemma DescribedColumnsInOrder(t: TaskState)
    ensures DescribedColumns(t) ==
      [Name] + OptColumn(Truthy(t.description), Description) +
      OptColumn(Truthy(t.difficultyLevel), DifficultyLevel) +
      OptColumn(Truthy(t.priorityLevel), PriorityLevel) +
      [TaskDate] + [ActualTimeRequired] + [PredictedTimeRequired] + [Completed]
  {
  }

  /** Each field's label followed by its text. */
  function Pieces(t: TaskState, cols: seq<Column>): (r: seq<string>)
    ensures |r| == |cols|
    ensures forall k :: 0 <= k < |cols| ==> r[k] == Label(cols[k]) + FieldText(t, cols[k])
  {
    seq(|cols|, k requires 0 <= k < |cols| => Label(cols[k]) + FieldText(t, cols[k]))
  }

  /** __str__ (and __repr__): the pieces with no separator between them. */
  function Describe(t: TaskState): string {
    Terminated(Pieces(t, DescribedColumns(t)), "")
  }

  /** Appending one field's piece to a text built from `cols`. */
  lemma DescribeStep(t: TaskState, cols: seq<Column>, c: Column)
    ensures Terminated(Pieces(t, cols + [c]), "") == Terminated(Pieces(t, cols), "") + Label(c) + FieldText(t, c)
  {
    var piece := Label(c) + FieldText(t, c);
    assert Pieces(t, cols + [c]) == Pieces(t, cols) + [piece];
    TerminatedAppend(Pieces(t, cols), [piece], "");
    assert Terminated([piece], "") == piece;
    Associative(Terminated(Pieces(t, cols), ""), Label(c), FieldText(t, c));
  }

  /** __str__ shows the optional fields the INSERT text lists, and no others, in the
      same order; it then shows the actual time before the predicted time, the reverse
      of the INSERT value order. */
  lemma DescribeShowsInsertFields(t: TaskState)
    ensures DescribedColumns(t) == InsertColumns(t) + [TaskDate, ActualTimeRequired, PredictedTimeRequired, Completed]
  {
  }
}
