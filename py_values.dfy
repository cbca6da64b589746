/** The slice of Python's object model that the Task class relies on: the values
    its methods receive, how they are tested for truth, compared and turned into
    text, and the timedelta range its durations live in. */
module PyValues {

  /** The exceptions the class raises, directly or through the library calls it makes. */
  datatype ErrorKind = TypeError | ValueError | AttributeError | OverflowError

  /** A call that either returns normally or raises. */
  datatype Result<T> = Ok(value: T) | Err(error: ErrorKind)

  /** What an overloaded operator evaluates to: a value, a raised exception, or the
      None a Python method returns when control falls off its end. */
  datatype Outcome<T> = Value(value: T) | Error(error: ErrorKind) | NoneResult

  const SecondsPerDay := 86400
  /** timedelta.max.days; a timedelta whose day count exceeds this in magnitude raises OverflowError. */
  const MaxDays := 999999999
  const MinSeconds := -MaxDays * SecondsPerDay
  const MaxSeconds := MaxDays * SecondsPerDay + SecondsPerDay - 1

  /** A timedelta, counted in whole seconds. */
  type Duration = s: int | MinSeconds <= s <= MaxSeconds

  /** A calendar date (year, month, day); calendar validity is not modelled. */
  datatype Date = Date(year: nat, month: nat, day: nat)

  /** A Python value of one of the types the class tests for. */
  datatype Obj =
    | NoneObj
    | BoolObj(b: bool)
    | IntObj(i: int)
    | StrObj(s: string)
    | DurationObj(d: Duration)
    | DateObj(date: Date)

  /** Python truthiness; a date is always true. */
  predicate Truthy(x: Obj) {
    match x
    case NoneObj => false
    case BoolObj(b) => b
    case IntObj(i) => i != 0
    case StrObj(s) => s != ""
    case DurationObj(d) => d != 0
    case DateObj(_) => true
  }

  /** isinstance(x, int); bool is a subclass of int. */
  predicate IsInt(x: Obj) {
    x.BoolObj? || x.IntObj?
  }

  /** The integer an int or a bool stands for. */
  function IntValue(x: Obj): int
    requires IsInt(x)
  {
    if x.BoolObj? then (if x.b then 1 else 0) else x.i
  }

  // ---------------------------------------------------------------------------
  // Rich comparison

  datatype CmpOp = Gt | Lt | Ge | Le | Eq | Ne

  /** The operator that holds of (b, a) exactly when `op` holds of (a, b). */
  function Converse(op: CmpOp): CmpOp {
    match op
    case Gt => Lt
    case Lt => Gt
    case Ge => Le
    case Le => Ge
    case Eq => Eq
    case Ne => Ne
  }

  /** Whether `op` holds given a three-way comparison result `c`. */
  predicate Holds(op: CmpOp, c: int) {
    match op
    case Gt => c > 0
    case Lt => c < 0
    case Ge => c >= 0
    case Le => c <= 0
    case Eq => c == 0
    case Ne => c != 0
  }

  function Sign(x: int): int {
    if x < 0 then -1 else if x > 0 then 1 else 0
  }

  /** Three-way comparison of strings by code point, the order Python gives str. */
  function StrCmp(s: string, t: string): (c: int)
    ensures -1 <= c <= 1
    ensures c == 0 ==> |s| == |t|
  {
    if s == [] && t == [] then 0
    else if s == [] then -1
    else if t == [] then 1
    else if s[0] < t[0] then -1
    else if s[0] > t[0] then 1
    else StrCmp(s[1..], t[1..])
  }

  lemma {:induction false} StrCmpAntisymmetric(s: string, t: string)
    ensures StrCmp(t, s) == -StrCmp(s, t)
  {
    if s != [] && t != [] && s[0] == t[0] {
      StrCmpAntisymmetric(s[1..], t[1..]);
    }
  }

  lemma {:induction false} StrCmpZeroIffEqual(s: string, t: string)
    ensures StrCmp(s, t) == 0 <==> s == t
  {
    if s != [] && t != [] && s[0] == t[0] {
      StrCmpZeroIffEqual(s[1..], t[1..]);
      assert s == [s[0]] + s[1..];
      assert t == [t[0]] + t[1..];
    }
  }

  /** Dates order by year, then month, then day. */
  function DateCmp(a: Date, b: Date): int {
    if a.year != b.year then Sign(a.year - b.year)
    else if a.month != b.month then Sign(a.month - b.month)
    else Sign(a.day - b.day)
  }

  /** The pairs for which Python's <, >, <= and >= are defined among these types. */
  predicate Orderable(a: Obj, b: Obj) {
    (IsInt(a) && IsInt(b)) || (a.StrObj? && b.StrObj?) ||
    (a.DurationObj? && b.DurationObj?) || (a.DateObj? && b.DateObj?)
  }

  function Cmp3(a: Obj, b: Obj): int
    requires Orderable(a, b)
  {
    if IsInt(a) then Sign(IntValue(a) - IntValue(b))
    else if a.StrObj? then StrCmp(a.s, b.s)
    else if a.DurationObj? then Sign(a.d - b.d)
    else DateCmp(a.date, b.date)
  }

  /** Python's ==: values of mutually comparable types compare by value, None equals
      only None, and values of unrelated types are never equal. */
  predicate PyEquals(a: Obj, b: Obj) {
    if Orderable(a, b) then Cmp3(a, b) == 0 else a.NoneObj? && b.NoneObj?
  }

  /** `a op b` in Python: == and != never raise, ordering of unrelated types raises TypeError. */
  function PyCompare(op: CmpOp, a: Obj, b: Obj): Outcome<bool> {
    match op
    case Eq => Value(PyEquals(a, b))
    case Ne => Value(!PyEquals(a, b))
    case _ => if Orderable(a, b) then Value(Holds(op, Cmp3(a, b))) else Error(TypeError)
  }

  lemma Cmp3Antisymmetric(a: Obj, b: Obj)
    requires Orderable(a, b)
    ensures Orderable(b, a) && Cmp3(b, a) == -Cmp3(a, b)
  {
    if a.StrObj? && b.StrObj? {
      StrCmpAntisymmetric(a.s, b.s);
    }
  }

  /** Swapping the operands of a comparison and the direction of the operator
      gives the same outcome, raised errors included. */
  lemma PyCompareConverse(op: CmpOp, a: Obj, b: Obj)
    ensures PyCompare(op, a, b) == PyCompare(Converse(op), b, a)
  {
    if Orderable(a, b) {
      Cmp3Antisymmetric(a, b);
    }
  }

  /** Every value equals itself. */
  lemma PyEqualsReflexive(a: Obj)
    ensures PyEquals(a, a)
  {
    if a.StrObj? {
      StrCmpZeroIffEqual(a.s, a.s);
    }
  }

  /** For orderable operands exactly one of <, == and > holds, and != is the negation of ==. */
  lemma PyCompareTrichotomy(a: Obj, b: Obj)
    requires Orderable(a, b)
    ensures PyCompare(Lt, a, b).Value? && PyCompare(Eq, a, b).Value? && PyCompare(Gt, a, b).Value?
    ensures (if PyCompare(Lt, a, b).value then 1 else 0)
          + (if PyCompare(Eq, a, b).value then 1 else 0)
          + (if PyCompare(Gt, a, b).value then 1 else 0) == 1
    ensures PyCompare(Ne, a, b) == Value(!PyCompare(Eq, a, b).value)
  {
  }

  // ---------------------------------------------------------------------------
  // str()

  /** The decimal digit character for d. */
  function DigitChar(d: nat): (c: char)
    requires d < 10
    ensures '0' <= c <= '9' && c as int - '0' as int == d
  {
    ('0' as int + d) as char
  }

  /** The decimal digits of n, most significant first, without leading zeros. */
  function NatDigits(n: nat): (s: string)
    ensures 1 <= |s|
    ensures forall k :: 0 <= k < |s| ==> '0' <= s[k] <= '9'
    ensures |s| > 1 ==> s[0] != '0'
  {
    if n < 10 then [DigitChar(n)] else NatDigits(n / 10) + [DigitChar(n % 10)]
  }

  /** The number a string of decimal digits denotes. */
  function DigitsValue(s: string): nat
    requires forall k :: 0 <= k < |s| ==> '0' <= s[k] <= '9'
  {
    if s == [] then 0 else DigitsValue(s[..|s| - 1]) * 10 + (s[|s| - 1] as int - '0' as int)
  }

  /** Reading the digits back gives the number: str() of an int loses nothing. */
  lemma {:induction false} NatDigitsRoundTrip(n: nat)
    ensures DigitsValue(NatDigits(n)) == n
  {
    var s := NatDigits(n);
    if n >= 10 {
      NatDigitsRoundTrip(n / 10);
      assert s[..|s| - 1] == NatDigits(n / 10);
      assert s[|s| - 1] as int - '0' as int == n % 10;
    }
  }

  /** str() of an int. */
  function DecimalString(n: int): string {
    if n < 0 then "-" + NatDigits(-n) else NatDigits(n)
  }

  /** %02d of a value below 100. */
  function Pad2(n: nat): (s: string)
    requires n < 100
    ensures |s| == 2
  {
    [DigitChar(n / 10), DigitChar(n % 10)]
  }

  /** n written in at least `width` digits, padded with zeros on the left. */
  function PadTo(n: nat, width: nat): string {
    var digits := NatDigits(n);
    if |digits| >= width then digits else seq(width - |digits|, _ => '0') + digits
  }

  /** The H:MM:SS part of a timedelta's text, for the seconds within one day. */
  function Clock(rest: nat): string
    requires rest < SecondsPerDay
  {
    NatDigits(rest / 3600) + ":" + Pad2(rest % 3600 / 60) + ":" + Pad2(rest % 60)
  }

  /** str() of a timedelta without microseconds: "[D day[s], ]H:MM:SS", where the day
      count is floored and the clock part is never negative. */
  function ShowDuration(d: Duration): string {
    var days := d / SecondsPerDay;
    var clock := Clock(d % SecondsPerDay);
    if days == 0 then clock
    else DecimalString(days) + " day" + (if days == 1 || days == -1 then "" else "s") + ", " + clock
  }

  /** str() of a date: its ISO form YYYY-MM-DD. */
  function ShowDate(d: Date): string {
    PadTo(d.year, 4) + "-" + PadTo(d.month, 2) + "-" + PadTo(d.day, 2)
  }

  /** str(x), which is also what "{}".format(x) produces for these types. */
  function ShowObj(x: Obj): string {
    match x
    case NoneObj => "None"
    case BoolObj(b) => if b then "True" else "False"
    case IntObj(i) => DecimalString(i)
    case StrObj(s) => s
    case DurationObj(d) => ShowDuration(d)
    case DateObj(date) => ShowDate(date)
  }

  lemma DivMod60(q: int, r: int)
    requires 0 <= r < 60
    ensures (60 * q + r) / 60 == q && (60 * q + r) % 60 == r
  {
  }

  lemma DivMod3600(q: int, r: int)
    requires 0 <= r < 3600
    ensures (3600 * q + r) / 3600 == q && (3600 * q + r) % 3600 == r
  {
  }

  lemma DivModDay(q: int, r: int)
    requires 0 <= r < SecondsPerDay
    ensures (SecondsPerDay * q + r) / SecondsPerDay == q && (SecondsPerDay * q + r) % SecondsPerDay == r
  {
  }

  /** The hours, minutes and seconds of a clock reading are recovered by division. */
  lemma ClockArithmetic(h: nat, m: nat, s: nat)
    requires h < 24 && m < 60 && s < 60
    ensures var d := 3600 * h + 60 * m + s;
            d < SecondsPerDay && d / 3600 == h && d % 3600 / 60 == m && d % 60 == s
  {
    var d := 3600 * h + 60 * m + s;
    var r := 60 * m + s;
    DivMod60(m, s);
    assert r / 60 == m;
    DivMod3600(h, r);
    assert d == 3600 * h + r;
    DivMod60(60 * h + m, s);
    assert d == 60 * (60 * h + m) + s;
  }

  /** A clock reading of h hours, m minutes and s seconds shows as hours, then minutes
      and seconds in two digits each. */
  lemma ClockShowsComponents(h: nat, m: nat, s: nat)
    requires h < 24 && m < 60 && s < 60
    ensures 3600 * h + 60 * m + s < SecondsPerDay
    ensures Clock(3600 * h + 60 * m + s) == NatDigits(h) + ":" + Pad2(m) + ":" + Pad2(s)
  {
    ClockArithmetic(h, m, s);
  }

  /** A duration of some whole days and a clock reading shows as the day count (when
      there is one) and then the clock reading. */
  lemma ShowDurationDaysAndClock(d: Duration, days: nat, h: nat, m: nat, s: nat)
    requires h < 24 && m < 60 && s < 60
    requires d == SecondsPerDay * days + (3600 * h + 60 * m + s)
    ensures var clock := NatDigits(h) + ":" + Pad2(m) + ":" + Pad2(s);
            ShowDuration(d) ==
              if days == 0 then clock
              else DecimalString(days) + " day" + (if days == 1 then "" else "s") + ", " + clock
  {
    var rest := 3600 * h + 60 * m + s;
    DivModDay(days, rest);
    assert d / SecondsPerDay == days && d % SecondsPerDay == rest;
    ClockShowsComponents(h, m, s);
    assert Clock(d % SecondsPerDay) == NatDigits(h) + ":" + Pad2(m) + ":" + Pad2(s);
  }

  /** A duration under a day shows as its clock reading alone. */
  lemma ShowDurationWithinDay(h: nat, m: nat, s: nat)
    requires h < 24 && m < 60 && s < 60
    ensures ShowDuration(3600 * h + 60 * m + s) == NatDigits(h) + ":" + Pad2(m) + ":" + Pad2(s)
  {
    var d := 3600 * h + 60 * m + s;
    ClockShowsComponents(h, m, s);
    DivModDay(0, d);
    assert SecondsPerDay * 0 + d == d;
    assert d / SecondsPerDay == 0 && d % SecondsPerDay == d;
  }

  /** One hour thirty minutes, as setPredictedTimeRequired(0, 30, 1) stores it, prints as 1:30:00. */
  lemma ShowDurationHourAndHalf()
    ensures ShowDuration(5400) == "1:30:00"
  {
    ShowDurationWithinDay(1, 30, 0);
  }

  /** A negative duration floors its day count: up to a day below zero reads as
      "-1 day, " and the clock reading of what remains of that day. */
  lemma ShowDurationWithinDayBelowZero(x: int)
    requires 0 < x <= SecondsPerDay
    ensures ShowDuration(-x) == "-1 day, " + Clock(SecondsPerDay - x)
  {
    DayBelowZero(x);
    assert DecimalString(-1) == "-1";
  }

  /** Up to a day below zero lies in day -1, at SecondsPerDay - x into it. */
  lemma DayBelowZero(x: int)
    requires 0 < x <= SecondsPerDay
    ensures -x / SecondsPerDay == -1 && -x % SecondsPerDay == SecondsPerDay - x
  {
    DivModDay(-1, SecondsPerDay - x);
    assert SecondsPerDay * -1 + (SecondsPerDay - x) == -x;
  }

  /** One second less than zero is -1 day, 23:59:59. */
  lemma ShowDurationMinusOneSecond()
    ensures ShowDuration(-1) == "-1 day, " + "23:59:59"
  {
    ShowDurationWithinDayBelowZero(1);
    ClockShowsComponents(23, 59, 59);
    assert NatDigits(23) == NatDigits(2) + [DigitChar(3)] == "23";
  }
}
