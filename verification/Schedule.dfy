/**
 Schedule arithmetic: an interval text is turned into a cron text for VolSync, and into a duration for the
 failover window. Instants and durations are nanoseconds since the Unix epoch.
 */
module Schedule {

  import opened Wrappers

  const MINUTE := 60_000_000_000
  const POLL := REQUEUE_INTERVAL * 1_000_000_000
  const MIN_INT64 := -0x8000_0000_0000_0000
  const MAX_INT64 := 0x7fff_ffff_ffff_ffff
  const MAX_DAY_STEP := 28
  const MIN_WINDOW := 5 * MINUTE
  const MAX_WINDOW := 15 * MINUTE
  const DEFAULT_CRON := "*/5 * * * *"

  /** What a product of two 64-bit signed integers is stored as. */
  function Wrapped(x: int): int {
    (x - MIN_INT64) % 0x1_0000_0000_0000_0000 + MIN_INT64
  }

  /** Integer division that truncates towards zero. */
  function Quotient(a: int, b: int): int
    requires b > 0
  {
    if a >= 0 then a / b else -(-a / b)
  }

  // ---------- division ----------

  lemma QuotientIsUnique(q: int, p: int, n: int, r: int, s: int)
    requires n > 0 && 0 <= r < n && 0 <= s < n && n * q + r == n * p + s
    ensures q == p && r == s
  {
    assert n * (q - p) == s - r;
    if q > p {
      AtLeastOnce(q - p, n);
    } else if q < p {
      AtLeastOnce(p - q, n);
    }
  }

  lemma AtLeastOnce(a: int, n: int)
    requires a >= 1 && n >= 0
    ensures n * a >= n
  {
    assert n * a == n * (a - 1) + n;
  }

  lemma PositiveFactor(a: int, n: int)
    requires n > 0 && n * a > 0
    ensures a >= 1
  {
  }

  lemma DivisionIs(x: int, n: int, q: int, r: int)
    requires n > 0 && 0 <= r < n && x == n * q + r
    ensures x / n == q && x % n == r
  {
    QuotientIsUnique(x / n, q, n, x % n, r);
  }

  lemma MultipleIsMatched(q: nat, n: nat)
    requires n > 0
    ensures q * n % n == 0
  {
    DivisionIs(q * n, n, q, 0);
  }

  lemma AddingMultiples(r: nat, n: nat, q: nat)
    requires n > 0
    ensures (n * q + r) % n == r % n
  {
    assert n * q + r == n * (q + r / n) + r % n;
    DivisionIs(n * q + r, n, q + r / n, r % n);
  }

  lemma StepsAreApart(t: nat, u: nat, n: nat)
    requires n > 0 && t < u && t % n == 0 && u % n == 0
    ensures u >= t + n
  {
    assert t == n * (t / n) && u == n * (u / n);
    assert u - t == n * (u / n - t / n);
    PositiveFactor(u / n - t / n, n);
    AtLeastOnce(u / n - t / n, n);
  }

  // ---------- numbers as text ----------

  predicate IsDigit(c: char) {
    '0' <= c <= '9'
  }

  predicate AllDigits(s: string) {
    forall i :: 0 <= i < |s| ==> IsDigit(s[i])
  }

  function Value(s: string): nat
    requires AllDigits(s)
  {
    if s == "" then 0 else 10 * Value(s[..|s| - 1]) + (s[|s| - 1] - '0') as nat
  }

  /** The canonical decimal text. */
  function Decimal(n: nat): (s: string)
    ensures AllDigits(s) && s != ""
  {
    (if n < 10 then "" else Decimal(n / 10)) + [(n % 10) as char + '0']
  }

  lemma {:induction false} DecimalHasItsValue(n: nat)
    ensures Value(Decimal(n)) == n
  {
    var s := Decimal(n);
    assert s[..|s| - 1] == if n < 10 then "" else Decimal(n / 10);
    if n >= 10 {
      DecimalHasItsValue(n / 10);
    }
  }

  predicate FitsInt64(n: int) {
    MIN_INT64 <= n <= MAX_INT64
  }

  function Signed(negative: bool, n: nat): Option<int> {
    var v: int := if negative then -(n as int) else n;
    if FitsInt64(v) then Some(v) else None
  }

  predicate HasSign(s: string) {
    s != "" && (s[0] == '+' || s[0] == '-')
  }

  function Unsigned(s: string): string {
    if HasSign(s) then s[1..] else s
  }

  predicate Negative(s: string) {
    s != "" && s[0] == '-'
  }

  function LeadingDigits(s: string): (n: nat)
    ensures n <= |s| && AllDigits(s[..n])
  {
    if s != "" && IsDigit(s[0]) then
      var n := 1 + LeadingDigits(s[1..]);
      assert s[..n] == [s[0]] + s[1..][..n - 1];
      n
    else 0
  }

  function SkipBlanks(s: string): string {
    if s != "" && (s[0] == ' ' || s[0] == '\t') then SkipBlanks(s[1..]) else s
  }

  /** Reads a decimal number off the front of the text, as a scan with the verb %d does. */
  function ScanInt(s: string): Option<int> {
    var t := SkipBlanks(s);
    var n := LeadingDigits(Unsigned(t));
    if n == 0 then None else Signed(Negative(t), Value(Unsigned(t)[..n]))
  }

  /** Converts a text that is a decimal number as a whole. */
  function Atoi(s: string): Option<int> {
    if Unsigned(s) != "" && AllDigits(Unsigned(s)) then Signed(Negative(s), Value(Unsigned(s))) else None
  }

  // ---------- interval to cron ----------

  function Lower(c: char): char {
    match c
    case 'M' => 'm'
    case 'H' => 'h'
    case 'D' => 'd'
    case _ => c
  }

  /** The cron text of an interval text such as "5m", "2h" or "1d". */
  function ConvertToCron(interval: string): Result<string> {
    if |interval| < 2 then Failure(BadInterval)
    else
      var unit := Lower(interval[|interval| - 1]);
      var num := interval[..|interval| - 1];
      match ScanInt(num)
      case None => Failure(BadInterval)
      case Some(n) =>
        if unit == 'm' then Success("*/" + num + " * * * *")
        else if unit == 'h' then Success("0 */" + num + " * * *")
        else if unit == 'd' then Success("0 0 */" + (if n > MAX_DAY_STEP then "28" else num) + " * *")
        else Failure(BadInterval)
  }

  /** The schedule given to VolSync: an empty interval or "0m" means the default. */
  function CronSpec(interval: string): Result<string> {
    if interval != "" && interval != "0m" then ConvertToCron(interval) else Success(DEFAULT_CRON)
  }

  // ---------- interval to duration ----------

  predicate IsSpace(c: char) {
    c == ' ' || c == '\t' || c == '\n' || c == '\r'
  }

  function TrimLeft(s: string): string {
    if s != "" && IsSpace(s[0]) then TrimLeft(s[1..]) else s
  }

  function TrimRight(s: string): string {
    if s != "" && IsSpace(s[|s| - 1]) then TrimRight(s[..|s| - 1]) else s
  }

  function ParseInterval(text: string): Result<int> {
    var s := TrimRight(TrimLeft(text));
    if s == "" || s[|s| - 1] != 'm' then Failure(BadInterval)
    else
      match Atoi(s[..|s| - 1])
      case None => Failure(BadInterval)
      case Some(n) => if n <= 0 then Failure(BadInterval) else Success(Wrapped(n * MINUTE))
  }

  /** Whether `now` is at least a minute after the last tick and more than a minute before the next one. */
  predicate WithinWindow(now: int, text: string) {
    match ParseInterval(text)
    case Failure(_) => false
    case Success(interval) =>
      if interval < MIN_WINDOW || interval > MAX_WINDOW then true
      else
        var lastTick := Quotient(now, interval) * interval;
        lastTick + MINUTE <= now < lastTick + interval - MINUTE
  }

  // ---------- what a cron text means ----------

  datatype Field = Any | Every(step: nat) | At(value: nat)
  datatype Cron = Cron(minute: Field, hour: Field, day: Field)

  /** The text split at each blank. */
  function Fields(s: string): (f: seq<string>)
    ensures f != []
  {
    if s == "" then [""]
    else
      var f := Fields(s[1..]);
      if s[0] == ' ' then [""] + f else [[s[0]] + f[0]] + f[1..]
  }

  function ParseField(f: string): Option<Field> {
    if f == "*" then Some(Any)
    else if |f| > 2 && f[..2] == "*/" && AllDigits(f[2..]) && Value(f[2..]) > 0 then Some(Every(Value(f[2..])))
    else if f != "" && AllDigits(f) then Some(At(Value(f)))
    else None
  }

  /** Cron texts that fire every month and on every day of the week. */
  function ParseCron(text: string): Option<Cron> {
    var f := Fields(text);
    if |f| != 5 || f[3] != "*" || f[4] != "*" then None
    else
      match (ParseField(f[0]), ParseField(f[1]), ParseField(f[2]))
      case (Some(minute), Some(hour), Some(day)) => Some(Cron(minute, hour, day))
      case _ => None
  }

  /** The length of each month. */
  type Calendar = nat -> nat

  ghost predicate IsCalendar(months: Calendar) {
    forall m :: 28 <= months(m) <= 31
  }

  /** How many days after the first of its month a day is, counted from the start of month `m`. */
  ghost function DayOffset(months: Calendar, day: nat, m: nat): (d: nat)
    requires IsCalendar(months)
    decreases day
  {
    if day < months(m) then day else DayOffset(months, day - months(m), m + 1)
  }

  predicate Matching(f: Field, offset: nat, first: nat) {
    match f
    case Any => true
    case Every(n) => n > 0 && offset % n == 0
    case At(v) => offset + first == v
  }

  /** The cron fires at minute `t` of the timeline. A stepped field counts from the first value of its range. */
  ghost predicate Fires(c: Cron, months: Calendar, t: nat)
    requires IsCalendar(months)
  {
    && Matching(c.minute, t % 60, 0)
    && Matching(c.hour, t / 60 % 24, 0)
    && Matching(c.day, DayOffset(months, t / 1440, 0), 1)
  }

  // ---------- parsing back ----------

  lemma {:induction false} FieldsSplit(a: string, b: string)
    requires ' ' !in a
    ensures Fields(a + " " + b) == [a] + Fields(b)
  {
    var s := a + " " + b;
    if a == "" {
      assert s[1..] == b;
    } else {
      assert s[1..] == a[1..] + " " + b;
      FieldsSplit(a[1..], b);
      assert [a[0]] + a[1..] == a;
    }
  }

  lemma LastFields()
    ensures Fields("* *") == ["*", "*"]
  {
    assert Fields("*") == ["*"] by {
      assert "*"[1..] == "" && Fields("")[1..] == [];
      assert ['*'] + Fields("")[0] == "*";
    }
    FieldsSplit("*", "*");
    assert "*" + " " + "*" == "* *";
  }

  lemma FiveFields(a: string, b: string, c: string)
    requires ' ' !in a && ' ' !in b && ' ' !in c
    ensures Fields(a + " " + (b + " " + (c + " " + "* *"))) == [a, b, c, "*", "*"]
  {
    hide Fields;
    FieldsSplit(a, b + " " + (c + " " + "* *"));
    FieldsSplit(b, c + " " + "* *");
    FieldsSplit(c, "* *");
    LastFields();
  }

  lemma ZeroField()
    ensures ParseField("0") == Some(At(0))
  {
    assert "0"[..0] == "";
  }

  lemma StepField(num: string)
    requires AllDigits(num) && Value(num) > 0
    ensures ' ' !in "*/" + num && ParseField("*/" + num) == Some(Every(Value(num)))
  {
    var f := "*/" + num;
    assert f[2..] == num;
  }

  lemma {:induction false} DigitsLead(s: string)
    requires AllDigits(s)
    ensures LeadingDigits(s) == |s|
  {
    if s != "" {
      DigitsLead(s[1..]);
    }
  }

  lemma DigitsAreScanned(s: string)
    requires AllDigits(s) && s != "" && FitsInt64(Value(s))
    ensures ScanInt(s) == Some(Value(s) as int) && Atoi(s) == Some(Value(s) as int)
  {
    assert IsDigit(s[0]);
    DigitsLead(s);
    assert s[..|s|] == s;
    hide LeadingDigits, Value;
  }

  lemma DecimalIsScanned(n: nat)
    requires FitsInt64(n)
    ensures ScanInt(Decimal(n)) == Some(n as int) && Atoi(Decimal(n)) == Some(n as int)
  {
    DecimalHasItsValue(n);
    hide Decimal, ScanInt, Atoi;
    DigitsAreScanned(Decimal(n));
  }

  lemma ValueOfCap()
    ensures AllDigits("28") && Value("28") == 28
  {
    assert "28"[..1] == "2" && "2"[..0] == "";
  }

  lemma MinuteText(num: string)
    requires AllDigits(num) && Value(num) > 0
    ensures ParseCron("*/" + num + " * * * *") == Some(Cron(Every(Value(num)), Any, Any))
  {
    var step := "*/" + num;
    StepField(num);
    FiveFields(step, "*", "*");
    hide Fields;
    assert step + " " + ("*" + " " + ("*" + " " + "* *")) == "*/" + num + " * * * *";
  }

  lemma HourText(num: string)
    requires AllDigits(num) && Value(num) > 0
    ensures ParseCron("0 */" + num + " * * *") == Some(Cron(At(0), Every(Value(num)), Any))
  {
    var step := "*/" + num;
    StepField(num);
    ZeroField();
    FiveFields("0", step, "*");
    hide Fields;
    assert "0" + " " + (step + " " + ("*" + " " + "* *")) == "0 */" + num + " * * *";
  }

  lemma DayText(num: string)
    requires AllDigits(num) && Value(num) > 0
    ensures ParseCron("0 0 */" + num + " * *") == Some(Cron(At(0), At(0), Every(Value(num))))
  {
    var step := "*/" + num;
    StepField(num);
    ZeroField();
    FiveFields("0", "0", step);
    hide Fields;
    assert "0" + " " + ("0" + " " + (step + " " + "* *")) == "0 0 */" + num + " * *";
  }

  /** The text is a positive number that fits 64 bits, in digits, and a unit. */
  predicate Counts(text: string, unit: char) {
    text != "" && text[|text| - 1] == unit &&
    var num := text[..|text| - 1]; AllDigits(num) && 1 <= Value(num) && FitsInt64(Value(num))
  }

  /** The number before the unit. */
  function Number(text: string): nat {
    if text != "" && AllDigits(text[..|text| - 1]) then Value(text[..|text| - 1]) else 0
  }

  lemma Converted(text: string, unit: char)
    requires Counts(text, unit)
    ensures var num := text[..|text| - 1];
      && (Lower(unit) == 'm' ==> ConvertToCron(text) == Success("*/" + num + " * * * *"))
      && (Lower(unit) == 'h' ==> ConvertToCron(text) == Success("0 */" + num + " * * *"))
      && (Lower(unit) == 'd' ==> ConvertToCron(text) == Success("0 0 */" + (if Value(num) > 28 then "28" else num) + " * *"))
  {
    DigitsAreScanned(text[..|text| - 1]);
    hide ScanInt, Atoi;
  }

  lemma DecimalCounts(n: nat, unit: char)
    requires 1 <= n && FitsInt64(n)
    ensures Counts(Decimal(n) + [unit], unit) && Number(Decimal(n) + [unit]) == n
  {
    DecimalHasItsValue(n);
    hide Decimal;
    assert (Decimal(n) + [unit])[..|Decimal(n)|] == Decimal(n);
  }

  lemma CountedTextParsesBack(text: string, unit: char)
    requires Counts(text, unit) && (Lower(unit) == 'm' || Lower(unit) == 'h' || Lower(unit) == 'd')
    ensures ConvertToCron(text).Success?
    ensures var c := ParseCron(ConvertToCron(text).value);
      && (Lower(unit) == 'm' ==> c == Some(Cron(Every(Number(text)), Any, Any)))
      && (Lower(unit) == 'h' ==> c == Some(Cron(At(0), Every(Number(text)), Any)))
      && (Lower(unit) == 'd' ==> c == Some(Cron(At(0), At(0), Every(if Number(text) > 28 then 28 else Number(text)))))
  {
    Converted(text, unit);
    var num := text[..|text| - 1];
    ValueOfCap();
    hide ParseCron, ConvertToCron, Value;
    MinuteText(num);
    HourText(num);
    DayText(if Value(num) > 28 then "28" else num);
  }

  /** The step of the cron text is the number of the interval text, capped for days. */
  lemma CronTextParsesBack(n: nat)
    requires 1 <= n && FitsInt64(n)
    ensures ConvertToCron(Decimal(n) + "m").Success?
    ensures ParseCron(ConvertToCron(Decimal(n) + "m").value) == Some(Cron(Every(n), Any, Any))
    ensures ConvertToCron(Decimal(n) + "h").Success?
    ensures ParseCron(ConvertToCron(Decimal(n) + "h").value) == Some(Cron(At(0), Every(n), Any))
    ensures ConvertToCron(Decimal(n) + "d").Success?
    ensures ParseCron(ConvertToCron(Decimal(n) + "d").value) == Some(Cron(At(0), At(0), Every(if n > 28 then 28 else n)))
  {
    DecimalCounts(n, 'm');
    DecimalCounts(n, 'h');
    DecimalCounts(n, 'd');
    hide Decimal, ParseCron, ConvertToCron, Counts, Number;
    CountedTextParsesBack(Decimal(n) + "m", 'm');
    CountedTextParsesBack(Decimal(n) + "h", 'h');
    CountedTextParsesBack(Decimal(n) + "d", 'd');
  }

  // ---------- how far apart the fire times are ----------

  /** In a stepped field, the next match or the start of the next range is at most a step away. */
  lemma NextMatch(offset: nat, range: nat, n: nat) returns (ahead: nat)
    requires offset < range && n > 0
    ensures 1 <= ahead <= n
    ensures (offset + ahead < range && (offset + ahead) % n == 0) || offset + ahead == range
  {
    var next := (offset / n + 1) * n;
    if next < range {
      ahead := next - offset;
      MultipleIsMatched(offset / n + 1, n);
    } else {
      ahead := range - offset;
    }
  }

  lemma MinuteStepFires(months: Calendar, n: nat, t: nat) returns (u: nat)
    requires IsCalendar(months) && n > 0
    ensures t < u <= t + n && Fires(Cron(Every(n), Any, Any), months, u)
  {
    var ahead := NextMatch(t % 60, 60, n);
    u := t + ahead;
    NextInRange(t, 60, ahead);
  }

  lemma HourStepFires(months: Calendar, n: nat, t: nat) returns (u: nat)
    requires IsCalendar(months) && n > 0
    ensures t < u <= t + 60 * n && Fires(Cron(At(0), Every(n), Any), months, u)
  {
    var h := t / 60;
    var ahead := NextMatch(h % 24, 24, n);
    u := (h + ahead) * 60;
    DivisionIs(u, 60, h + ahead, 0);
    NextInRange(h, 24, ahead);
    if h % 24 + ahead == 24 {
      assert Matching(Every(n), 0, 0);
    }
  }

  /** A step ahead stays in the range or starts the next one. */
  lemma NextInRange(x: nat, range: nat, ahead: nat)
    requires range > 0 && x % range + ahead <= range
    ensures (x + ahead) % range == if x % range + ahead < range then x % range + ahead else 0
  {
    if x % range + ahead < range {
      DivisionIs(x + ahead, range, x / range, x % range + ahead);
    } else {
      assert range * (x / range + 1) == range * (x / range) + range;
      DivisionIs(x + ahead, range, x / range + 1, 0);
    }
  }

  /** The next day of the month on a stepped field, or the first of the next month. */
  lemma {:induction false} NextDay(months: Calendar, n: nat, day: nat, m: nat) returns (ahead: nat)
    requires IsCalendar(months) && n > 0
    ensures 1 <= ahead <= n && DayOffset(months, day + ahead, m) % n == 0
    decreases day
  {
    if day < months(m) {
      ahead := NextMatch(day, months(m), n);
      if day + ahead == months(m) {
        assert DayOffset(months, day + ahead, m) == DayOffset(months, 0, m + 1) == 0;
      }
    } else {
      ahead := NextDay(months, n, day - months(m), m + 1);
      assert DayOffset(months, day + ahead, m) == DayOffset(months, day - months(m) + ahead, m + 1);
    }
  }

  lemma DayStepFires(months: Calendar, n: nat, t: nat) returns (u: nat)
    requires IsCalendar(months) && n > 0
    ensures t < u <= t + 1440 * n && Fires(Cron(At(0), At(0), Every(n)), months, u)
  {
    var ahead := NextDay(months, n, t / 1440, 0);
    u := (t / 1440 + ahead) * 1440;
    assert u / 1440 == t / 1440 + ahead && u % 60 == 0 && u / 60 % 24 == 0;
  }

  /** `t` and `u` are consecutive fire times. */
  ghost predicate Consecutive(c: Cron, months: Calendar, t: nat, u: nat)
    requires IsCalendar(months)
  {
    t < u && Fires(c, months, t) && Fires(c, months, u) && forall x :: t < x < u ==> !Fires(c, months, x)
  }

  /** The cron that VolSync is given replicates at least as often as the interval asks for. */
  lemma CronRefinesInterval(months: Calendar, n: nat, t: nat, u: nat)
    requires IsCalendar(months) && 1 <= n && FitsInt64(n)
    ensures ConvertToCron(Decimal(n) + "m").Success? && ConvertToCron(Decimal(n) + "h").Success? && ConvertToCron(Decimal(n) + "d").Success?
    ensures var c := ParseCron(ConvertToCron(Decimal(n) + "m").value);
      c.Some? && (Consecutive(c.value, months, t, u) ==> u - t <= n)
    ensures var c := ParseCron(ConvertToCron(Decimal(n) + "h").value);
      c.Some? && (Consecutive(c.value, months, t, u) ==> u - t <= 60 * n)
    ensures var c := ParseCron(ConvertToCron(Decimal(n) + "d").value);
      c.Some? && (Consecutive(c.value, months, t, u) ==> u - t <= 1440 * if n > 28 then 28 else n)
  {
    CronTextParsesBack(n);
    hide ConvertToCron, ParseCron, Fires;
    var minute := MinuteStepFires(months, n, t);
    var hour := HourStepFires(months, n, t);
    var day := DayStepFires(months, if n > 28 then 28 else n, t);
  }

  // ---------- the schedule of an interval ----------

  /** From minute `t` on the cron fires within so many minutes. */
  ghost predicate FiresSoon(c: Cron, months: Calendar, t: nat, minutes: nat)
    requires IsCalendar(months)
  {
    exists u: nat :: t < u <= t + minutes && Fires(c, months, u)
  }

  /** The text says to run at the times of `c`, and these are never further apart than so many minutes, on any calendar. */
  ghost predicate RunsOn(text: string, c: Cron, minutes: nat) {
    && ParseCron(text) == Some(c)
    && forall months: Calendar, t: nat :: IsCalendar(months) ==> FiresSoon(c, months, t, minutes)
  }

  /**
   The cron text keeps the interval: it runs on the step of the interval's number and unit, and at least that often. The
   default is every five minutes.
   */
  ghost predicate Keeps(interval: string, text: string) {
    var n := Number(interval);
    && (interval == "" || interval == "0m" ==> RunsOn(text, Cron(Every(5), Any, Any), 5))
    && (Counts(interval, 'm') || Counts(interval, 'M') ==> RunsOn(text, Cron(Every(n), Any, Any), n))
    && (Counts(interval, 'h') || Counts(interval, 'H') ==> RunsOn(text, Cron(At(0), Every(n), Any), 60 * n))
    && (Counts(interval, 'd') || Counts(interval, 'D') ==>
          var days := if n > 28 then 28 else n; RunsOn(text, Cron(At(0), At(0), Every(days)), 1440 * days))
  }

  /** An interval that has a schedule. */
  predicate WellFormed(interval: string) {
    || interval == "" || interval == "0m"
    || exists unit :: unit in "mhdMHD" && Counts(interval, unit)
  }

  /** An interval without a unit, or without a number in front. */
  predicate Malformed(interval: string) {
    interval != "" && (|interval| == 1 || interval[|interval| - 1] !in "mhdMHD" || (!IsDigit(interval[0]) && interval[0] !in " \t+-"))
  }

  lemma ConsecutiveRunsAreClose(text: string, c: Cron, minutes: nat, months: Calendar, t: nat, u: nat)
    requires RunsOn(text, c, minutes) && IsCalendar(months) && Consecutive(c, months, t, u)
    ensures u - t <= minutes
  {
    hide Fires;
    assert FiresSoon(c, months, t, minutes);
  }

  lemma StepsRunOn(n: nat)
    requires n > 0
    ensures forall months: Calendar, t: nat :: IsCalendar(months) ==> FiresSoon(Cron(Every(n), Any, Any), months, t, n)
    ensures forall months: Calendar, t: nat :: IsCalendar(months) ==> FiresSoon(Cron(At(0), Every(n), Any), months, t, 60 * n)
    ensures forall months: Calendar, t: nat :: IsCalendar(months) ==> FiresSoon(Cron(At(0), At(0), Every(n)), months, t, 1440 * n)
  {
    hide Fires;
    forall months: Calendar, t: nat | IsCalendar(months)
      ensures FiresSoon(Cron(Every(n), Any, Any), months, t, n)
      ensures FiresSoon(Cron(At(0), Every(n), Any), months, t, 60 * n)
      ensures FiresSoon(Cron(At(0), At(0), Every(n)), months, t, 1440 * n)
    {
      var minute := MinuteStepFires(months, n, t);
      var hour := HourStepFires(months, n, t);
      var day := DayStepFires(months, n, t);
    }
  }

  lemma DefaultKeeps()
    ensures RunsOn(DEFAULT_CRON, Cron(Every(5), Any, Any), 5)
  {
    assert "5"[..0] == "" && "*/" + "5" + " * * * *" == DEFAULT_CRON;
    MinuteText("5");
    StepsRunOn(5);
    hide ParseCron;
  }

  lemma CountedKeeps(interval: string, unit: char)
    requires unit in "mhdMHD" && Counts(interval, unit)
    ensures ConvertToCron(interval).Success? && Keeps(interval, ConvertToCron(interval).value)
  {
    CountedTextParsesBack(interval, unit);
    assert interval[|interval| - 1] == unit && Number(interval) >= 1;
    assert Counts("0m", 'm') ==> Value("0") >= 1 by {
      assert "0m"[..1] == "0";
    }
    assert "0"[..0] == "";
    StepsRunOn(Number(interval));
    StepsRunOn(if Number(interval) > 28 then 28 else Number(interval));
    hide ParseCron, ConvertToCron, Number, Value, FiresSoon;
  }

  /** The schedule of every interval keeps it, and an interval without a schedule is refused. */
  lemma CronSpecKeeps(interval: string)
    ensures CronSpec(interval).Success? ==> Keeps(interval, CronSpec(interval).value)
    ensures WellFormed(interval) ==> CronSpec(interval).Success?
    ensures Malformed(interval) ==> CronSpec(interval) == Failure(BadInterval)
  {
    hide ConvertToCron, RunsOn, Counts, Number;
    if interval == "" || interval == "0m" {
      DefaultKeeps();
      DefaultIsNotCounted(interval);
    } else if unit :| unit in "mhdMHD" && Counts(interval, unit) {
      CountedKeeps(interval, unit);
      CountedIsNotMalformed(interval, unit);
      hide Keeps, Malformed;
    } else if Malformed(interval) {
      MalformedIsRefused(interval);
    }
  }

  lemma CountedIsNotMalformed(interval: string, unit: char)
    requires unit in "mhdMHD" && Counts(interval, unit)
    ensures !Malformed(interval)
  {
    var num := interval[..|interval| - 1];
    assert num != "" && interval[0] == num[0];
  }

  lemma MalformedIsRefused(interval: string)
    requires Malformed(interval)
    ensures ConvertToCron(interval) == Failure(BadInterval)
  {
    if |interval| >= 2 && interval[|interval| - 1] in "mhdMHD" {
      var num := interval[..|interval| - 1];
      assert num[0] == interval[0];
      assert LeadingDigits(num) == 0 && SkipBlanks(num) == num;
    }
  }

  lemma DefaultIsNotCounted(interval: string)
    requires interval == "" || interval == "0m"
    ensures !Malformed(interval) && forall unit :: !Counts(interval, unit)
  {
    assert "0m"[..1] == "0" && "0"[..0] == "";
  }

  lemma DivisorOfHour(n: nat, t: nat)
    requires n > 0 && 60 % n == 0
    ensures t % 60 % n == t % n
  {
    var k, q := 60 / n, t / 60;
    assert t == n * (q * k) + t % 60 by {
      assert 60 == n * k;
      assert q * (n * k) == n * (q * k);
    }
    AddingMultiples(t % 60, n, q * k);
  }

  lemma MinuteStepAt(months: Calendar, n: nat)
    requires IsCalendar(months) && 1 <= n
    ensures forall t: nat :: Fires(Cron(Every(n), Any, Any), months, t) <==> t % 60 % n == 0
    ensures 60 % n == 0 ==> forall t: nat :: Fires(Cron(Every(n), Any, Any), months, t) <==> t % n == 0
  {
    if 60 % n == 0 {
      forall t: nat
        ensures t % 60 % n == t % n
      {
        DivisorOfHour(n, t);
      }
    }
  }

  lemma DividingMinutesAreExact(months: Calendar, n: nat, t: nat, u: nat)
    requires IsCalendar(months) && 1 <= n && 60 % n == 0 && Consecutive(Cron(Every(n), Any, Any), months, t, u)
    ensures u - t == n
  {
    MinuteStepAt(months, n);
    hide Fires;
    AddingMultiples(t, n, 1);
    StepsAreApart(t, u, n);
    assert Fires(Cron(Every(n), Any, Any), months, t + n);
  }

  lemma LastStepOfTheHour(n: nat)
    requires 1 <= n && 60 % n != 0
    ensures var t := 59 / n * n;
      && 0 <= t < 60 && t % n == 0 && 60 - t != n
      && forall x :: t < x < 60 ==> x % n != 0
  {
    var q := 59 / n;
    var t := q * n;
    assert 59 == n * q + 59 % n;
    MultipleIsMatched(q, n);
    forall x | t < x < 60
      ensures x % n != 0
    {
      if x % n == 0 {
        StepsAreApart(t, x, n);
      }
    }
    if 60 - t == n {
      DivisionIs(60, n, q + 1, 0);
    }
  }

  lemma MinuteFires(months: Calendar, n: nat, t: nat)
    requires IsCalendar(months) && 1 <= n && t < 60
    ensures Fires(Cron(Every(n), Any, Any), months, t) <==> t % n == 0
    ensures Fires(Cron(Every(n), Any, Any), months, 60)
  {
    assert 60 % 60 % n == 0 && t % 60 == t;
  }

  lemma TheHourEndsAStep(months: Calendar, n: nat, t: nat)
    requires IsCalendar(months) && 1 <= n
    requires t < 60 && t % n == 0 && forall x :: t < x < 60 ==> x % n != 0
    ensures Consecutive(Cron(Every(n), Any, Any), months, t, 60)
  {
    hide Fires;
    MinuteFires(months, n, t);
    forall x | t < x < 60
      ensures !Fires(Cron(Every(n), Any, Any), months, x)
    {
      MinuteFires(months, n, x);
    }
  }

  /** Minute schedules keep their interval exactly when it divides the hour. */
  lemma MinutesAreExactIffTheyDivideTheHour(months: Calendar, n: nat)
    requires IsCalendar(months) && 1 <= n
    ensures (forall t: nat, u: nat :: Consecutive(Cron(Every(n), Any, Any), months, t, u) ==> u - t == n) <==> 60 % n == 0
  {
    hide Consecutive;
    if 60 % n == 0 {
      forall t: nat, u: nat | Consecutive(Cron(Every(n), Any, Any), months, t, u)
        ensures u - t == n
      {
        DividingMinutesAreExact(months, n, t, u);
      }
    } else {
      LastStepOfTheHour(n);
      TheHourEndsAStep(months, n, 59 / n * n);
    }
  }

  // ---------- the window ----------

  lemma DecimalInterval(n: nat)
    requires 1 <= n && FitsInt64(n)
    ensures ParseInterval(Decimal(n) + "m") == Success(Wrapped(n * MINUTE))
  {
    var num := Decimal(n);
    var s := num + "m";
    assert IsDigit(s[0]) && TrimLeft(s) == s && TrimRight(s) == s;
    assert s[..|s| - 1] == num;
    DecimalIsScanned(n);
  }

  lemma WrappedFits(x: int)
    ensures FitsInt64(Wrapped(x)) && (FitsInt64(x) ==> Wrapped(x) == x)
  {
  }

  /** The duration is exact for as many minutes as fit the 64-bit nanosecond count, and for no more. */
  lemma DurationIsExactIffItFits(n: nat)
    requires 1 <= n && FitsInt64(n)
    ensures ParseInterval(Decimal(n) + "m") == Success(n * MINUTE) <==> n <= 153_722_867
  {
    DecimalInterval(n);
    WrappedFits(n * MINUTE);
    hide ParseInterval, Decimal, Wrapped;
  }

  lemma LastTick(now: int, i: int)
    requires now >= 0 && i > 0
    ensures Quotient(now, i) * i == now - now % i
  {
  }

  /** For window-checked intervals the tick computation is a condition on the remainder. */
  lemma WindowIsRemainder(now: int, n: nat)
    requires now >= 0 && 5 <= n <= 15
    ensures WithinWindow(now, Decimal(n) + "m") <==> MINUTE <= now % (n * MINUTE) < n * MINUTE - MINUTE
  {
    DecimalInterval(n);
    LastTick(now, n * MINUTE);
    WrappedFits(n * MINUTE);
    hide Decimal, ParseInterval, Quotient, Wrapped;
  }

  lemma WindowIsPeriodic(now: int, n: nat)
    requires now >= 0 && 5 <= n <= 15
    ensures WithinWindow(now + n * MINUTE, Decimal(n) + "m") <==> WithinWindow(now, Decimal(n) + "m")
  {
    hide WithinWindow, Decimal;
    WindowIsRemainder(now, n);
    WindowIsRemainder(now + n * MINUTE, n);
    AddingMultiples(now, n * MINUTE, 1);
  }

  lemma PollIsRemainder(now: int, n: nat, i: nat)
    requires now >= 0 && 5 <= n <= 15
    ensures var t := now + i * POLL;
      t >= 0 && (WithinWindow(t, Decimal(n) + "m") <==> MINUTE <= t % (n * MINUTE) < n * MINUTE - MINUTE)
  {
    WindowIsRemainder(now + i * POLL, n);
  }

  /** Polling every 30 seconds, one of five checks is admitted, and four may not be enough. */
  lemma FifthPollIsAdmitted(now: int, n: nat)
    requires now >= 0 && 5 <= n <= 15
    ensures exists i :: 0 <= i < 5 && WithinWindow(now + i * POLL, Decimal(n) + "m")
    ensures forall i :: 0 <= i < 4 ==> !WithinWindow((n - 1) * MINUTE + i * POLL, Decimal(n) + "m")
  {
    hide WithinWindow, Decimal;
    forall i | 0 <= i < 4
      ensures !WithinWindow((n - 1) * MINUTE + i * POLL, Decimal(n) + "m")
    {
      PollIsRemainder((n - 1) * MINUTE, n, i);
      EarlyPoll(n, i);
    }
    if MINUTE <= now % (n * MINUTE) < n * MINUTE - MINUTE {
      PollIsRemainder(now, n, 0);
      assert WithinWindow(now + 0 * POLL, Decimal(n) + "m");
    } else {
      PollIsRemainder(now, n, 4);
      FourPollsLater(now, n);
      assert WithinWindow(now + 4 * POLL, Decimal(n) + "m");
    }
  }

  lemma EarlyPoll(n: nat, i: nat)
    requires 5 <= n <= 15 && i < 4
    ensures var r := ((n - 1) * MINUTE + i * POLL) % (n * MINUTE); r < MINUTE || r >= n * MINUTE - MINUTE
  {
    var t := (n - 1) * MINUTE + i * POLL;
    if i < 2 {
      DivisionIs(t, n * MINUTE, 0, t);
    } else {
      DivisionIs(t, n * MINUTE, 1, t - n * MINUTE);
    }
  }

  lemma FourPollsLater(now: int, n: nat)
    requires now >= 0 && 5 <= n <= 15
    requires !(MINUTE <= now % (n * MINUTE) < n * MINUTE - MINUTE)
    ensures MINUTE <= (now + 4 * POLL) % (n * MINUTE) < n * MINUTE - MINUTE
  {
    var i := n * MINUTE;
    var r := now % i;
    if r < MINUTE {
      DivisionIs(now + 2 * MINUTE, i, now / i, r + 2 * MINUTE);
    } else {
      assert i * (now / i + 1) == i * (now / i) + i;
      DivisionIs(now + 2 * MINUTE, i, now / i + 1, r + 2 * MINUTE - i);
    }
  }

  /** At least a minute has passed since the last fire time, and more than one is left until the next. */
  ghost predicate ClearOfTicks(c: Cron, months: Calendar, now: int)
    requires IsCalendar(months)
  {
    forall t: nat :: Fires(c, months, t) ==>
      (t * MINUTE <= now ==> MINUTE <= now - t * MINUTE) && (now < t * MINUTE ==> MINUTE < t * MINUTE - now)
  }

  lemma RemainderAvoidsTicks(n: nat, now: int, t: nat)
    requires now >= 0 && n > 0 && t % n == 0
    requires MINUTE <= now % (n * MINUTE) < n * MINUTE - MINUTE
    ensures t * MINUTE <= now ==> MINUTE <= now - t * MINUTE
    ensures now < t * MINUTE ==> MINUTE < t * MINUTE - now
  {
    var i := n * MINUTE;
    var q, p := now / i, t / n;
    assert now == q * i + now % i && t * MINUTE == p * i;
    if p <= q {
      assert p * i <= q * i;
    } else {
      assert p * i >= (q + 1) * i == q * i + i;
    }
  }

  lemma TicksSurroundInstant(n: nat, now: int)
    requires now >= 0 && n > 0
    ensures var q := now / (n * MINUTE);
      && q * n >= 0 && q * n % n == 0 && (q + 1) * n % n == 0
      && now - q * n * MINUTE == now % (n * MINUTE) && (q + 1) * n * MINUTE - now == n * MINUTE - now % (n * MINUTE)
  {
    var i := n * MINUTE;
    var q := now / i;
    assert now == i * q + now % i;
    assert q * n * MINUTE == i * q && (q + 1) * n * MINUTE == i * q + i;
    MultipleIsMatched(q, n);
    MultipleIsMatched(q + 1, n);
  }

  lemma WindowIsClearWhenDividing(months: Calendar, n: nat, now: int)
    requires IsCalendar(months) && 5 <= n <= 15 && 60 % n == 0 && now >= 0
    ensures WithinWindow(now, Decimal(n) + "m") <==> ClearOfTicks(Cron(Every(n), Any, Any), months, now)
  {
    hide WithinWindow;
    var c := Cron(Every(n), Any, Any);
    WindowIsRemainder(now, n);
    MinuteStepAt(months, n);
    hide Fires;
    if WithinWindow(now, Decimal(n) + "m") {
      forall t: nat | Fires(c, months, t)
        ensures (t * MINUTE <= now ==> MINUTE <= now - t * MINUTE) && (now < t * MINUTE ==> MINUTE < t * MINUTE - now)
      {
        RemainderAvoidsTicks(n, now, t);
      }
    } else {
      TicksSurroundInstant(n, now);
      var q := now / (n * MINUTE);
      assert Fires(c, months, q * n) && Fires(c, months, (q + 1) * n);
    }
  }

  /**
   The window computed from an interval text stays clear of the fire times of the cron text computed from the
   same text at every instant exactly when the interval divides the hour. At the hour it fails for all others.
   */
  lemma WindowAvoidsCronIffItDividesTheHour(months: Calendar, n: nat)
    requires IsCalendar(months) && 5 <= n <= 15
    ensures ConvertToCron(Decimal(n) + "m").Success? && ParseCron(ConvertToCron(Decimal(n) + "m").value).Some?
    ensures var c := ParseCron(ConvertToCron(Decimal(n) + "m").value).value;
      (forall now :: now >= 0 ==> (WithinWindow(now, Decimal(n) + "m") <==> ClearOfTicks(c, months, now))) <==> 60 % n == 0
  {
    CronTextParsesBack(n);
    hide ConvertToCron, ParseCron, WithinWindow, ClearOfTicks, Decimal, Fires;
    if 60 % n == 0 {
      forall now | now >= 0
        ensures WithinWindow(now, Decimal(n) + "m") <==> ClearOfTicks(Cron(Every(n), Any, Any), months, now)
      {
        WindowIsClearWhenDividing(months, n, now);
      }
    } else {
      TheHourIsATick(months, n);
    }
  }

  lemma TheHourIsATick(months: Calendar, n: nat)
    requires IsCalendar(months) && 5 <= n <= 15 && 60 % n != 0
    ensures WithinWindow(60 * MINUTE, Decimal(n) + "m") && !ClearOfTicks(Cron(Every(n), Any, Any), months, 60 * MINUTE)
  {
    hide WithinWindow, Decimal;
    WindowIsRemainder(60 * MINUTE, n);
    HourRemainder(n);
    hide Fires;
    MinuteFires(months, n, 0);
  }

  lemma HourRemainder(n: nat)
    requires 5 <= n <= 15 && 60 % n != 0
    ensures MINUTE <= 60 * MINUTE % (n * MINUTE) < n * MINUTE - MINUTE
  {
    assert 1 <= 60 % n < n - 1;
    assert 60 * MINUTE == n * MINUTE * (60 / n) + 60 % n * MINUTE;
    DivisionIs(60 * MINUTE, n * MINUTE, 60 / n, 60 % n * MINUTE);
  }
}
