/** Three helpers of the map page: `numAddCommas`, which puts thousands
    separators into an integer by repeated regular-expression replacement;
    the time-of-day part of `formatDate`; and the "unique, then sorted" list
    of HUC8 codes. */
module MapHelpers {
  import opened Wrappers
  import opened Text

  //--------------------------------------------------------------------
  // numAddCommas
  //--------------------------------------------------------------------

  /** The number of decimal digits `t` starts with. */
  function LeadingDigits(t: string): (n: nat)
    ensures n <= |t|
  {
    if t == [] || !IsDigit(t[0]) then 0 else 1 + LeadingDigits(t[1..])
  }

  /** Where `/(\d+)(\d{3})/` first matches: the leftmost position followed
      by at least four digits. */
  function FirstLongRun(s: string): (r: Option<nat>)
    ensures r.Some? ==> r.value < |s| && LeadingDigits(s[r.value..]) >= 4
  {
    if s == [] then None
    else if LeadingDigits(s) >= 4 then Some(0)
    else
      match FirstLongRun(s[1..])
      case None => None
      case Some(i) =>
        assert s[i + 1..] == s[1..][i..];
        Some(i + 1)
  }

  /** The match is the leftmost one: no earlier position starts four
      digits, and when there is no match no position does. */
  lemma {:induction false} FirstLongRunIsLeftmost(s: string, j: nat)
    requires j < |s|
    requires FirstLongRun(s).None? || j < FirstLongRun(s).value
    ensures LeadingDigits(s[j..]) < 4
    decreases j
  {
    if j > 0 {
      assert s[j..] == s[1..][j - 1..];
      FirstLongRunIsLeftmost(s[1..], j - 1);
    }
  }

  /** One `replace(/(\d+)(\d{3})/, '$1,$2')`: the greedy `\d+` takes all of
      the first long run but its last three digits, and the comma goes
      between the two groups. */
  function InsertComma(s: string): (r: string)
    requires FirstLongRun(s).Some?
    ensures |r| == |s| + 1
  {
    var i := FirstLongRun(s).value;
    var k := i + LeadingDigits(s[i..]) - 3;
    s[..k] + "," + s[k..]
  }

  /** `n.toString()` for an integer. */
  function Sign(n: int): string {
    if n < 0 then "-" else ""
  }

  function IntAbs(n: int): nat {
    if n < 0 then -n else n
  }

  function IntToString(n: int): string {
    Sign(n) + NatToString(IntAbs(n))
  }

  /** The reference grouping: a comma before every block of three digits
      counted from the right. */
  function Grouped(d: string): string
    decreases |d|
  {
    if |d| <= 3 then d else Grouped(d[..|d| - 3]) + "," + d[|d| - 3..]
  }

  /** `,ddd,ddd...`: a comma before each block of three. */
  function CommaEach3(x: string): string
    requires |x| % 3 == 0
    decreases |x|
  {
    if x == [] then [] else "," + x[..3] + CommaEach3(x[3..])
  }

  function RemoveCommas(s: string): (r: string)
    ensures ',' !in r
  {
    if s == [] then []
    else if s[0] == ',' then RemoveCommas(s[1..])
    else [s[0]] + RemoveCommas(s[1..])
  }

  /** A first group of digits followed by comma-led blocks of three: the
      state of the number between two replacements. */
  function Partly(d: string, m: nat): string
    requires m <= |d| && (|d| - m) % 3 == 0
  {
    d[..m] + CommaEach3(d[m..])
  }

  /** `main.numAddCommas(n)`: the loop replaces the first long digit run
      until none is left. The result is the sign followed by the digits
      grouped in threes from the right. */
  method NumAddCommas(n: int) returns (r: string)
    ensures r == Sign(n) + Grouped(NatToString(IntAbs(n)))
    ensures FirstLongRun(r).None?
    ensures RemoveCommas(r) == IntToString(n)
    ensures -1000 < n < 1000 ==> r == IntToString(n)
  {
    var sign := Sign(n);
    ghost var d := NatToString(IntAbs(n));
    ghost var m := |d|;
    r := IntToString(n);
    assert Partly(d, m) == d by {
      assert d[..m] == d && d[m..] == [];
    }
    while FirstLongRun(r).Some?
      invariant 1 <= m <= |d| && (|d| - m) % 3 == 0
      invariant r == sign + Partly(d, m)
      decreases m
    {
      LoopStep(sign, d, m);
      r := InsertComma(r);
      m := m - 3;
    }
    LoopStep(sign, d, m);
    GroupedResult(n, m);
  }

  /** Once the first group is short, the number is grouped, and only the
      commas were added. */
  lemma GroupedResult(n: int, m: nat)
    requires 1 <= m <= 3 && m <= |NatToString(IntAbs(n))| && (|NatToString(IntAbs(n))| - m) % 3 == 0
    ensures Partly(NatToString(IntAbs(n)), m) == Grouped(NatToString(IntAbs(n)))
    ensures RemoveCommas(Sign(n) + Grouped(NatToString(IntAbs(n)))) == IntToString(n)
    ensures -1000 < n < 1000 ==> Sign(n) + Grouped(NatToString(IntAbs(n))) == IntToString(n)
  {
    var d := NatToString(IntAbs(n));
    GroupedSplit(d, m);
    GroupedRemoveCommas(d);
    RemoveCommasPrefix(Sign(n), Grouped(d));
    if -1000 < n < 1000 {
      NatToStringShort(IntAbs(n));
    }
  }

  //--------------------------------------------------------------------
  // numAddCommas: proof steps
  //--------------------------------------------------------------------

  /** The loop test holds exactly while the first group is long, and one
      replacement shortens it by three digits. */
  lemma LoopStep(sign: string, d: string, m: nat)
    requires sign == "" || sign == "-"
    requires AllDigits(d) && 1 <= m <= |d| && (|d| - m) % 3 == 0
    ensures FirstLongRun(sign + Partly(d, m)).Some? <==> m >= 4
    ensures m >= 4 ==> InsertComma(sign + Partly(d, m)) == sign + Partly(d, m - 3)
  {
    SignShift(sign, Partly(d, m));
    if m >= 4 {
      InsertCommaStep(d, m);
    } else {
      ShortHasNoLongRun(d[..m], d[m..]);
    }
  }

  lemma {:induction false} LeadingDigitsOf(d: string, c: string)
    requires AllDigits(d)
    requires c == [] || !IsDigit(c[0])
    ensures LeadingDigits(d + c) == |d|
    decreases |d|
  {
    if d != [] {
      assert (d + c)[1..] == d[1..] + c;
      LeadingDigitsOf(d[1..], c);
    } else {
      assert d + c == c;
    }
  }

  /** The sign is never part of a digit run: it moves the match one place
      and the comma with it. */
  lemma SignShift(sign: string, u: string)
    requires sign == "" || sign == "-"
    ensures FirstLongRun(sign + u).Some? <==> FirstLongRun(u).Some?
    ensures FirstLongRun(u).Some? ==> InsertComma(sign + u) == sign + InsertComma(u)
  {
    if sign == "" {
      assert sign + u == u;
    } else {
      var s := sign + u;
      assert s[1..] == u;
      assert LeadingDigits(s) == 0;
      if FirstLongRun(u).Some? {
        var i := FirstLongRun(u).value;
        assert FirstLongRun(s) == Some(i + 1);
        assert s[i + 1..] == u[i..];
        var k := i + LeadingDigits(u[i..]) - 3;
        assert s[..k + 1] == sign + u[..k];
        assert s[k + 1..] == u[k..];
      }
    }
  }

  /** A short first group followed by comma-led blocks has no long run. */
  lemma {:induction false} ShortHasNoLongRun(g: string, x: string)
    requires AllDigits(g) && AllDigits(x) && |g| <= 3 && |x| % 3 == 0
    ensures FirstLongRun(g + CommaEach3(x)).None?
    decreases |x|, |g|
  {
    var t := g + CommaEach3(x);
    if g != [] {
      assert LeadingDigits(t) == |g| by {
        LeadingDigitsOf(g, CommaEach3(x));
      }
      assert t[1..] == g[1..] + CommaEach3(x);
      ShortHasNoLongRun(g[1..], x);
    } else if x != [] {
      assert t == "," + (x[..3] + CommaEach3(x[3..]));
      assert t[1..] == x[..3] + CommaEach3(x[3..]);
      ShortHasNoLongRun(x[..3], x[3..]);
    } else {
      assert t == [];
    }
  }

  /** A first group of four or more digits is where the pattern matches. */
  lemma LongHasRunAtStart(d: string, m: nat)
    requires AllDigits(d) && 4 <= m <= |d| && (|d| - m) % 3 == 0
    ensures FirstLongRun(Partly(d, m)) == Some(0)
    ensures LeadingDigits(Partly(d, m)) == m
  {
    LeadingDigitsOf(d[..m], CommaEach3(d[m..]));
  }

  /** One replacement moves the comma-led part three digits to the left. */
  lemma InsertCommaStep(d: string, m: nat)
    requires AllDigits(d) && 4 <= m <= |d| && (|d| - m) % 3 == 0
    ensures FirstLongRun(Partly(d, m)).Some?
    ensures InsertComma(Partly(d, m)) == Partly(d, m - 3)
  {
    var s := Partly(d, m);
    LongHasRunAtStart(d, m);
    assert s[0..] == s;
    var k := m - 3;
    assert s[..k] == d[..m - 3];
    assert s[k..] == d[m - 3..m] + CommaEach3(d[m..]);
    var x := d[m - 3..];
    assert x[..3] == d[m - 3..m] && x[3..] == d[m..];
    assert CommaEach3(x) == "," + d[m - 3..m] + CommaEach3(d[m..]);
  }

  /** The reference grouping splits into a first group of one to three
      digits and comma-led blocks of exactly three. */
  lemma {:induction false} GroupedSplit(d: string, m: nat)
    requires 1 <= m <= 3 && m <= |d| && (|d| - m) % 3 == 0
    ensures Grouped(d) == d[..m] + CommaEach3(d[m..])
    decreases |d|
  {
    if |d| <= 3 {
      assert m == |d|;
      assert d[..m] == d && d[m..] == [];
    } else {
      var h, t := LastBlock(d, m);
      GroupedSplit(h, m);
      CommaEach3Append(h[m..], t);
      Reassociate(d[..m], CommaEach3(h[m..]), t);
    }
  }

  /** Splitting off the last three digits, as `Grouped` does. */
  lemma LastBlock(d: string, m: nat) returns (h: string, t: string)
    requires 1 <= m <= 3 && 3 < |d| && (|d| - m) % 3 == 0
    ensures h == d[..|d| - 3] && t == d[|d| - 3..] && |t| == 3
    ensures m <= |h| && (|h| - m) % 3 == 0 && |h[m..]| % 3 == 0
    ensures h[..m] == d[..m] && h[m..] + t == d[m..]
    ensures Grouped(d) == Grouped(h) + "," + t
  {
    h, t := d[..|d| - 3], d[|d| - 3..];
  }

  lemma Reassociate(p: string, c: string, t: string)
    ensures p + c + "," + t == p + (c + "," + t)
  {}

  lemma {:induction false} CommaEach3Append(x: string, y: string)
    requires |x| % 3 == 0 && |y| == 3
    ensures CommaEach3(x + y) == CommaEach3(x) + "," + y
    decreases |x|
  {
    if x == [] {
      assert x + y == y && y[3..] == [] && y[..3] == y;
    } else {
      assert (x + y)[..3] == x[..3];
      assert (x + y)[3..] == x[3..] + y;
      CommaEach3Append(x[3..], y);
    }
  }

  lemma {:induction false} RemoveCommasAppend(a: string, b: string)
    ensures RemoveCommas(a + b) == RemoveCommas(a) + RemoveCommas(b)
    decreases |a|
  {
    if a == [] {
      assert a + b == b;
    } else {
      assert (a + b)[1..] == a[1..] + b;
      RemoveCommasAppend(a[1..], b);
    }
  }

  lemma {:induction false} RemoveCommasOfDigits(d: string)
    requires AllDigits(d)
    ensures RemoveCommas(d) == d
    decreases |d|
  {
    if d != [] {
      RemoveCommasOfDigits(d[1..]);
      assert d == [d[0]] + d[1..];
    }
  }

  lemma RemoveCommasPrefix(sign: string, g: string)
    requires sign == "" || sign == "-"
    ensures RemoveCommas(sign + g) == sign + RemoveCommas(g)
  {
    RemoveCommasAppend(sign, g);
    if sign == "-" {
      assert RemoveCommas(sign) == "-" + RemoveCommas("");
    }
  }

  /** Removing the separators gives back the digits. */
  lemma {:induction false} GroupedRemoveCommas(d: string)
    requires AllDigits(d)
    ensures RemoveCommas(Grouped(d)) == d
    decreases |d|
  {
    if |d| > 3 {
      var h, t := d[..|d| - 3], d[|d| - 3..];
      var g := Grouped(h);
      assert Grouped(d) == g + ("," + t);
      assert RemoveCommas(g) == h by {
        GroupedRemoveCommas(h);
      }
      assert RemoveCommas("," + t) == t by {
        assert ("," + t)[1..] == t;
        RemoveCommasOfDigits(t);
      }
      RemoveCommasAppend(g, "," + t);
      assert h + t == d;
    } else {
      RemoveCommasOfDigits(d);
    }
  }

  /** Numbers below 1000 have at most three digits and are left alone. */
  lemma NatToStringShort(n: nat)
    requires n < 1000
    ensures |NatToString(n)| <= 3
    ensures Grouped(NatToString(n)) == NatToString(n)
  {
    if n >= 10 {
      assert NatToString(n) == NatToString(n / 10) + [DigitChar(n % 10)];
      if n / 10 >= 10 {
        assert NatToString(n / 10) == NatToString(n / 100) + [DigitChar(n / 10 % 10)];
      }
    }
  }

  //--------------------------------------------------------------------
  // formatDate
  //--------------------------------------------------------------------

  /** The clock part of `formatDate`: hour without leading zero, two-digit
      minutes and the AM/PM marker. */
  datatype Clock = Clock(hour: string, minute: string, meridiem: string)

  /** The two-character minutes: a single digit gets a leading zero. */
  function Minutes(minutes: nat): (mm: string)
    requires minutes < 60
    ensures |mm| == 2 && AllDigits(mm)
  {
    var s := NatToString(minutes);
    if |s| < 2 then "0" + s
    else
      NatToStringTwoDigits(minutes);
      s
  }

  /** The hour and marker as written: hours after noon lose 12, so midnight
      stays 0. */
  function ClockOf(hours: nat, minutes: nat): (c: Clock)
    requires hours < 24 && minutes < 60
    ensures AllDigits(c.hour) && 1 <= |c.hour| <= 2
    ensures AllDigits(c.minute) && |c.minute| == 2
    ensures c.meridiem == "PM" <==> hours >= 12
    ensures c.meridiem == "AM" <==> hours < 12
  {
    var h := if hours > 12 then hours - 12 else hours;
    assert h < 13;
    Clock(NatToString(h), Minutes(minutes), if hours >= 12 then "PM" else "AM")
  }

  /** `main.formatDate`: `dateStr` is `toDateString()` of the date; the
      hours (0-23) and minutes (0-59) are its local time. */
  function FormatDate(dateStr: string, hours: nat, minutes: nat): (r: string)
    requires hours < 24 && minutes < 60
    ensures |dateStr| + 9 <= |r| <= |dateStr| + 10
    ensures SplitFormatted(r, |dateStr|) == (dateStr, ClockOf(hours, minutes))
  {
    var c := ClockOf(hours, minutes);
    SplitJoined(dateStr, c.hour, c.minute, c.meridiem);
    dateStr + ", " + c.hour + ":" + c.minute + " " + c.meridiem
  }

  /** Cutting a formatted date back into the date text and the clock: the
      minutes and the marker sit at fixed places from the end. */
  function SplitFormatted(r: string, n: nat): (string, Clock)
    requires n + 9 <= |r|
  {
    (r[..n], Clock(r[n + 2..|r| - 6], r[|r| - 5..|r| - 3], r[|r| - 2..]))
  }

  lemma SplitJoined(d: string, h: string, m: string, ap: string)
    requires 1 <= |h| <= 2 && |m| == 2 && ap in {"AM", "PM"}
    ensures var r := d + ", " + h + ":" + m + " " + ap;
      && |d| + 9 <= |r| <= |d| + 10
      && SplitFormatted(r, |d|) == (d, Clock(h, m, ap))
  {
    var r := d + ", " + h + ":" + m + " " + ap;
    assert |ap| == 2;
    assert r[..|d|] == d;
    assert r[|d| + 2..|r| - 6] == h;
    assert r[|r| - 5..|r| - 3] == m;
    assert r[|r| - 2..] == ap;
  }

  /** `formatDate` as written loses nothing: the date text, the hours and the
      minutes are read back from its result. */
  lemma FormatDateRoundTrip(dateStr: string, hours: nat, minutes: nat)
    requires hours < 24 && minutes < 60
    ensures var r := FormatDate(dateStr, hours, minutes);
      var (d, c) := SplitFormatted(r, |dateStr|);
      d == dateStr && AllDigits(c.hour) && AllDigits(c.minute) && ReadClock(c) == (hours, minutes)
  {
    ClockRoundTrip(hours, minutes);
  }

  /** The displayed hour is the 24-hour value, less 12 after noon. */
  lemma ClockHours(hours: nat, minutes: nat)
    requires hours < 24 && minutes < 60
    ensures DigitsValue(ClockOf(hours, minutes).hour) == if hours > 12 then hours - 12 else hours
    ensures DigitsValue(ClockOf(hours, minutes).minute) == minutes
  {
    DigitsValueOfNatToString(if hours > 12 then hours - 12 else hours);
    MinutesValue(minutes);
  }

  lemma MinutesValue(minutes: nat)
    requires minutes < 60
    ensures DigitsValue(Minutes(minutes)) == minutes
  {
    var s := NatToString(minutes);
    DigitsValueOfNatToString(minutes);
    if |s| < 2 {
      var mm := "0" + s;
      assert mm[..1] == "0";
      assert DigitsValue(mm) == DigitsValue(mm[..1]) * 10 + (mm[1] as int - '0' as int);
    }
  }

  /** Reading a clock back: the AM/PM marker restores the afternoon hours
      (12 PM is noon). */
  function ReadClock(c: Clock): (nat, nat)
    requires AllDigits(c.hour) && AllDigits(c.minute)
  {
    var h := DigitsValue(c.hour);
    (if c.meridiem == "PM" && h != 12 then h + 12 else h, DigitsValue(c.minute))
  }

  /** The clock as written loses no information: hours and minutes are
      recovered from it. */
  lemma ClockRoundTrip(hours: nat, minutes: nat)
    requires hours < 24 && minutes < 60
    ensures ReadClock(ClockOf(hours, minutes)) == (hours, minutes)
  {
    ClockHours(hours, minutes);
  }

  /** As written, the first minutes after midnight show hour 0. */
  lemma MidnightShowsHourZero()
    ensures ClockOf(0, 8) == Clock("0", "08", "AM")
  {
    assert NatToString(0) == "0";
    assert NatToString(8) == "8";
  }

  /** The intended twelve-hour clock: midnight and noon show 12. */
  function TwelveHourClock(hours: nat, minutes: nat): (c: Clock)
    requires hours < 24 && minutes < 60
    ensures AllDigits(c.hour) && 1 <= |c.hour| <= 2
    ensures AllDigits(c.minute) && |c.minute| == 2
    ensures c.meridiem == "PM" <==> hours >= 12
    ensures c.meridiem == "AM" <==> hours < 12
  {
    var h := if hours == 0 then 12 else if hours > 12 then hours - 12 else hours;
    assert h < 13;
    Clock(NatToString(h), Minutes(minutes), if hours >= 12 then "PM" else "AM")
  }

  /** The twelve-hour clock shows hours 1 to 12 only, and still loses no
      information when 12 AM is read as midnight. */
  lemma TwelveHourClockHours(hours: nat, minutes: nat)
    requires hours < 24 && minutes < 60
    ensures 1 <= DigitsValue(TwelveHourClock(hours, minutes).hour) <= 12
    ensures hours != 0 ==> TwelveHourClock(hours, minutes) == ClockOf(hours, minutes)
    ensures var c := TwelveHourClock(hours, minutes);
      var (h, m) := ReadClock(c);
      (if c.meridiem == "AM" && h == 12 then 0 else h, m) == (hours, minutes)
  {
    var h := if hours == 0 then 12 else if hours > 12 then hours - 12 else hours;
    DigitsValueOfNatToString(h);
    MinutesValue(minutes);
  }

  /** `formatDate` with the intended twelve-hour clock. */
  function FormatDateTwelveHour(dateStr: string, hours: nat, minutes: nat): (r: string)
    requires hours < 24 && minutes < 60
    ensures |dateStr| + 9 <= |r| <= |dateStr| + 10
    ensures SplitFormatted(r, |dateStr|) == (dateStr, TwelveHourClock(hours, minutes))
  {
    var c := TwelveHourClock(hours, minutes);
    SplitJoined(dateStr, c.hour, c.minute, c.meridiem);
    dateStr + ", " + c.hour + ":" + c.minute + " " + c.meridiem
  }

  /** The intended `formatDate` differs from the one as written only at
      midnight, and is read back like a twelve-hour clock. */
  lemma FormatDateTwelveHourRoundTrip(dateStr: string, hours: nat, minutes: nat)
    requires hours < 24 && minutes < 60
    ensures hours != 0 ==> FormatDateTwelveHour(dateStr, hours, minutes) == FormatDate(dateStr, hours, minutes)
    ensures var (d, c) := SplitFormatted(FormatDateTwelveHour(dateStr, hours, minutes), |dateStr|);
      && d == dateStr && AllDigits(c.hour) && AllDigits(c.minute)
      && 1 <= DigitsValue(c.hour) <= 12
      && var (h, m) := ReadClock(c);
      (if c.meridiem == "AM" && h == 12 then 0 else h, m) == (hours, minutes)
  {
    TwelveHourClockHours(hours, minutes);
  }

  //--------------------------------------------------------------------
  // Sorted, unique HUC8 codes
  //--------------------------------------------------------------------

  /** `Array.prototype.sort` without a comparator orders strings by their
      UTF-16 code units: a proper prefix comes first. */
  predicate CodeUnitLess(a: string, b: string)
    decreases |a|
  {
    if a == [] then b != []
    else if b == [] then false
    else if a[0] != b[0] then a[0] < b[0]
    else CodeUnitLess(a[1..], b[1..])
  }

  lemma {:induction false} CodeUnitLessIrreflexive(a: string)
    ensures !CodeUnitLess(a, a)
    decreases |a|
  {
    if a != [] {
      CodeUnitLessIrreflexive(a[1..]);
    }
  }

  lemma {:induction false} CodeUnitLessTransitive(a: string, b: string, c: string)
    requires CodeUnitLess(a, b) && CodeUnitLess(b, c)
    ensures CodeUnitLess(a, c)
    decreases |a|
  {
    if a != [] && b != [] && c != [] && a[0] == b[0] && b[0] == c[0] {
      CodeUnitLessTransitive(a[1..], b[1..], c[1..]);
    }
  }

  lemma {:induction false} CodeUnitLessTotal(a: string, b: string)
    requires a != b
    ensures CodeUnitLess(a, b) || CodeUnitLess(b, a)
    decreases |a|
  {
    if a != [] && b != [] && a[0] == b[0] {
      assert a == [a[0]] + a[1..] && b == [b[0]] + b[1..];
      CodeUnitLessTotal(a[1..], b[1..]);
    }
  }

  predicate StrictlySorted(s: seq<string>) {
    forall i, j :: 0 <= i < j < |s| ==> CodeUnitLess(s[i], s[j])
  }

  /** Insertion of a new code into a strictly sorted list. */
  function Insert(x: string, s: seq<string>): (r: seq<string>)
    requires StrictlySorted(s) && x !in s
    ensures StrictlySorted(r)
    ensures multiset(r) == multiset(s) + multiset{x}
    decreases |s|
  {
    if s == [] then [x]
    else if CodeUnitLess(x, s[0]) then
      assert forall j :: 0 <= j < |s| ==> CodeUnitLess(x, s[j]) by {
        forall j | 0 <= j < |s|
          ensures CodeUnitLess(x, s[j])
        {
          if j > 0 {
            CodeUnitLessTransitive(x, s[0], s[j]);
          }
        }
      }
      [x] + s
    else
      CodeUnitLessTotal(x, s[0]);
      assert s == [s[0]] + s[1..];
      var rest := Insert(x, s[1..]);
      assert forall j :: 0 <= j < |rest| ==> CodeUnitLess(s[0], rest[j]) by {
        forall j | 0 <= j < |rest|
          ensures CodeUnitLess(s[0], rest[j])
        {
          assert rest[j] in multiset(rest);
          assert rest[j] == x || rest[j] in multiset(s[1..]);
          if rest[j] != x {
            var k :| 0 <= k < |s[1..]| && s[1..][k] == rest[j];
            assert s[k + 1] == rest[j];
          }
        }
      }
      [s[0]] + rest
  }

  function SortCodes(s: seq<string>): (r: seq<string>)
    requires forall i, j :: 0 <= i < j < |s| ==> s[i] != s[j]
    ensures StrictlySorted(r)
    ensures multiset(r) == multiset(s)
  {
    if s == [] then []
    else
      assert s == [s[0]] + s[1..];
      var sorted := SortCodes(s[1..]);
      assert s[0] !in multiset(s[1..]);
      Insert(s[0], sorted)
  }

  /** The HUC8 list of the plot page: each code once (`$.inArray` on the
      list built so far), then `temp.sort()`. */
  method SortedUniqueHuc8s(huc8s: seq<string>) returns (r: seq<string>)
    ensures StrictlySorted(r)
    ensures forall h :: h in r <==> h in huc8s
    ensures forall i, j :: 0 <= i < j < |r| ==> r[i] != r[j]
  {
    var temp: seq<string> := [];
    var i := 0;
    while i < |huc8s|
      invariant 0 <= i <= |huc8s|
      invariant forall h :: h in temp <==> h in huc8s[..i]
      invariant forall a, b :: 0 <= a < b < |temp| ==> temp[a] != temp[b]
    {
      assert huc8s[..i + 1] == huc8s[..i] + [huc8s[i]];
      if huc8s[i] !in temp {
        temp := temp + [huc8s[i]];
      }
      i := i + 1;
    }
    assert huc8s[..i] == huc8s;
    r := SortCodes(temp);
    forall h
      ensures h in r <==> h in temp
    {
      assert h in r <==> h in multiset(r);
      assert h in temp <==> h in multiset(temp);
    }
    forall a, b | 0 <= a < b < |r|
      ensures r[a] != r[b]
    {
      CodeUnitLessIrreflexive(r[a]);
    }
  }
}
