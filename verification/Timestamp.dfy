/** Printing unix milliseconds as a UTC timestamp in the form of section 5.6 of RFC 3339. */
module Timestamp {
  import opened Amounts
  import opened Calendar
  import opened Sizing

  // ---------------------------------------------------------------- decimal fields

  function Digit(d: nat): char
    requires d < 10
  {
    (48 + d) as char
  }

  function Pow10(w: nat): (r: nat)
    ensures r >= 1
  {
    if w == 0 then 1 else 10 * Pow10(w - 1)
  }

  /** Decimal digits, zero-padded on the left to at least `w`. */
  function Padded(x: nat, w: nat): string
    decreases x, w
  {
    if x < 10 && w <= 1 then [Digit(x)] else Padded(x / 10, if w <= 1 then 1 else w - 1) + [Digit(x % 10)]
  }

  /** One string sorts strictly before another at their first difference. */
  ghost predicate Before(a: string, b: string) {
    exists k :: 0 <= k < |a| && k < |b| && DiffersAt(a, b, k)
  }

  ghost predicate DiffersAt(a: string, b: string, k: nat)
    requires k < |a| && k < |b|
  {
    a[..k] == b[..k] && a[k] < b[k]
  }

  lemma BeforeIsDifferent(a: string, b: string)
    requires Before(a, b)
    ensures a != b
  {
  }

  lemma BeforeExtends(a: string, b: string, x: string, y: string)
    requires Before(a, b)
    ensures Before(a + x, b + y)
  {
    var k :| 0 <= k < |a| && k < |b| && DiffersAt(a, b, k);
    assert (a + x)[..k] == a[..k] && (b + y)[..k] == b[..k];
    assert DiffersAt(a + x, b + y, k);
  }

  lemma BeforeBehind(p: string, a: string, b: string)
    requires Before(a, b)
    ensures Before(p + a, p + b)
  {
    var k :| 0 <= k < |a| && k < |b| && DiffersAt(a, b, k);
    assert (p + a)[..|p| + k] == p + a[..k] && (p + b)[..|p| + k] == p + b[..k];
    assert DiffersAt(p + a, p + b, |p| + k);
  }

  lemma {:induction false} PaddedWidth(x: nat, w: nat)
    requires 1 <= w && x < Pow10(w)
    ensures |Padded(x, w)| == w
    ensures forall c :: c in Padded(x, w) ==> '0' <= c <= '9'
  {
    if w > 1 {
      assert x / 10 < Pow10(w - 1);
      PaddedWidth(x / 10, w - 1);
    } else {
      assert Pow10(1) == 10;
    }
  }

  lemma {:induction false} PaddedOrder(x: nat, y: nat, w: nat)
    requires 1 <= w && x < y < Pow10(w)
    ensures Before(Padded(x, w), Padded(y, w))
  {
    if w == 1 {
      assert Pow10(1) == 10;
      assert DiffersAt(Padded(x, w), Padded(y, w), 0);
    } else if x / 10 < y / 10 {
      PaddedOrder(x / 10, y / 10, w - 1);
      BeforeExtends(Padded(x / 10, w - 1), Padded(y / 10, w - 1), [Digit(x % 10)], [Digit(y % 10)]);
    } else {
      var p := Padded(x / 10, w - 1);
      assert DiffersAt([Digit(x % 10)], [Digit(y % 10)], 0);
      BeforeBehind(p, [Digit(x % 10)], [Digit(y % 10)]);
    }
  }

  /** The number a string of digits spells. */
  function Spelled(s: string): int {
    if s == "" then 0 else 10 * Spelled(s[..|s| - 1]) + (s[|s| - 1] as int - '0' as int)
  }

  /** Reading the digits back gives the number. */
  lemma {:induction false} PaddedSpells(x: nat, w: nat)
    ensures Spelled(Padded(x, w)) == x
    decreases x, w
  {
    if x < 10 && w <= 1 {
      assert [Digit(x)][..0] == "";
    } else {
      var w' := if w <= 1 then 1 else w - 1;
      PaddedSpells(x / 10, w');
      var p := Padded(x / 10, w');
      assert (p + [Digit(x % 10)])[..|p|] == p;
    }
  }

  // ---------------------------------------------------------------- the rendered stamp

  datatype Field = Field(value: nat, width: nat, separator: char)

  function Render(fields: seq<Field>): string {
    if fields == [] then ""
    else Padded(fields[0].value, fields[0].width) + [fields[0].separator] + Render(fields[1..])
  }

  predicate SameShape(a: seq<Field>, b: seq<Field>) {
    |a| == |b| && forall i :: 0 <= i < |a| ==> a[i].width == b[i].width && a[i].separator == b[i].separator
  }

  predicate Fit(a: seq<Field>) {
    forall i :: 0 <= i < |a| ==> 1 <= a[i].width && a[i].value < Pow10(a[i].width)
  }

  /** Lexicographic order of the values. */
  predicate Less(a: seq<Field>, b: seq<Field>) {
    a != [] && b != [] && (a[0].value < b[0].value || (a[0].value == b[0].value && Less(a[1..], b[1..])))
  }

  lemma {:induction false} RenderOrder(a: seq<Field>, b: seq<Field>)
    requires SameShape(a, b) && Fit(a) && Fit(b) && Less(a, b)
    ensures Before(Render(a), Render(b))
  {
    var x, y := Padded(a[0].value, a[0].width), Padded(b[0].value, b[0].width);
    var sep := [a[0].separator];
    if a[0].value < b[0].value {
      PaddedOrder(a[0].value, b[0].value, a[0].width);
      BeforeExtends(x, y, sep + Render(a[1..]), sep + Render(b[1..]));
      assert x + sep + Render(a[1..]) == x + (sep + Render(a[1..]));
      assert y + sep + Render(b[1..]) == y + (sep + Render(b[1..]));
    } else {
      RenderOrder(a[1..], b[1..]);
      BeforeBehind(x + sep, Render(a[1..]), Render(b[1..]));
    }
  }

  function CivilDate(days: nat): (d: Date)
    ensures d == DateAt(days)
  {
    CivilIsCalendar(days);
    AsDate(Civil(days))
  }

  function Stamp(date: Date, sod: nat, millis: nat): seq<Field> {
    [Field(date.year, 4, '-'), Field(date.month, 2, '-'), Field(date.day, 2, 'T'),
     Field(sod / 3600, 2, ':'), Field(sod % 3600 / 60, 2, ':'), Field(sod % 60, 2, '.'), Field(millis, 3, 'Z')]
  }

  function FieldsOf(ms: u64): seq<Field> {
    var secs := ms / 1000;
    Stamp(CivilDate(secs / 86_400), secs % 86_400, ms % 1000)
  }

  function Rfc3339(ms: u64): string {
    Render(FieldsOf(ms))
  }

  function YearOf(ms: u64): nat {
    CivilDate(ms / 1000 / 86_400).year
  }

  // ---------------------------------------------------------------- order

  predicate Earlier(a: Date, b: Date) {
    a.year < b.year || (a.year == b.year && (a.month < b.month || (a.month == b.month && a.day < b.day)))
  }

  lemma {:induction false} DatesIncrease(m: nat, n: nat)
    requires m < n
    ensures Earlier(DateAt(m), DateAt(n))
  {
    if m + 1 < n {
      DatesIncrease(m, n - 1);
    }
  }

  lemma StampFits(date: Date, sod: nat, millis: nat)
    requires IsValid(date) && date.year < 10_000 && sod < 86_400 && millis < 1000
    ensures Fit(Stamp(date, sod, millis))
  {
    assert Pow10(1) == 10 && Pow10(2) == 100 && Pow10(3) == 1000 && Pow10(4) == 10_000;
  }

  lemma DateOrder(a: Date, b: Date, x: nat, y: nat, s: nat, t: nat)
    requires Earlier(a, b)
    ensures Less(Stamp(a, x, s), Stamp(b, y, t))
  {
    var f, g := Stamp(a, x, s), Stamp(b, y, t);
    if a.year < b.year {
      LessFrom(f, g, 0);
    } else if a.month < b.month {
      LessFrom(f, g, 1);
    } else {
      LessFrom(f, g, 2);
    }
  }

  /** Splitting at a unit keeps the order. */
  lemma SplitOrder(a: nat, b: nat, unit: nat)
    requires a < b && 0 < unit
    ensures a / unit < b / unit || (a / unit == b / unit && a % unit < b % unit)
  {
    DivIff(a / unit, b, unit);
    DivIff(a / unit, a, unit);
  }

  lemma SecondOfMinute(x: nat)
    ensures x % 3600 % 60 == x % 60
  {
    assert x == 60 * (60 * (x / 3600)) + x % 3600;
  }

  lemma TimeFieldsOrder(x: nat, y: nat)
    requires x < y
    ensures || x / 3600 < y / 3600
            || (x / 3600 == y / 3600 && x % 3600 / 60 < y % 3600 / 60)
            || (x / 3600 == y / 3600 && x % 3600 / 60 == y % 3600 / 60 && x % 60 < y % 60)
  {
    SplitOrder(x, y, 3600);
    if x / 3600 == y / 3600 {
      SplitOrder(x % 3600, y % 3600, 60);
      SecondOfMinute(x);
      SecondOfMinute(y);
    }
  }

  lemma TimeOrder(d: Date, x: nat, y: nat, s: nat, t: nat)
    requires x < y || (x == y && s < t)
    ensures Less(Stamp(d, x, s), Stamp(d, y, t))
  {
    var f, g := Stamp(d, x, s), Stamp(d, y, t);
    if x == y {
      LessFrom(f, g, 6);
    } else {
      TimeFieldsOrder(x, y);
      if f[3].value < g[3].value {
        LessFrom(f, g, 3);
      } else if f[4].value < g[4].value {
        LessFrom(f, g, 4);
      } else {
        LessFrom(f, g, 5);
      }
    }
  }

  ghost predicate SmallerAt(f: seq<Field>, g: seq<Field>, k: nat)
    requires k < |f| && k < |g|
  {
    f[k].value < g[k].value && forall i :: 0 <= i < k ==> f[i].value == g[i].value
  }

  lemma {:induction false} LessFrom(f: seq<Field>, g: seq<Field>, k: nat)
    requires k < |f| && k < |g| && SmallerAt(f, g, k)
    ensures Less(f, g)
  {
    if k > 0 {
      LessFrom(f[1..], g[1..], k - 1);
    }
  }

  // ---------------------------------------------------------------- main results

  lemma StampsInOrder(m: nat, n: nat, x: nat, y: nat, s: nat, t: nat)
    requires x < 86_400 && y < 86_400 && (m < n || (m == n && (x < y || (x == y && s < t))))
    ensures Less(Stamp(DateAt(m), x, s), Stamp(DateAt(n), y, t))
    ensures DateAt(m).year <= DateAt(n).year
  {
    if m < n {
      DatesIncrease(m, n);
      DateOrder(DateAt(m), DateAt(n), x, y, s, t);
    } else {
      TimeOrder(DateAt(m), x, y, s, t);
    }
  }

  lemma StampsAlike(a: Date, b: Date, x: nat, y: nat, s: nat, t: nat)
    ensures SameShape(Stamp(a, x, s), Stamp(b, y, t))
  {
  }

  lemma StampsPrintInOrder(m: nat, n: nat, x: nat, y: nat, s: nat, t: nat)
    requires x < 86_400 && y < 86_400 && (m < n || (m == n && (x < y || (x == y && s < t))))
    requires s < 1000 && t < 1000 && DateAt(n).year < 10_000
    ensures Before(Render(Stamp(DateAt(m), x, s)), Render(Stamp(DateAt(n), y, t)))
  {
    StampsInOrder(m, n, x, y, s, t);
    CivilIsCalendar(m);
    CivilIsCalendar(n);
    StampFits(DateAt(m), x, s);
    StampFits(DateAt(n), y, t);
    StampsAlike(DateAt(m), DateAt(n), x, y, s, t);
    RenderOrder(Stamp(DateAt(m), x, s), Stamp(DateAt(n), y, t));
  }

  /** Before year 10000, later instants print later strings; distinct instants print distinct ones. */
  lemma TimestampsKeepOrder(a: u64, b: u64)
    requires a < b && YearOf(b) < 10_000
    ensures Before(Rfc3339(a), Rfc3339(b)) && Rfc3339(a) != Rfc3339(b)
  {
    var x, y := a / 1000, b / 1000;
    SplitOrder(a, b, 1000);
    if x < y {
      SplitOrder(x, y, 86_400);
    }
    StampsPrintInOrder(x / 86_400, y / 86_400, x % 86_400, y % 86_400, a % 1000, b % 1000);
    BeforeIsDifferent(Rfc3339(a), Rfc3339(b));
  }

  /** Before year 10000 the string is YYYY-MM-DDThh:mm:ss.mmmZ, 24 characters, for the valid
      Gregorian date that many days after 1970-01-01 and a valid time of day. */
  lemma TimestampForm(ms: u64)
    requires YearOf(ms) < 10_000
    ensures var d, sod := DateAt(ms / 1000 / 86_400), ms / 1000 % 86_400;
            && IsValid(d)
            && Rfc3339(ms)
               == Padded(d.year, 4) + "-" + Padded(d.month, 2) + "-" + Padded(d.day, 2) + "T"
                  + Padded(sod / 3600, 2) + ":" + Padded(sod % 3600 / 60, 2) + ":" + Padded(sod % 60, 2) + "."
                  + Padded(ms % 1000, 3) + "Z"
            && |Rfc3339(ms)| == 24
  {
    var d, sod := DateAt(ms / 1000 / 86_400), ms / 1000 % 86_400;
    CivilIsCalendar(ms / 1000 / 86_400);
    StampFits(d, sod, ms % 1000);
    StampForm(d, sod, ms % 1000);
  }

  lemma StampForm(d: Date, sod: nat, millis: nat)
    requires Fit(Stamp(d, sod, millis))
    ensures Render(Stamp(d, sod, millis))
            == Padded(d.year, 4) + "-" + Padded(d.month, 2) + "-" + Padded(d.day, 2) + "T"
               + Padded(sod / 3600, 2) + ":" + Padded(sod % 3600 / 60, 2) + ":" + Padded(sod % 60, 2) + "."
               + Padded(millis, 3) + "Z"
    ensures |Render(Stamp(d, sod, millis))| == 24
  {
    var f := Stamp(d, sod, millis);
    RenderSeven(f);
    RenderColumns(f);
    ColumnsOfSeven(f);
  }

  function Columns(f: seq<Field>): nat {
    if f == [] then 0 else f[0].width + 1 + Columns(f[1..])
  }

  lemma ColumnsFrom(f: seq<Field>, k: nat)
    requires k < |f|
    ensures Columns(f[k..]) == f[k].width + 1 + Columns(f[k + 1..])
  {
    assert f[k..][1..] == f[k + 1..];
  }

  lemma ColumnsOfSeven(f: seq<Field>)
    requires |f| == 7
    ensures Columns(f) == 7 + f[0].width + f[1].width + f[2].width + f[3].width + f[4].width + f[5].width + f[6].width
  {
    assert f == f[0..];
    ColumnsFrom(f, 0);
    ColumnsFrom(f, 1);
    ColumnsFrom(f, 2);
    ColumnsFrom(f, 3);
    ColumnsFrom(f, 4);
    ColumnsFrom(f, 5);
    ColumnsFrom(f, 6);
  }

  lemma {:induction false} RenderColumns(f: seq<Field>)
    requires Fit(f)
    ensures |Render(f)| == Columns(f)
  {
    if f != [] {
      PaddedWidth(f[0].value, f[0].width);
      RenderColumns(f[1..]);
    }
  }

  function Cell(f: Field): string {
    Padded(f.value, f.width)
  }

  function Mark(f: Field): string {
    [f.separator]
  }

  lemma RenderNext(f: seq<Field>, k: nat)
    requires k < |f|
    ensures Render(f[..k + 1]) == Render(f[..k]) + Cell(f[k]) + Mark(f[k])
  {
    assert f[..k + 1] == f[..k] + [f[k]];
    RenderSnoc(f[..k], f[k]);
  }

  lemma RenderFour(f: seq<Field>)
    requires 4 <= |f|
    ensures Render(f[..4]) == Cell(f[0]) + Mark(f[0]) + Cell(f[1]) + Mark(f[1])
                              + Cell(f[2]) + Mark(f[2]) + Cell(f[3]) + Mark(f[3])
  {
    assert Render(f[..0]) == "";
    RenderNext(f, 0);
    RenderNext(f, 1);
    RenderNext(f, 2);
    RenderNext(f, 3);
  }

  lemma RenderRest(f: seq<Field>, start: string)
    requires |f| == 7 && Render(f[..4]) == start
    ensures Render(f) == start + Cell(f[4]) + Mark(f[4]) + Cell(f[5]) + Mark(f[5]) + Cell(f[6]) + Mark(f[6])
  {
    RenderNext(f, 4);
    RenderNext(f, 5);
    RenderNext(f, 6);
    assert f[..7] == f;
  }

  lemma RenderSeven(f: seq<Field>)
    requires |f| == 7
    ensures Render(f) == Cell(f[0]) + Mark(f[0]) + Cell(f[1]) + Mark(f[1]) + Cell(f[2]) + Mark(f[2])
                         + Cell(f[3]) + Mark(f[3]) + Cell(f[4]) + Mark(f[4]) + Cell(f[5]) + Mark(f[5])
                         + Cell(f[6]) + Mark(f[6])
  {
    RenderFour(f);
    RenderRest(f, Render(f[..4]));
  }

  lemma {:induction false} RenderSnoc(f: seq<Field>, x: Field)
    ensures Render(f + [x]) == Render(f) + Padded(x.value, x.width) + [x.separator]
  {
    if f == [] {
      assert f + [x] == [x] && Render([x][1..]) == "";
    } else {
      assert (f + [x])[1..] == f[1..] + [x];
      RenderSnoc(f[1..], x);
      var head := Padded(f[0].value, f[0].width) + [f[0].separator];
      Associates(head, Render(f[1..]), Padded(x.value, x.width), [x.separator]);
    }
  }

  lemma Associates(a: string, b: string, c: string, d: string)
    ensures a + (b + c + d) == a + b + c + d
  {
  }
}
