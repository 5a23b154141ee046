/**
 * The `%Y-%m-%dT%H:%M:%S` text form of a date-time, as `strftime` writes
 * the default window bounds, and its reader.
 */
module Timestamps {
  import opened Results
  import opened CivilTime

  predicate IsDigit(c: char) {
    '0' <= c <= '9'
  }

  predicate AllDigits(s: string) {
    forall i :: 0 <= i < |s| ==> IsDigit(s[i])
  }

  function DigitChar(n: int): (c: char)
    requires 0 <= n <= 9
    ensures IsDigit(c)
  {
    (('0' as int) + n) as char
  }

  function DigitValue(c: char): int
    requires IsDigit(c)
  {
    c as int - '0' as int
  }

  /** The decimal value of a digit string. */
  function Number(s: string): nat
    requires AllDigits(s)
    decreases |s|
  {
    if s == [] then 0 else Number(s[..|s| - 1]) * 10 + DigitValue(s[|s| - 1])
  }

  /** Two digits, zero-padded (`%m`, `%d`, `%H`, `%M`, `%S`). */
  function Pad2(n: int): (s: string)
    requires 0 <= n < 100
    ensures |s| == 2 && AllDigits(s)
  {
    [DigitChar(n / 10), DigitChar(n % 10)]
  }

  /** Four digits, zero-padded (`%Y`). */
  function Pad4(n: int): (s: string)
    requires 0 <= n < 10000
    ensures |s| == 4 && AllDigits(s)
  {
    Pad2(n / 100) + Pad2(n % 100)
  }

  /** `s` has the shape `dddd-dd-ddTdd:dd:dd`. */
  predicate HasLayout(s: string) {
    && |s| == 19
    && AllDigits(s[0..4]) && s[4] == '-'
    && AllDigits(s[5..7]) && s[7] == '-'
    && AllDigits(s[8..10]) && s[10] == 'T'
    && AllDigits(s[11..13]) && s[13] == ':'
    && AllDigits(s[14..16]) && s[16] == ':'
    && AllDigits(s[17..19])
  }

  /** `d.strftime('%Y-%m-%dT%H:%M:%S')`. */
  function Format(d: Instant): (s: string)
    ensures HasLayout(s)
    ensures s[0..4] == Pad4(d.year) && s[5..7] == Pad2(d.month) && s[8..10] == Pad2(d.day)
    ensures s[11..13] == Pad2(d.hour) && s[14..16] == Pad2(d.minute) && s[17..19] == Pad2(d.second)
  {
    Pad4(d.year) + "-" + Pad2(d.month) + "-" + Pad2(d.day) + "T"
      + Pad2(d.hour) + ":" + Pad2(d.minute) + ":" + Pad2(d.second)
  }

  /**
   * Reads a `%Y-%m-%dT%H:%M:%S` string back into a date-time; None when the
   * layout is wrong or the fields name no real date-time. A string it
   * accepts is exactly the formatting of what it returns.
   */
  function Parse(s: string): (r: Option<Instant>)
    ensures r.Some? ==> Format(r.value) == s
  {
    if !HasLayout(s) then None
    else
      var d := DateTime(Number(s[0..4]), Number(s[5..7]), Number(s[8..10]),
                        Number(s[11..13]), Number(s[14..16]), Number(s[17..19]));
      if Valid(d) then
        PadNumber4(s[0..4]);
        PadNumber2(s[5..7]);
        PadNumber2(s[8..10]);
        PadNumber2(s[11..13]);
        PadNumber2(s[14..16]);
        PadNumber2(s[17..19]);
        LayoutDetermined(Format(d), s);
        Some(d)
      else None
  }

  /** The value of a two-digit string, digit by digit. */
  lemma NumberOf2(s: string)
    requires |s| == 2 && AllDigits(s)
    ensures Number(s) == 10 * DigitValue(s[0]) + DigitValue(s[1])
  {
    assert s[..1][..0] == [];
    assert Number(s[..1]) == DigitValue(s[0]);
  }

  /** The value of a four-digit string, as two two-digit halves. */
  lemma NumberOf4(s: string)
    requires |s| == 4 && AllDigits(s)
    ensures Number(s) == 100 * Number(s[..2]) + Number(s[2..])
  {
    NumberOf2(s[..2]);
    NumberOf2(s[2..]);
    assert s[..3][..2] == s[..2];
    assert Number(s[..3]) == Number(s[..2]) * 10 + DigitValue(s[2]);
  }

  lemma NumberPad2(n: int)
    requires 0 <= n < 100
    ensures Number(Pad2(n)) == n
  {
    NumberOf2(Pad2(n));
  }

  lemma NumberPad4(n: int)
    requires 0 <= n < 10000
    ensures Number(Pad4(n)) == n
  {
    var s := Pad4(n);
    assert s[..2] == Pad2(n / 100) && s[2..] == Pad2(n % 100);
    NumberOf4(s);
    NumberPad2(n / 100);
    NumberPad2(n % 100);
  }

  lemma PadNumber2(s: string)
    requires |s| == 2 && AllDigits(s)
    ensures Number(s) < 100 && Pad2(Number(s)) == s
  {
    NumberOf2(s);
    var n := Number(s);
    assert n / 10 == DigitValue(s[0]) && n % 10 == DigitValue(s[1]);
    assert Pad2(n)[0] == s[0] && Pad2(n)[1] == s[1];
  }

  lemma PadNumber4(s: string)
    requires |s| == 4 && AllDigits(s)
    ensures Number(s) < 10000 && Pad4(Number(s)) == s
  {
    NumberOf4(s);
    PadNumber2(s[..2]);
    PadNumber2(s[2..]);
    var n := Number(s);
    assert n / 100 == Number(s[..2]) && n % 100 == Number(s[2..]);
    assert s == s[..2] + s[2..];
  }

  /** Two laid-out strings whose digit fields agree are equal. */
  lemma LayoutDetermined(s: string, t: string)
    requires HasLayout(s) && HasLayout(t)
    requires s[0..4] == t[0..4] && s[5..7] == t[5..7] && s[8..10] == t[8..10]
    requires s[11..13] == t[11..13] && s[14..16] == t[14..16] && s[17..19] == t[17..19]
    ensures s == t
  {
    forall i | 0 <= i < 19
      ensures s[i] == t[i]
    {
      if i < 4 { assert s[i] == s[0..4][i]; assert t[i] == t[0..4][i]; }
      else if 5 <= i < 7 { assert s[i] == s[5..7][i - 5]; assert t[i] == t[5..7][i - 5]; }
      else if 8 <= i < 10 { assert s[i] == s[8..10][i - 8]; assert t[i] == t[8..10][i - 8]; }
      else if 11 <= i < 13 { assert s[i] == s[11..13][i - 11]; assert t[i] == t[11..13][i - 11]; }
      else if 14 <= i < 16 { assert s[i] == s[14..16][i - 14]; assert t[i] == t[14..16][i - 14]; }
      else if 17 <= i < 19 { assert s[i] == s[17..19][i - 17]; assert t[i] == t[17..19][i - 17]; }
    }
  }

  /** Reading back what `strftime` wrote yields the same date-time. */
  lemma FormatParse(d: Instant)
    ensures Parse(Format(d)) == Some(d)
  {
    var s := Format(d);
    NumberPad4(d.year);
    NumberPad2(d.month);
    NumberPad2(d.day);
    NumberPad2(d.hour);
    NumberPad2(d.minute);
    NumberPad2(d.second);
  }

  /** Two clock readings written out: fields are zero-padded to their widths. */
  lemma FormatExamples()
    ensures Format(DateTime(2019, 12, 27, 8, 15, 30)) == "2019-12-27T08:15:30"
    ensures Format(DateTime(2020, 1, 3, 8, 15, 30)) == "2020-01-03T08:15:30"
  {
    assert Pad4(2019) == "2019";
    assert Pad4(2020) == "2020";
    assert Pad2(1) == "01";
    assert Pad2(3) == "03";
    assert Pad2(12) == "12";
    assert Pad2(27) == "27";
    assert Pad2(8) == "08";
    assert Pad2(15) == "15";
    assert Pad2(30) == "30";
  }

  // ---------------------------------------------------------------------
  // Text order is time order

  /** Lexicographic order on strings, by character code. */
  predicate LexLe(a: string, b: string)
    decreases |a|
  {
    a == [] || (b != [] && (a[0] < b[0] || (a[0] == b[0] && LexLe(a[1..], b[1..]))))
  }

  /**
   * Comparing two strings whose first parts have equal length: the first
   * parts decide unless they are equal, and then the rest decides.
   */
  lemma {:induction false} LexLeAppend(a1: string, a2: string, b1: string, b2: string)
    requires |a1| == |b1|
    ensures LexLe(a1 + a2, b1 + b2) <==> (a1 != b1 && LexLe(a1, b1)) || (a1 == b1 && LexLe(a2, b2))
    decreases |a1|
  {
    if a1 == [] {
      assert a1 + a2 == a2 && b1 + b2 == b2;
    } else {
      assert (a1 + a2)[0] == a1[0] && (a1 + a2)[1..] == a1[1..] + a2;
      assert (b1 + b2)[0] == b1[0] && (b1 + b2)[1..] == b1[1..] + b2;
      assert a1 == b1 <==> a1[0] == b1[0] && a1[1..] == b1[1..] by {
        if a1[0] == b1[0] && a1[1..] == b1[1..] {
          assert a1 == [a1[0]] + a1[1..] && b1 == [b1[0]] + b1[1..];
        }
      }
      LexLeAppend(a1[1..], a2, b1[1..], b2);
    }
  }

  /** Zero-padded two-digit fields compare as their values do. */
  lemma Pad2Order(x: int, y: int)
    requires 0 <= x < 100 && 0 <= y < 100
    ensures LexLe(Pad2(x), Pad2(y)) <==> x <= y
    ensures Pad2(x) == Pad2(y) <==> x == y
  {
    NumberPad2(x);
    NumberPad2(y);
    var s, t := Pad2(x), Pad2(y);
    assert s[1..][0] == s[1] && t[1..][0] == t[1];
    assert s[1..][1..] == [] && t[1..][1..] == [];
    assert LexLe(s[1..], t[1..]) <==> s[1] <= t[1] by {
      assert LexLe(s[1..][1..], t[1..][1..]);
    }
    assert LexLe(s, t) <==> s[0] < t[0] || (s[0] == t[0] && s[1] <= t[1]);
    assert s[0] < t[0] <==> x / 10 < y / 10;
    assert s[1] <= t[1] <==> x % 10 <= y % 10;
  }

  /** Zero-padded four-digit fields compare as their values do. */
  lemma Pad4Order(x: int, y: int)
    requires 0 <= x < 10000 && 0 <= y < 10000
    ensures LexLe(Pad4(x), Pad4(y)) <==> x <= y
    ensures Pad4(x) == Pad4(y) <==> x == y
  {
    NumberPad4(x);
    NumberPad4(y);
    Pad2Order(x / 100, y / 100);
    Pad2Order(x % 100, y % 100);
    LexLeAppend(Pad2(x / 100), Pad2(x % 100), Pad2(y / 100), Pad2(y % 100));
  }

  /** A separator both strings share does not affect their order. */
  lemma SharedSeparator(c: string, r1: string, r2: string)
    ensures LexLe(c + r1, c + r2) <==> LexLe(r1, r2)
  {
    LexLeAppend(c, r1, c, r2);
  }

  /** The time-of-day part `HH:MM:SS`. */
  function ClockText(d: Instant): string {
    Pad2(d.hour) + (":" + (Pad2(d.minute) + (":" + Pad2(d.second))))
  }

  lemma ClockTextOrder(a: Instant, b: Instant)
    ensures LexLe(ClockText(a), ClockText(b)) <==> ClockNotAfter(a, b)
  {
    Pad2Order(a.hour, b.hour);
    Pad2Order(a.minute, b.minute);
    Pad2Order(a.second, b.second);
    LexLeAppend(Pad2(a.minute), ":" + Pad2(a.second), Pad2(b.minute), ":" + Pad2(b.second));
    SharedSeparator(":", Pad2(a.second), Pad2(b.second));
    SharedSeparator(":", Pad2(a.minute) + (":" + Pad2(a.second)), Pad2(b.minute) + (":" + Pad2(b.second)));
    LexLeAppend(Pad2(a.hour), ":" + (Pad2(a.minute) + (":" + Pad2(a.second))),
                Pad2(b.hour), ":" + (Pad2(b.minute) + (":" + Pad2(b.second))));
  }

  /**
   * The written form orders date-times chronologically: comparing two
   * `%Y-%m-%dT%H:%M:%S` strings character by character, as a range filter
   * over keyword timestamps does, compares the moments they name.
   */
  lemma FormatOrder(a: Instant, b: Instant)
    ensures LexLe(Format(a), Format(b)) <==> NotAfter(a, b)
  {
    var dayA, dayB := Pad2(a.day) + ("T" + ClockText(a)), Pad2(b.day) + ("T" + ClockText(b));
    var monthA, monthB := Pad2(a.month) + ("-" + dayA), Pad2(b.month) + ("-" + dayB);
    assert Format(a) == Pad4(a.year) + ("-" + monthA);
    assert Format(b) == Pad4(b.year) + ("-" + monthB);
    ClockTextOrder(a, b);
    SharedSeparator("T", ClockText(a), ClockText(b));
    Pad2Order(a.day, b.day);
    LexLeAppend(Pad2(a.day), "T" + ClockText(a), Pad2(b.day), "T" + ClockText(b));
    SharedSeparator("-", dayA, dayB);
    Pad2Order(a.month, b.month);
    LexLeAppend(Pad2(a.month), "-" + dayA, Pad2(b.month), "-" + dayB);
    SharedSeparator("-", monthA, monthB);
    Pad4Order(a.year, b.year);
    LexLeAppend(Pad4(a.year), "-" + monthA, Pad4(b.year), "-" + monthB);
  }
}
