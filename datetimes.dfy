/** Python `datetime` values and the two renderings the program uses:
    `strftime` digits and `isoformat`; plus Python's string order. */
module DateTimes {

  datatype DateTime = DateTime(year: int, month: int, day: int,
                               hour: int, minute: int, second: int, microsecond: int)
  {
    /** The range a Python `datetime` guarantees. */
    predicate Valid() {
      && 1 <= year <= 9999
      && 1 <= month <= 12
      && 1 <= day <= DaysInMonth(year, month)
      && 0 <= hour < 24
      && 0 <= minute < 60
      && 0 <= second < 60
      && 0 <= microsecond < 1000000
    }
  }

  predicate IsLeapYear(y: int) {
    y % 4 == 0 && (y % 100 != 0 || y % 400 == 0)
  }

  function DaysInMonth(y: int, m: int): int {
    if m == 2 then (if IsLeapYear(y) then 29 else 28)
    else if m == 4 || m == 6 || m == 9 || m == 11 then 30
    else 31
  }

  /** Chronological order, down to the second (the resolution of the
      file-name timestamps). */
  predicate Before(a: DateTime, b: DateTime) {
    || a.year < b.year
    || (a.year == b.year && a.month < b.month)
    || (a.year == b.year && a.month == b.month && a.day < b.day)
    || (a.year == b.year && a.month == b.month && a.day == b.day && a.hour < b.hour)
    || (a.year == b.year && a.month == b.month && a.day == b.day && a.hour == b.hour
        && a.minute < b.minute)
    || (a.year == b.year && a.month == b.month && a.day == b.day && a.hour == b.hour
        && a.minute == b.minute && a.second < b.second)
  }

  predicate SameSecond(a: DateTime, b: DateTime) {
    a.year == b.year && a.month == b.month && a.day == b.day
    && a.hour == b.hour && a.minute == b.minute && a.second == b.second
  }

  function Pow10(k: nat): nat {
    if k == 0 then 1 else 10 * Pow10(k - 1)
  }

  function Digit(d: int): char
    requires 0 <= d < 10
  {
    (('0' as int) + d) as char
  }

  predicate IsDigit(c: char) {
    '0' <= c <= '9'
  }

  /** `n` written in exactly `width` decimal digits, zero-padded (`%0<width>d`
      for `n < 10^width`). */
  function Padded(n: nat, width: nat): (s: string)
    ensures |s| == width
    ensures forall i :: 0 <= i < |s| ==> IsDigit(s[i])
  {
    if width == 0 then [] else Padded(n / 10, width - 1) + [Digit(n % 10)]
  }

  /** `str(n)`: decimal digits without padding. */
  function Decimal(n: nat): (s: string)
    ensures |s| >= 1
  {
    if n < 10 then [Digit(n)] else Decimal(n / 10) + [Digit(n % 10)]
  }

  /** `dt.isoformat()`: `YYYY-MM-DDTHH:MM:SS`, with `.ffffff` only when the
      microsecond is not zero. */
  function IsoFormat(dt: DateTime): (s: string)
    requires dt.Valid()
    ensures |s| == if dt.microsecond == 0 then 19 else 26
  {
    Padded(dt.year, 4) + "-" + Padded(dt.month, 2) + "-" + Padded(dt.day, 2)
    + "T" + Padded(dt.hour, 2) + ":" + Padded(dt.minute, 2) + ":" + Padded(dt.second, 2)
    + (if dt.microsecond == 0 then "" else "." + Padded(dt.microsecond, 6))
  }

  /** Python's `a < b` on strings: lexicographic by code point, a proper
      prefix coming first. */
  predicate Less(a: string, b: string)
    decreases |a|
  {
    if a == [] then b != []
    else b != [] && (a[0] < b[0] || (a[0] == b[0] && Less(a[1..], b[1..])))
  }

  lemma {:induction false} LessIrreflexive(a: string)
    ensures !Less(a, a)
    decreases |a|
  {
    if a != [] {
      LessIrreflexive(a[1..]);
    }
  }

  /** Comparing two strings whose first parts have equal length compares the
      first parts, and on a tie the rest. */
  lemma {:induction false} LessConcat(a1: string, a2: string, b1: string, b2: string)
    requires |a1| == |b1|
    ensures Less(a1 + a2, b1 + b2) <==> Less(a1, b1) || (a1 == b1 && Less(a2, b2))
    decreases |a1|
  {
    if a1 == [] {
      assert a1 + a2 == a2 && b1 + b2 == b2;
    } else {
      assert (a1 + a2)[0] == a1[0] && (b1 + b2)[0] == b1[0];
      assert (a1 + a2)[1..] == a1[1..] + a2;
      assert (b1 + b2)[1..] == b1[1..] + b2;
      LessConcat(a1[1..], a2, b1[1..], b2);
      assert a1 == b1 <==> a1[0] == b1[0] && a1[1..] == b1[1..] by {
        if a1[0] == b1[0] && a1[1..] == b1[1..] {
          assert a1 == [a1[0]] + a1[1..] && b1 == [b1[0]] + b1[1..];
        }
      }
    }
  }

  lemma ConcatEqual(a1: string, a2: string, b1: string, b2: string)
    requires |a1| == |b1|
    ensures a1 + a2 == b1 + b2 <==> a1 == b1 && a2 == b2
  {
    if a1 + a2 == b1 + b2 {
      assert a1 == (a1 + a2)[..|a1|] && b1 == (b1 + b2)[..|b1|];
      assert a2 == (a1 + a2)[|a1|..] && b2 == (b1 + b2)[|b1|..];
    }
  }

  /** Zero-padded numbers of one width compare as strings as they do as
      numbers. */
  lemma {:induction false} PaddedLess(a: nat, b: nat, w: nat)
    requires a < Pow10(w) && b < Pow10(w)
    ensures Less(Padded(a, w), Padded(b, w)) <==> a < b
    ensures Padded(a, w) == Padded(b, w) <==> a == b
  {
    if w == 0 {
    } else {
      var qa, qb, ra, rb := a / 10, b / 10, a % 10, b % 10;
      assert a == 10 * qa + ra && b == 10 * qb + rb;
      assert qa < Pow10(w - 1) && qb < Pow10(w - 1);
      PaddedLess(qa, qb, w - 1);
      LessConcat(Padded(qa, w - 1), [Digit(ra)], Padded(qb, w - 1), [Digit(rb)]);
      ConcatEqual(Padded(qa, w - 1), [Digit(ra)], Padded(qb, w - 1), [Digit(rb)]);
      assert Less([Digit(ra)], [Digit(rb)]) <==> ra < rb;
      assert [Digit(ra)] == [Digit(rb)] <==> ra == rb;
    }
  }

  /** Prefixing both sides with blocks of `w` padded digits. */
  lemma BlockLess(a: nat, b: nat, w: nat, restA: string, restB: string)
    requires a < Pow10(w) && b < Pow10(w)
    ensures Less(Padded(a, w) + restA, Padded(b, w) + restB)
            <==> a < b || (a == b && Less(restA, restB))
    ensures Padded(a, w) + restA == Padded(b, w) + restB <==> a == b && restA == restB
  {
    PaddedLess(a, b, w);
    LessConcat(Padded(a, w), restA, Padded(b, w), restB);
    ConcatEqual(Padded(a, w), restA, Padded(b, w), restB);
  }

  /** A number with exactly `k` digits is written the same padded to `k`. */
  lemma {:induction false} DecimalIsPadded(n: nat, k: nat)
    requires 1 <= k && Pow10(k - 1) <= n < Pow10(k)
    ensures Decimal(n) == Padded(n, k)
  {
    if k == 1 {
      assert Padded(n / 10, 0) == [];
    } else {
      assert n / 10 >= Pow10(k - 2) && n / 10 < Pow10(k - 1);
      DecimalIsPadded(n / 10, k - 1);
    }
  }
}
