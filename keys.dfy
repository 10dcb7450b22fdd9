/**
 * Occupancy keys: the string `${Math.floor(x)},${Math.floor(z)}` that names the
 * unit cell a decoration occupies, and its reading back through
 * `key.split(",").map(Number)`.
 */
module OccupancyKeys {
  import opened Options

  predicate IsDigit(c: char) { '0' <= c <= '9' }

  predicate AllDigits(s: string) { forall i :: 0 <= i < |s| ==> IsDigit(s[i]) }

  function DigitChar(d: nat): (c: char)
    requires d < 10
    ensures IsDigit(c)
  {
    (('0' as int) + d) as char
  }

  function DigitValue(c: char): (d: nat)
    requires IsDigit(c)
    ensures d < 10
  {
    (c as int) - ('0' as int)
  }

  /** Decimal digits of a natural number, most significant first, without leading zeros. */
  function Decimal(n: nat): (s: string)
    ensures 1 <= |s| && AllDigits(s)
    decreases n
  {
    if n < 10 then [DigitChar(n)] else Decimal(n / 10) + [DigitChar(n % 10)]
  }

  /** How a template literal renders an integral number. */
  function NumberToString(n: int): (s: string)
    ensures 1 <= |s| && ',' !in s
    ensures n < 0 <==> s[0] == '-'
  {
    if n < 0 then "-" + Decimal(-n) else Decimal(n)
  }

  /** The value of a string of decimal digits. */
  function DecimalValue(s: string): nat
    requires AllDigits(s)
    decreases |s|
  {
    if s == [] then 0 else DecimalValue(s[..|s| - 1]) * 10 + DigitValue(s[|s| - 1])
  }

  /**
   * `Number(s)` on the strings that can stand between the commas of a key: the
   * empty string reads as 0, an optional minus sign followed by one or more
   * decimal digits reads as that integer, and everything else is NaN (None).
   */
  function ParseNumber(s: string): Option<int>
  {
    if s == [] then Some(0)
    else if s[0] == '-' then
      if 1 < |s| && AllDigits(s[1..]) then Some(-(DecimalValue(s[1..]) as int)) else None
    else if AllDigits(s) then Some(DecimalValue(s))
    else None
  }

  /** `s.split(sep)` for a one-character separator: the pieces between separators, in order. */
  function Split(s: string, sep: char): (parts: seq<string>)
    ensures 1 <= |parts|
    decreases |s|
  {
    if s == [] then [[]]
    else if s[0] == sep then [[]] + Split(s[1..], sep)
    else
      var rest := Split(s[1..], sep);
      [[s[0]] + rest[0]] + rest[1..]
  }

  /** The key of the cell (x, z). */
  function FormatKey(x: int, z: int): string
  {
    NumberToString(x) + "," + NumberToString(z)
  }

  /** The key of the unit cell holding the point (x, z). */
  function KeyOf(x: real, z: real): string
  {
    FormatKey(x.Floor, z.Floor)
  }

  /** `let [x, z] = key.split(",").map(Number)`: None when either component is NaN or missing. */
  function ParseKey(key: string): Option<(int, int)>
  {
    var parts := Split(key, ',');
    if |parts| < 2 then None
    else match (ParseNumber(parts[0]), ParseNumber(parts[1]))
      case (Some(x), Some(z)) => Some((x, z))
      case _ => None
  }

  /** A key that reads back to a cell whose key it is. */
  predicate IsCellKey(key: string)
  {
    ParseKey(key).Some? && FormatKey(ParseKey(key).value.0, ParseKey(key).value.1) == key
  }

  lemma {:induction false} DecimalRoundTrip(n: nat)
    ensures DecimalValue(Decimal(n)) == n
    decreases n
  {
    var s := Decimal(n);
    if n < 10 {
      assert s[..|s| - 1] == [];
    } else {
      DecimalRoundTrip(n / 10);
      assert s[..|s| - 1] == Decimal(n / 10);
    }
  }

  lemma NumberRoundTrip(n: int)
    ensures ParseNumber(NumberToString(n)) == Some(n)
  {
    var s := NumberToString(n);
    if n < 0 {
      assert s[1..] == Decimal(-n);
      DecimalRoundTrip(-n);
    } else {
      DecimalRoundTrip(n);
    }
  }

  lemma {:induction false} SplitWithoutSeparator(s: string, sep: char)
    requires sep !in s
    ensures Split(s, sep) == [s]
    decreases |s|
  {
    if s != [] {
      SplitWithoutSeparator(s[1..], sep);
      assert [s[0]] + s[1..] == s;
    }
  }

  lemma {:induction false} SplitAtSeparator(a: string, b: string, sep: char)
    requires sep !in a
    ensures Split(a + [sep] + b, sep) == [a] + Split(b, sep)
    decreases |a|
  {
    var s := a + [sep] + b;
    if a == [] {
      assert s[1..] == b;
    } else {
      assert s[1..] == a[1..] + [sep] + b;
      SplitAtSeparator(a[1..], b, sep);
      assert [a[0]] + a[1..] == a;
    }
  }

  /** Reading a key back gives exactly the cell it was made from, negative components included. */
  lemma KeyRoundTrip(x: int, z: int)
    ensures ParseKey(FormatKey(x, z)) == Some((x, z))
  {
    var sx, sz := NumberToString(x), NumberToString(z);
    assert FormatKey(x, z) == sx + [','] + sz;
    SplitAtSeparator(sx, sz, ',');
    SplitWithoutSeparator(sz, ',');
    NumberRoundTrip(x);
    NumberRoundTrip(z);
  }

  /** Two cells share a key exactly when they are the same cell. */
  lemma FormatKeyInjective(x1: int, z1: int, x2: int, z2: int)
    ensures FormatKey(x1, z1) == FormatKey(x2, z2) <==> x1 == x2 && z1 == z2
  {
    KeyRoundTrip(x1, z1);
    KeyRoundTrip(x2, z2);
  }

  /** Every key built from a point is a cell key, and it names the unit cell holding that point. */
  lemma KeyOfNamesCell(x: real, z: real)
    ensures IsCellKey(KeyOf(x, z))
    ensures ParseKey(KeyOf(x, z)) == Some((x.Floor, z.Floor))
    ensures x.Floor as real <= x < x.Floor as real + 1.0 && z.Floor as real <= z < z.Floor as real + 1.0
  {
    KeyRoundTrip(x.Floor, z.Floor);
  }

  /** Points in the quadrant of negative coordinates floor away from zero: (-0.5, 2.7) is cell "-1,2". */
  lemma NegativeKeyExample()
    ensures KeyOf(-0.5, 2.7) == "-1,2"
    ensures ParseKey("-1,2") == Some((-1, 2))
    ensures KeyOf(-12.25, -600.0) == "-13,-600"
  {
    assert Decimal(1) == "1";
    assert Decimal(2) == "2";
    assert Decimal(13) == Decimal(1) + "3";
    assert Decimal(6) == "6";
    assert Decimal(60) == Decimal(6) + "0";
    assert Decimal(600) == Decimal(60) + "0";
    KeyRoundTrip(-1, 2);
  }
}
