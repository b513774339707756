/** Text helpers shared by the visualizer modules: decimal formatting of numbers as JavaScript prints
    them in template literals and `toFixed(2)`, joining and splitting on one separator character, and
    ASCII case mapping (`toLowerCase`, `toUpperCase`). */
module Text {
  import opened Wrappers

  predicate IsDigit(c: char) { '0' <= c <= '9' }

  predicate AllDigits(s: string) { forall i | 0 <= i < |s| :: IsDigit(s[i]) }

  /** Characters that can occur in a printed number. */
  predicate IsNumeral(s: string) { forall i | 0 <= i < |s| :: IsDigit(s[i]) || s[i] == '-' || s[i] == '.' }

  function DigitChar(d: nat): (c: char)
    requires d < 10
    ensures IsDigit(c) && c as int - '0' as int == d
  {
    ('0' as int + d) as char
  }

  /** Decimal digits of a natural number, most significant first, without leading zeros. */
  function NatToString(n: nat): (s: string)
    ensures |s| > 0 && AllDigits(s)
    ensures |s| > 1 ==> s[0] != '0'
    decreases n
  {
    if n < 10 then [DigitChar(n)] else NatToString(n / 10) + [DigitChar(n % 10)]
  }

  /** How JavaScript prints an integral number: a minus sign, then the digits of the magnitude. */
  function IntToString(i: int): (s: string)
    ensures |s| > 0 && IsNumeral(s)
  {
    if i < 0 then "-" + NatToString(-i) else NatToString(i)
  }

  function ParseNat(s: string): nat
    requires AllDigits(s)
  {
    if s == [] then 0 else 10 * ParseNat(s[..|s| - 1]) + (s[|s| - 1] as int - '0' as int)
  }

  /** Reads back an optional minus sign followed by at least one digit. */
  function ParseInt(s: string): Option<int> {
    if |s| > 1 && s[0] == '-' && AllDigits(s[1..]) then Some(0 - ParseNat(s[1..]) as int)
    else if |s| > 0 && AllDigits(s) then Some(ParseNat(s))
    else None
  }

  lemma {:induction false} ParseNatToString(n: nat)
    ensures ParseNat(NatToString(n)) == n
    decreases n
  {
    var s := NatToString(n);
    if n >= 10 {
      ParseNatToString(n / 10);
      assert s[..|s| - 1] == NatToString(n / 10);
    }
  }

  /** Printing an integer and reading it back gives the integer: the printed form loses nothing. */
  lemma ParseIntToString(i: int)
    ensures ParseInt(IntToString(i)) == Some(i)
  {
    var s := IntToString(i);
    if i < 0 {
      var t := NatToString(-i);
      ParseNatToString(-i);
      assert s == "-" + t && s[1..] == t;
      assert |s| > 1 && s[0] == '-' && AllDigits(s[1..]);
    } else {
      ParseNatToString(i);
      assert s == NatToString(i) && IsDigit(s[0]);
    }
  }

  /** Hundredths of a non-negative real, rounded half up (the rounding `toFixed(2)` applies). */
  function Hundredths(x: real): (c: nat)
    requires 0.0 <= x
    ensures x * 100.0 - 0.5 < c as real <= x * 100.0 + 0.5
  {
    (x * 100.0 + 0.5).Floor
  }

  function Magnitude(x: real): real { if x < 0.0 then -x else x }

  /** `x.toFixed(2)`: sign, whole part, a point and exactly two decimals. */
  function ToFixed2(x: real): (s: string)
    ensures |s| >= 4 && s[|s| - 3] == '.' && IsDigit(s[|s| - 2]) && IsDigit(s[|s| - 1])
    ensures IsNumeral(s)
    ensures s[0] == '-' <==> x < 0.0
  {
    var c := Hundredths(Magnitude(x));
    (if x < 0.0 then "-" else "") + NatToString(c / 100) + "." + [DigitChar(c % 100 / 10), DigitChar(c % 10)]
  }

  lemma ParseTwoDigits(d: nat)
    requires d < 100
    ensures ParseNat([DigitChar(d / 10), DigitChar(d % 10)]) == d
  {
    var t := [DigitChar(d / 10), DigitChar(d % 10)];
    assert t[..1] == [t[0]] && t[..1][..0] == [];
    assert ParseNat(t[..1]) == d / 10;
    assert ParseNat(t) == 10 * (d / 10) + d % 10;
  }

  lemma FixedParts(w: string, t: string)
    ensures var b := w + "." + t; |t| == 2 ==> b[..|b| - 3] == w && b[|b| - 2..] == t
  {
  }

  /** Reading the two-decimal text back: after the sign, the whole part and the two decimals spell
      the rounded hundredths of the magnitude. */
  lemma ToFixed2Value(x: real)
    ensures var s := ToFixed2(x); var body := if x < 0.0 then s[1..] else s;
      |body| >= 4 && AllDigits(body[..|body| - 3]) &&
      ParseNat(body[..|body| - 3]) * 100 + ParseNat(body[|body| - 2..]) == Hundredths(Magnitude(x))
  {
    var c := Hundredths(Magnitude(x));
    var w := NatToString(c / 100);
    var t := [DigitChar(c % 100 / 10), DigitChar(c % 10)];
    assert c % 100 / 10 == (c % 100) / 10 && c % 10 == (c % 100) % 10;
    ParseTwoDigits(c % 100);
    ParseNatToString(c / 100);
    FixedParts(w, t);
    var body := w + "." + t;
    assert ToFixed2(x) == (if x < 0.0 then "-" else "") + body;
    assert (if x < 0.0 then ToFixed2(x)[1..] else ToFixed2(x)) == body;
  }

  /** `String(x)` for a number: integral values print exactly; other values are printed to at most two
      decimals with trailing zeros dropped, which is exact for the two-decimal steps the control panel uses. */
  function NumberString(x: real): (s: string)
    ensures |s| > 0 && IsNumeral(s)
    ensures x == x.Floor as real ==> s == IntToString(x.Floor)
  {
    var c := Hundredths(Magnitude(x));
    var whole := NatToString(c / 100);
    var frac := c % 100;
    var sign := if x < 0.0 && c > 0 then "-" else "";
    if frac == 0 then
      assert x == x.Floor as real ==> (x < 0.0 ==> c / 100 == -x.Floor) && (x >= 0.0 ==> c / 100 == x.Floor);
      sign + whole
    else if frac % 10 == 0 then sign + whole + "." + [DigitChar(frac / 10)]
    else sign + whole + "." + [DigitChar(frac / 10), DigitChar(frac % 10)]
  }

  /** `parts.join(sep)`. */
  function Join(parts: seq<string>, sep: char): string {
    if |parts| == 0 then "" else if |parts| == 1 then parts[0] else parts[0] + [sep] + Join(parts[1..], sep)
  }

  /** The last part closes the joined text, after one separator. */
  lemma {:induction false} JoinLast(parts: seq<string>, sep: char)
    requires |parts| >= 2
    ensures Join(parts, sep) == Join(parts[..|parts| - 1], sep) + [sep] + parts[|parts| - 1]
    decreases |parts|
  {
    if |parts| > 2 {
      JoinLast(parts[1..], sep);
      assert parts[1..][..|parts| - 2] == parts[..|parts| - 1][1..];
    }
  }

  /** `s.split(sep)`: the pieces between separators, always at least one. */
  function Split(s: string, sep: char): (parts: seq<string>)
    ensures |parts| > 0
    decreases |s|
  {
    if |s| == 0 then [""]
    else
      var rest := Split(s[1..], sep);
      if s[0] == sep then [""] + rest else [[s[0]] + rest[0]] + rest[1..]
  }

  lemma {:induction false} SplitPrefix(a: string, t: string, sep: char)
    requires sep !in a
    ensures Split(a + t, sep) == [a + Split(t, sep)[0]] + Split(t, sep)[1..]
    decreases |a|
  {
    if |a| > 0 {
      assert (a + t)[1..] == a[1..] + t;
      SplitPrefix(a[1..], t, sep);
      assert [a[0]] + (a[1..] + Split(t, sep)[0]) == a + Split(t, sep)[0];
    } else {
      var p := Split(t, sep);
      assert a + t == t && a + p[0] == p[0];
      assert [p[0]] + p[1..] == p;
    }
  }

  /** Splitting a join on the same separator gives the parts back, when no part contains it. */
  lemma {:induction false} SplitJoin(parts: seq<string>, sep: char)
    requires |parts| > 0
    requires forall i | 0 <= i < |parts| :: sep !in parts[i]
    ensures Split(Join(parts, sep), sep) == parts
  {
    if |parts| == 1 {
      SplitPrefix(parts[0], "", sep);
      assert parts[0] + "" == parts[0];
    } else {
      var t := [sep] + Join(parts[1..], sep);
      assert Join(parts, sep) == parts[0] + t;
      SplitPrefix(parts[0], t, sep);
      SplitJoin(parts[1..], sep);
      assert Split(t, sep) == [""] + parts[1..];
      assert parts[0] + "" == parts[0];
    }
  }

  function LowerChar(c: char): char {
    if 'A' <= c <= 'Z' then (c as int + 32) as char else c
  }

  function UpperChar(c: char): char {
    if 'a' <= c <= 'z' then (c as int - 32) as char else c
  }

  /** `s.toLowerCase()` on ASCII letters. */
  function Lower(s: string): string {
    seq(|s|, i requires 0 <= i < |s| => LowerChar(s[i]))
  }

  predicate NoUpper(s: string) { forall i | 0 <= i < |s| :: !('A' <= s[i] <= 'Z') }
}
