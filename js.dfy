/** The JavaScript built-ins the admin page and the mail builder rely on,
    stated exactly for the inputs they meet here: truthiness of optional
    strings, `filter(Boolean)`, `join`, `slice(-n)`, ASCII `toUpperCase`,
    `parseInt` and `parseFloat` on an optional sign followed by decimal
    digits (section 19.2.5 and 19.2.4 of ECMA-262), and `toString` of
    integers and of amounts held in cents. */
module Js {

  /** `undefined`/`null` is None; NaN of a numeric parse is None as well. */
  datatype Option<T> = None | Some(value: T)

  // ---------------------------------------------------------------- strings

  /** A possibly-missing string is truthy when present and non-empty. */
  predicate Truthy(s: Option<string>) {
    s.Some? && s.value != ""
  }

  /** `s || fallback` for a possibly-missing string. */
  function OrElse(s: Option<string>, fallback: string): (r: string)
    ensures Truthy(s) ==> r == s.value
    ensures !Truthy(s) ==> r == fallback
  {
    if Truthy(s) then s.value else fallback
  }

  /** `xs.filter(Boolean)` on possibly-missing strings: the truthy ones, in order. */
  function Compact(xs: seq<Option<string>>): (r: seq<string>)
    ensures |r| <= |xs|
    ensures forall i :: 0 <= i < |r| ==> r[i] != ""
    ensures forall x :: x in r ==> Some(x) in xs
    ensures r == [] <==> forall i :: 0 <= i < |xs| ==> !Truthy(xs[i])
  {
    if xs == [] then []
    else if Truthy(xs[0]) then [xs[0].value] + Compact(xs[1..])
    else
      assert forall i :: 1 <= i < |xs| ==> xs[i] == xs[1..][i - 1];
      Compact(xs[1..])
  }

  /** `filter(Boolean)` keeps the order of what it keeps: it distributes over concatenation. */
  lemma {:induction false} CompactAppend(a: seq<Option<string>>, b: seq<Option<string>>)
    ensures Compact(a + b) == Compact(a) + Compact(b)
  {
    if a == [] {
      assert a + b == b;
    } else {
      var tail := a[1..];
      assert (a + b)[0] == a[0];
      assert (a + b)[1..] == tail + b;
      CompactAppend(tail, b);
      if Truthy(a[0]) {
        assert Compact(a + b) == [a[0].value] + Compact(tail + b);
        assert Compact(a) == [a[0].value] + Compact(tail);
        AppendAssoc([a[0].value], Compact(tail), Compact(b));
      } else {
        assert Compact(a + b) == Compact(tail + b);
        assert Compact(a) == Compact(tail);
      }
    }
  }

  /** Concatenation is associative. */
  lemma AppendAssoc<T>(x: seq<T>, y: seq<T>, z: seq<T>)
    ensures x + (y + z) == (x + y) + z
  {
  }

  /** A one-element list keeps its element exactly when it is truthy. */
  lemma CompactSingle(x: Option<string>)
    ensures Compact([x]) == if Truthy(x) then [x.value] else []
  {
    assert [x][1..] == [];
  }

  /** The one-element list `filter(Boolean)` keeps of x. */
  function Kept(x: Option<string>): (r: seq<string>)
    ensures Truthy(x) ==> r == [x.value]
    ensures !Truthy(x) ==> r == []
  {
    if Truthy(x) then [x.value] else []
  }

  /** `[a, b, c].filter(Boolean)`: each of the three, in order, when truthy. */
  lemma CompactThree(a: Option<string>, b: Option<string>, c: Option<string>)
    ensures Compact([a, b, c]) == Kept(a) + Kept(b) + Kept(c)
  {
    assert [a, b, c] == [a] + ([b] + [c]);
    CompactAppend([a], [b] + [c]);
    CompactAppend([b], [c]);
    CompactSingle(a);
    CompactSingle(b);
    CompactSingle(c);
  }

  /** `xs.join(sep)`. */
  function Join(sep: string, xs: seq<string>): (r: string)
    ensures xs == [] ==> r == ""
    ensures |xs| == 1 ==> r == xs[0]
    ensures (exists i :: 0 <= i < |xs| && xs[i] != "") ==> r != ""
  {
    if xs == [] then ""
    else if |xs| == 1 then xs[0]
    else
      var rest := Join(sep, xs[1..]);
      assert forall i :: 1 <= i < |xs| ==> xs[i] == xs[1..][i - 1];
      assert |xs[0] + sep + rest| >= |xs[0]| + |rest|;
      xs[0] + sep + rest
  }

  /** Appending an element puts the separator between it and what was
      joined before: the elements come in order, `sep` between each pair. */
  lemma {:induction false} JoinAppend(sep: string, xs: seq<string>, x: string)
    ensures Join(sep, xs + [x]) == if xs == [] then x else Join(sep, xs) + sep + x
  {
    if xs == [] {
      assert xs + [x] == [x];
    } else if |xs| == 1 {
      assert xs + [x] == [xs[0], x];
      assert [xs[0], x][1..] == [x];
    } else {
      assert (xs + [x])[0] == xs[0];
      assert (xs + [x])[1..] == xs[1..] + [x];
      JoinAppend(sep, xs[1..], x);
      assert Join(sep, xs + [x]) == xs[0] + sep + (Join(sep, xs[1..]) + sep + x);
    }
  }

  /** `s.slice(-n)` for n > 0: the last n characters, or all of s when it is shorter. */
  function SliceLast(s: string, n: nat): (r: string)
    requires n > 0
    ensures |r| == if |s| < n then |s| else n
    ensures r == s[|s| - |r|..]
  {
    if |s| < n then s else s[|s| - n..]
  }

  /** `toUpperCase` on one character; only the ASCII letters are mapped. */
  function UpperChar(c: char): (u: char)
    ensures 'a' <= c <= 'z' ==> 'A' <= u <= 'Z' && u as int == c as int - 32
    ensures !('a' <= c <= 'z') ==> u == c
  {
    if 'a' <= c <= 'z' then (c as int - 32) as char else c
  }

  /** `s.toUpperCase()`: same length, every character upper-cased in place. */
  function Upper(s: string): (r: string)
    ensures |r| == |s|
    ensures forall i :: 0 <= i < |s| ==> r[i] == UpperChar(s[i])
  {
    if s == [] then [] else [UpperChar(s[0])] + Upper(s[1..])
  }

  // ---------------------------------------------------------------- digits

  predicate IsDigit(c: char) {
    '0' <= c <= '9'
  }

  predicate AllDigits(s: string) {
    forall i :: 0 <= i < |s| ==> IsDigit(s[i])
  }

  function DigitValue(c: char): (d: nat)
    requires IsDigit(c)
    ensures d < 10
  {
    c as int - '0' as int
  }

  function DigitChar(d: nat): (c: char)
    requires d < 10
    ensures IsDigit(c) && DigitValue(c) == d
  {
    ('0' as int + d) as char
  }

  /** The longest prefix of s made only of decimal digits. */
  function LeadingDigits(s: string): (d: string)
    ensures d <= s
    ensures AllDigits(d)
    ensures |d| < |s| ==> !IsDigit(s[|d|])
  {
    if s == [] || !IsDigit(s[0]) then []
    else
      var t := LeadingDigits(s[1..]);
      assert s == [s[0]] + s[1..];
      [s[0]] + t
  }

  /** The value of a run of decimal digits, most significant first. */
  function DigitsValue(d: string): nat
    requires AllDigits(d)
  {
    if d == [] then 0 else DigitsValue(d[..|d| - 1]) * 10 + DigitValue(d[|d| - 1])
  }

  function Pow10(k: nat): (p: nat)
    ensures p >= 1
  {
    if k == 0 then 1 else 10 * Pow10(k - 1)
  }

  /** What `parseInt` and `parseFloat` read after the optional sign. */
  function Unsigned(s: string): (u: string)
    ensures |s| > 0 && (s[0] == '-' || s[0] == '+') ==> u == s[1..]
    ensures !(|s| > 0 && (s[0] == '-' || s[0] == '+')) ==> u == s
  {
    if |s| > 0 && (s[0] == '-' || s[0] == '+') then s[1..] else s
  }

  predicate Negative(s: string) {
    |s| > 0 && s[0] == '-'
  }

  // ---------------------------------------------------------------- parsing

  /** `parseInt(s)` (radix 10): the signed value of the digits after an
      optional sign; NaN (None) when no digit follows the sign. */
  function ParseInt(s: string): (r: Option<int>)
    ensures r.None? <==> LeadingDigits(Unsigned(s)) == []
    ensures r.Some? && !Negative(s) ==> r.value >= 0
    ensures r.Some? && Negative(s) ==> r.value <= 0
  {
    var d := LeadingDigits(Unsigned(s));
    if d == [] then None
    else
      var v: int := DigitsValue(d);
      Some(if Negative(s) then -v else v)
  }

  /** The digits of the fraction part: those right after the '.' that ends
      the integer digits, if there is one. */
  function FractionDigits(rest: string): (f: string)
    ensures AllDigits(f)
    ensures |rest| == 0 || rest[0] != '.' ==> f == []
  {
    if |rest| > 0 && rest[0] == '.' then LeadingDigits(rest[1..]) else []
  }

  /** The value of whole digits ip and fraction digits fp. */
  function DecimalValue(ip: string, fp: string): (v: real)
    requires AllDigits(ip) && AllDigits(fp)
    ensures v >= 0.0
  {
    DigitsValue(ip) as real + DigitsValue(fp) as real / Pow10(|fp|) as real
  }

  /** `parseFloat(s)` on `[sign] digits [. digits]` prefixes, computed exactly:
      NaN (None) unless a digit comes before or right after the point. */
  function ParseFloat(s: string): (r: Option<real>)
    ensures r.None? <==>
      LeadingDigits(Unsigned(s)) == [] &&
      FractionDigits(Unsigned(s)[|LeadingDigits(Unsigned(s))|..]) == []
    ensures r.Some? && !Negative(s) ==> r.value >= 0.0
    ensures r.Some? && Negative(s) ==> r.value <= 0.0
  {
    var u := Unsigned(s);
    var ip := LeadingDigits(u);
    var fp := FractionDigits(u[|ip|..]);
    if ip == [] && fp == [] then None
    else
      var magnitude := DecimalValue(ip, fp);
      Some(if Negative(s) then -magnitude else magnitude)
  }

  /** `x || fallback` for a number that may be NaN: NaN and 0 are falsy. */
  function IntOr(x: Option<int>, fallback: int): (r: int)
    ensures x.Some? && x.value != 0 ==> r == x.value
    ensures x.None? || x.value == 0 ==> r == fallback
  {
    if x.Some? && x.value != 0 then x.value else fallback
  }

  function RealOr(x: Option<real>, fallback: real): (r: real)
    ensures x.Some? && x.value != 0.0 ==> r == x.value
    ensures x.None? || x.value == 0.0 ==> r == fallback
  {
    if x.Some? && x.value != 0.0 then x.value else fallback
  }

  // ---------------------------------------------------------------- printing

  /** Decimal digits of a natural number, without leading zeros. */
  function NatToString(n: nat): (s: string)
    ensures |s| > 0 && AllDigits(s)
    ensures DigitsValue(s) == n
  {
    if n < 10 then [DigitChar(n)]
    else
      var h := NatToString(n / 10);
      var s := h + [DigitChar(n % 10)];
      assert s[..|s| - 1] == h;
      s
  }

  /** The printed digits have no leading zero: only 0 itself starts with '0'. */
  lemma {:induction false} NatToStringNoLeadingZero(n: nat)
    ensures |NatToString(n)| == 1 || NatToString(n)[0] != '0'
  {
    if n >= 10 {
      var h := NatToString(n / 10);
      NatToStringNoLeadingZero(n / 10);
      assert NatToString(n)[0] == h[0];
      if |h| == 1 {
        assert h[..0] == [];
        assert DigitsValue(h) == DigitValue(h[0]);
      }
    }
  }

  /** `n.toString()` for an integer. */
  function IntToString(n: int): string {
    if n < 0 then "-" + NatToString(-n) else NatToString(n)
  }

  /** A printed integer is never empty and starts with '-' exactly when it is negative. */
  lemma IntToStringSign(n: int)
    ensures |IntToString(n)| > 0
    ensures IntToString(n)[0] == '-' <==> n < 0
  {
    var w := NatToString(if n < 0 then -n else n);
    assert IsDigit(w[0]);
  }

  /** The fraction digits printed for r hundredths: none, one, or two
      with no trailing zero. */
  function CentDigits(r: nat): (d: string)
    requires r < 100
    ensures AllDigits(d) && |d| <= 2
  {
    if r == 0 then []
    else if r % 10 == 0 then [DigitChar(r / 10)]
    else [DigitChar(r / 10), DigitChar(r % 10)]
  }

  /** `(c / 100).toString()` for an amount of c cents: the shortest decimal
      form, with no trailing zero in the fraction ("12", "12.5", "12.05"). */
  function CentsToString(c: int): string {
    var m: nat := if c < 0 then -c else c;
    var d := CentDigits(m % 100);
    (if c < 0 then "-" else "") + NatToString(m / 100) + (if d == [] then "" else "." + d)
  }

  /** A printed amount is never empty and starts with '-' exactly when it is negative. */
  lemma CentsToStringSign(c: int)
    ensures |CentsToString(c)| > 0
    ensures CentsToString(c)[0] == '-' <==> c < 0
  {
    var m: nat := if c < 0 then -c else c;
    var w := NatToString(m / 100);
    assert IsDigit(w[0]);
  }

  // ---------------------------------------------------------------- round trips

  /** Digits followed by anything that is not a digit are read back whole. */
  lemma {:induction false} LeadingDigitsOfDigits(d: string, t: string)
    requires AllDigits(d)
    requires t == [] || !IsDigit(t[0])
    ensures LeadingDigits(d + t) == d
  {
    if d != [] {
      assert (d + t)[0] == d[0];
      assert (d + t)[1..] == d[1..] + t;
      LeadingDigitsOfDigits(d[1..], t);
    } else {
      assert d + t == t;
    }
  }

  /** `parseInt(String(n)) === n` for every integer n. */
  lemma ParseIntRoundTrip(n: int)
    ensures ParseInt(IntToString(n)) == Some(n)
  {
    var s := IntToString(n);
    var digits := NatToString(if n < 0 then -n else n);
    assert Unsigned(s) == digits;
    LeadingDigitsOfDigits(digits, []);
    assert digits + [] == digits;
  }

  /** The printed fraction digits stand for exactly r hundredths. */
  lemma CentDigitsValue(r: nat)
    requires r < 100
    ensures DigitsValue(CentDigits(r)) as real / Pow10(|CentDigits(r)|) as real == r as real / 100.0
  {
    var a, b := r / 10, r % 10;
    if r != 0 {
      var one := [DigitChar(a)];
      assert one[..0] == [];
      assert DigitsValue(one) == a;
      if b == 0 {
        assert r == 10 * a;
      } else {
        var two := [DigitChar(a), DigitChar(b)];
        assert two[..1] == one;
        assert DigitsValue(two) == 10 * a + b;
        assert r == 10 * a + b;
      }
    }
  }

  /** What follows the whole part of a printed amount reads back as its fraction digits. */
  lemma CentTailDigits(r: nat)
    requires r < 100
    ensures var d := CentDigits(r); FractionDigits(if d == [] then "" else "." + d) == d
  {
    var d := CentDigits(r);
    if d != [] {
      assert ("." + d)[1..] == d + [];
      LeadingDigitsOfDigits(d, []);
    }
  }

  /** A sign, whole digits and an optional point with fraction digits read back as their value. */
  lemma ParseFloatOfParts(sign: string, w: string, f: string)
    requires sign == "" || sign == "-"
    requires |w| > 0 && AllDigits(w) && AllDigits(f)
    ensures var m := DecimalValue(w, f);
      ParseFloat(sign + w + (if f == [] then "" else "." + f)) == Some(if sign == "-" then -m else m)
  {
    var tail := if f == [] then "" else "." + f;
    var u := w + tail;
    var s := sign + w + tail;
    assert s == sign + u;
    assert u[0] == w[0];
    UnsignedOfParts(sign, u);
    LeadingDigitsOfDigits(w, tail);
    assert u[|w|..] == tail;
    FractionDigitsOfTail(f);
    ParseFloatByParts(s, u, w, f, sign == "-");
  }

  /** ParseFloat, unfolded once for a string whose parts are known. */
  lemma ParseFloatByParts(s: string, u: string, w: string, f: string, neg: bool)
    requires AllDigits(w) && AllDigits(f) && |w| > 0
    requires Unsigned(s) == u && LeadingDigits(u) == w && FractionDigits(u[|w|..]) == f
    requires Negative(s) <==> neg
    ensures ParseFloat(s) == Some(if neg then -DecimalValue(w, f) else DecimalValue(w, f))
  {
  }

  lemma UnsignedOfParts(sign: string, u: string)
    requires sign == "" || sign == "-"
    requires |u| > 0 && IsDigit(u[0])
    ensures Unsigned(sign + u) == u
    ensures Negative(sign + u) <==> sign == "-"
  {
    if sign == "" {
      assert sign + u == u;
    } else {
      assert (sign + u)[1..] == u;
    }
  }

  lemma FractionDigitsOfTail(f: string)
    requires AllDigits(f)
    ensures FractionDigits(if f == [] then "" else "." + f) == f
  {
    if f != [] {
      assert ("." + f)[1..] == f + [];
      LeadingDigitsOfDigits(f, []);
    }
  }

  /** `parseFloat((c / 100).toString())` is exactly c / 100. */
  lemma ParseFloatCentsRoundTrip(c: int)
    ensures ParseFloat(CentsToString(c)) == Some(c as real / 100.0)
  {
    var m: nat := if c < 0 then -c else c;
    ParseFloatOfCents(c);
    CentsValue(m);
    SignedCents(c, m, DecimalValue(NatToString(m / 100), CentDigits(m % 100)));
  }

  lemma SignedCents(c: int, m: nat, v: real)
    requires m == (if c < 0 then -c else c) && v == m as real / 100.0
    ensures (if c < 0 then -v else v) == c as real / 100.0
  {
  }

  /** The round trip, for an optional amount shown with a fallback of zero. */
  lemma ParseFloatOfCentsOr(x: Option<int>)
    ensures ParseFloat(CentsToString(IntOr(x, 0))) == Some(IntOr(x, 0) as real / 100.0)
  {
    ParseFloatCentsRoundTrip(IntOr(x, 0));
  }

  lemma ParseFloatOfCents(c: int)
    ensures var m: nat := if c < 0 then -c else c;
      var w, d := NatToString(m / 100), CentDigits(m % 100);
      ParseFloat(CentsToString(c)) == Some(if c < 0 then -DecimalValue(w, d) else DecimalValue(w, d))
  {
    CentsToStringParts(c);
    ParseFloatOfCentParts(c);
  }

  lemma ParseFloatOfCentParts(c: int)
    ensures var m: nat := if c < 0 then -c else c;
      var w, d := NatToString(m / 100), CentDigits(m % 100);
      ParseFloat((if c < 0 then "-" else "") + w + (if d == [] then "" else "." + d)) ==
        Some(if c < 0 then -DecimalValue(w, d) else DecimalValue(w, d))
  {
    var m: nat := if c < 0 then -c else c;
    ParseFloatOfParts(if c < 0 then "-" else "", NatToString(m / 100), CentDigits(m % 100));
  }

  lemma CentsValue(m: nat)
    ensures DecimalValue(NatToString(m / 100), CentDigits(m % 100)) == m as real / 100.0
  {
    CentDigitsValue(m % 100);
    CentsSplit(m);
  }

  lemma CentsToStringParts(c: int)
    ensures var m: nat := if c < 0 then -c else c;
      var d := CentDigits(m % 100);
      CentsToString(c) == (if c < 0 then "-" else "") + NatToString(m / 100) + (if d == [] then "" else "." + d)
  {
  }

  /** The strings the admin form shows for a zero amount and the default threshold. */
  lemma SmallNumberStrings()
    ensures CentsToString(0) == "0"
    ensures IntToString(0) == "0"
    ensures IntToString(5) == "5"
  {
    assert NatToString(0) == "0";
    assert NatToString(5) == "5";
    assert CentDigits(0) == [];
  }

  lemma CentsSplit(m: nat)
    ensures (m / 100) as real + (m % 100) as real / 100.0 == m as real / 100.0
  {
    assert m == 100 * (m / 100) + m % 100;
  }
}
