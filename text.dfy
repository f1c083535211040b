/**
 * The string operations the core relies on, restricted to ASCII:
 * `str.strip`, `str.lower`, slicing, `split("\n")[0]`, the `in` substring
 * test, and the string forms `int()` and `float()` accept.
 */
module Text {
  import opened Values

  /** Python's `str.isspace` on one ASCII character. */
  predicate IsSpace(c: char)
  {
    c == ' ' || (9 <= c as int <= 13) || (28 <= c as int <= 31)
  }

  /** Only whitespace: the string `s.strip()` empties. */
  predicate Blank(s: string)
    decreases |s|
  {
    s == [] || (IsSpace(s[0]) && Blank(s[1..]))
  }

  ghost predicate AllSpace(s: string)
  {
    forall i :: 0 <= i < |s| ==> IsSpace(s[i])
  }

  lemma {:induction false} BlankIsAllSpace(s: string)
    ensures Blank(s) <==> AllSpace(s)
    decreases |s|
  {
    if s != [] {
      BlankIsAllSpace(s[1..]);
      assert forall i :: 1 <= i < |s| ==> s[i] == s[1..][i - 1];
    }
  }

  /** `s.lstrip()`: drops the leading whitespace. */
  function StripLeft(s: string): (r: string)
    ensures |r| <= |s| && r == s[|s| - |r|..]
    ensures r == [] <==> Blank(s)
    ensures r != [] ==> !IsSpace(r[0])
    decreases |s|
  {
    if s != [] && IsSpace(s[0]) then StripLeft(s[1..]) else s
  }

  /** `s.rstrip()`: drops the trailing whitespace. */
  function StripRight(s: string): (r: string)
    ensures |r| <= |s| && r == s[..|r|]
    ensures r == [] && s != [] ==> IsSpace(s[0])
    ensures r != [] ==> !IsSpace(r[|r| - 1])
    decreases |s|
  {
    if s != [] && IsSpace(s[|s| - 1]) then StripRight(s[..|s| - 1]) else s
  }

  /** `s.strip()`: a stretch of `s`, empty exactly when `s` is only whitespace; `StripMiddle` and `StripDropsSpace` say which. */
  function Strip(s: string): (r: string)
    ensures r == [] <==> Blank(s)
    ensures r != [] ==> !IsSpace(r[0]) && !IsSpace(r[|r| - 1])
    ensures |r| <= |s|
  {
    StripRight(StripLeft(s))
  }

  /** `strip` keeps the stretch of the text that starts where `lstrip` stopped. */
  lemma {:induction false} StripMiddle(s: string)
    ensures var lead := |s| - |StripLeft(s)|; lead + |Strip(s)| <= |s|
    ensures var lead := |s| - |StripLeft(s)|; forall i :: 0 <= i < |Strip(s)| ==> Strip(s)[i] == s[lead + i]
  {
    var t := StripLeft(s);
    var r := Strip(s);
    assert r == StripRight(t);
    forall i | 0 <= i < |r|
      ensures r[i] == s[|s| - |t| + i]
    {
      assert r[i] == t[i];
    }
  }

  /** What `strip` drops on either side of that stretch is whitespace. */
  lemma {:induction false} StripDropsSpace(s: string)
    ensures var lead := |s| - |StripLeft(s)|; forall i :: 0 <= i < lead ==> IsSpace(s[i])
    ensures var lead := |s| - |StripLeft(s)|; forall i :: lead + |Strip(s)| <= i < |s| ==> IsSpace(s[i])
  {
    var t := StripLeft(s);
    var r := Strip(s);
    var lead := |s| - |t|;
    assert r == StripRight(t);
    StripLeftDropsSpace(s);
    StripRightDropsSpace(t);
    forall i | lead + |r| <= i < |s|
      ensures IsSpace(s[i])
    {
      assert s[i] == t[i - lead];
    }
  }

  /** What `lstrip` drops is whitespace, and it keeps the rest. */
  lemma {:induction false} StripLeftDropsSpace(s: string)
    ensures forall i :: 0 <= i < |s| - |StripLeft(s)| ==> IsSpace(s[i])
    decreases |s|
  {
    if s != [] && IsSpace(s[0]) {
      StripLeftDropsSpace(s[1..]);
      assert forall i :: 1 <= i < |s| ==> s[i] == s[1..][i - 1];
    }
  }

  /** What `rstrip` drops is whitespace. */
  lemma {:induction false} StripRightDropsSpace(s: string)
    ensures forall i :: |StripRight(s)| <= i < |s| ==> IsSpace(s[i])
    decreases |s|
  {
    if s != [] && IsSpace(s[|s| - 1]) {
      StripRightDropsSpace(s[..|s| - 1]);
    }
  }

  function LowerChar(c: char): char
  {
    if 'A' <= c <= 'Z' then (c as int - 'A' as int + 'a' as int) as char else c
  }

  /** `s.lower()` on ASCII letters: each capital becomes its small letter, every other character stays. */
  function Lower(s: string): (r: string)
    ensures |r| == |s|
    ensures forall i :: 0 <= i < |r| ==> !('A' <= r[i] <= 'Z')
    ensures forall i :: 0 <= i < |r| && !('A' <= s[i] <= 'Z') ==> r[i] == s[i]
    ensures forall i :: 0 <= i < |r| && 'A' <= s[i] <= 'Z' ==> r[i] as int == s[i] as int + 32
  {
    seq(|s|, i requires 0 <= i < |s| => LowerChar(s[i]))
  }

  /** `s[:n]` for a non-negative `n`. */
  function Take(s: string, n: nat): (r: string)
    ensures |r| == Min(n, |s|) && r == s[..|r|]
  {
    if n <= |s| then s[..n] else s
  }

  /** `s.split("\n")[0]`: the text before the first newline. */
  function FirstLine(s: string): (r: string)
    ensures |r| <= |s| && r == s[..|r|]
    ensures forall i :: 0 <= i < |r| ==> r[i] != '\n'
    ensures |r| < |s| ==> s[|r|] == '\n'
  {
    if s == [] || s[0] == '\n' then [] else [s[0]] + FirstLine(s[1..])
  }

  /** Python's `t in s` on strings, scanning from the left. */
  predicate Contains(s: string, t: string)
    decreases |s|
  {
    if |s| < |t| then false
    else s[..|t|] == t || (s != [] && Contains(s[1..], t))
  }

  ghost predicate OccursAt(s: string, t: string, i: int)
  {
    0 <= i && i + |t| <= |s| && s[i..i + |t|] == t
  }

  /** The scan finds `t` exactly when `t` occurs somewhere in `s`. */
  lemma {:induction false} ContainsIff(s: string, t: string)
    ensures Contains(s, t) <==> exists i :: OccursAt(s, t, i)
    decreases |s|
  {
    if |s| < |t| {
      forall i | OccursAt(s, t, i) ensures false { }
    } else if s[..|t|] == t {
      assert OccursAt(s, t, 0);
    } else if s == [] {
      forall i | OccursAt(s, t, i) ensures false { }
    } else {
      ContainsIff(s[1..], t);
      if Contains(s[1..], t) {
        var i :| OccursAt(s[1..], t, i);
        assert s[1..][i..i + |t|] == s[i + 1..i + 1 + |t|];
        assert OccursAt(s, t, i + 1);
      } else {
        forall i | OccursAt(s, t, i) ensures false {
          if i > 0 {
            assert s[1..][i - 1..i - 1 + |t|] == s[i..i + |t|];
            assert OccursAt(s[1..], t, i - 1);
          }
        }
      }
    }
  }

  /** A string always contains itself once it is surrounded by other text. */
  lemma ContainsInfix(a: string, t: string, b: string)
    ensures Contains(a + t + b, t)
  {
    var s := a + t + b;
    assert s[|a|..|a| + |t|] == t;
    assert OccursAt(s, t, |a|);
    ContainsIff(s, t);
  }

  lemma ContainsEnd(a: string, t: string)
    ensures Contains(a + t, t)
  {
    ContainsInfix(a, t, "");
    assert a + t + "" == a + t;
  }

  /** Text appended after an occurrence keeps it. */
  lemma ContainsExtend(s: string, t: string, y: string)
    requires Contains(s, t)
    ensures Contains(s + y, t)
  {
    ContainsIff(s, t);
    var i :| OccursAt(s, t, i);
    assert (s + y)[i..i + |t|] == s[i..i + |t|];
    assert OccursAt(s + y, t, i);
    ContainsIff(s + y, t);
  }

  predicate IsDigit(c: char)
  {
    '0' <= c <= '9'
  }

  function DigitValue(c: char): nat
    requires IsDigit(c)
  {
    c as int - '0' as int
  }

  function Pow10(n: nat): (p: nat)
    ensures p >= 1
  {
    if n == 0 then 1 else 10 * Pow10(n - 1)
  }

  /** `int(s)` on a string: whitespace, an optional sign, one or more decimal digits, whitespace. */
  function ParseInt(s: string): Option<int>
    decreases |s|
  {
    if s != [] && IsSpace(s[0]) then ParseInt(s[1..])
    else if s != [] && (s[0] == '-' || s[0] == '+') then IntDigits(s[1..], s[0] == '-', 0, 0)
    else IntDigits(s, false, 0, 0)
  }

  /** The digits of an integer, their value so far in `acc`, `count` of them read. */
  function IntDigits(s: string, neg: bool, acc: nat, count: nat): Option<int>
    decreases |s|
  {
    if s != [] && IsDigit(s[0]) then IntDigits(s[1..], neg, acc * 10 + DigitValue(s[0]), count + 1)
    else if count > 0 && Blank(s) then Some(if neg then -(acc as int) else acc as int)
    else None
  }

  /**
   * `float(s)` on a string written as a decimal: whitespace, an optional
   * sign, digits with at most one '.', at least one digit, whitespace.
   */
  function ParseFloat(s: string): Option<real>
    decreases |s|
  {
    if s != [] && IsSpace(s[0]) then ParseFloat(s[1..])
    else if s != [] && (s[0] == '-' || s[0] == '+') then FloatDigits(s[1..], s[0] == '-', 0, 0, false, 0)
    else FloatDigits(s, false, 0, 0, false, 0)
  }

  /**
   * The digits of a decimal: their value so far in `mantissa`, `scale` of
   * them after the '.', `count` of them read.
   */
  function FloatDigits(s: string, neg: bool, mantissa: nat, scale: nat, dot: bool, count: nat): Option<real>
    decreases |s|
  {
    if s != [] && IsDigit(s[0]) then
      FloatDigits(s[1..], neg, mantissa * 10 + DigitValue(s[0]), if dot then scale + 1 else scale, dot, count + 1)
    else if s != [] && s[0] == '.' && !dot then FloatDigits(s[1..], neg, mantissa, scale, true, count)
    else if count > 0 && Blank(s) then
      var magnitude := mantissa as real / Pow10(scale) as real;
      Some(if neg then -magnitude else magnitude)
    else None
  }

  /** Python's `int(v)`: truncates floats toward zero; rejects None, lists and dicts. */
  function ToInt(v: Value): (r: Result<int>)
    ensures v.Int? ==> r == Ok(v.i)
    ensures v.Bool? ==> r == Ok(if v.b then 1 else 0)
    ensures v.Float? && v.f >= 0.0 ==> r.Ok? && r.value as real <= v.f < r.value as real + 1.0
    ensures v.Float? && v.f < 0.0 ==> r.Ok? && r.value as real - 1.0 < v.f <= r.value as real
    ensures v.Str? ==> (r.Ok? <==> ParseInt(v.s).Some?) && (r.Ok? ==> ParseInt(v.s) == Some(r.value))
    ensures r.Err? ==> (r.error == TypeError <==> !v.Str?) && (v.Str? ==> r.error.ValueError?)
    ensures r == Err(TypeError) <==> v.Null? || v.List? || v.Dict?
  {
    match v
    case Int(i) => Ok(i)
    case Bool(b) => Ok(if b then 1 else 0)
    case Float(f) => Ok(if f >= 0.0 then f.Floor else -((-f).Floor))
    case Str(s) => (match ParseInt(s) case Some(n) => Ok(n) case None => Err(ValueError("invalid literal for int()")))
    case _ => Err(TypeError)
  }

  /** Python's `float(v)`; rejects None, lists and dicts. */
  function ToFloat(v: Value): (r: Result<real>)
    ensures v.Int? ==> r == Ok(v.i as real)
    ensures v.Float? ==> r == Ok(v.f)
    ensures v.Bool? ==> r == Ok(if v.b then 1.0 else 0.0)
    ensures v.Str? ==> (r.Ok? <==> ParseFloat(v.s).Some?) && (r.Ok? ==> ParseFloat(v.s) == Some(r.value))
    ensures r.Err? ==> (r.error == TypeError <==> !v.Str?) && (v.Str? ==> r.error.ValueError?)
    ensures r == Err(TypeError) <==> v.Null? || v.List? || v.Dict?
  {
    match v
    case Int(i) => Ok(i as real)
    case Bool(b) => Ok(if b then 1.0 else 0.0)
    case Float(f) => Ok(f)
    case Str(s) => (match ParseFloat(s) case Some(x) => Ok(x) case None => Err(ValueError("could not convert string to float")))
    case _ => Err(TypeError)
  }

  /** `str(n)` for a natural number: its decimal digits, most significant first. */
  function Digits(n: nat): (r: string)
    ensures r != [] && IsDigit(r[0])
    decreases n
  {
    (if n < 10 then [] else Digits(n / 10)) + [('0' as int + n % 10) as char]
  }

  /** `str(n)` for an integer. */
  function Show(n: int): string
  {
    if n < 0 then "-" + Digits(-n) else Digits(n)
  }

  /** Reading the digits of `n` adds `n` to the value read so far, shifted by their count. */
  lemma {:induction false} IntDigitsOfDigits(n: nat, rest: string, neg: bool, acc: nat, count: nat)
    ensures IntDigits(Digits(n) + rest, neg, acc, count)
         == IntDigits(rest, neg, acc * Pow10(|Digits(n)|) + n, count + |Digits(n)|)
    decreases n, 1
  {
    if n < 10 {
      DigitStep(n, rest, neg, acc, count);
    } else {
      var p := Pow10(|Digits(n / 10)|);
      assert |Digits(n)| == |Digits(n / 10)| + 1 && Pow10(|Digits(n)|) == 10 * p;
      LeadingDigits(n, rest, neg, acc, count);
    }
  }

  /** The induction step: the digits of `n / 10`, then its last digit. */
  lemma {:induction false} LeadingDigits(n: nat, rest: string, neg: bool, acc: nat, count: nat)
    requires n >= 10
    ensures var h := Digits(n / 10);
      IntDigits(Digits(n) + rest, neg, acc, count)
        == IntDigits(rest, neg, acc * (10 * Pow10(|h|)) + n, count + |h| + 1)
    decreases n, 0
  {
    var d := [('0' as int + n % 10) as char];
    var h := Digits(n / 10);
    var p := Pow10(|h|);
    assert Digits(n) + rest == h + (d + rest);
    var a: nat := acc * p + n / 10;
    Shift(acc, p, n);
    IntDigitsOfDigits(n / 10, d + rest, neg, acc, count);
    DigitStep(n, rest, neg, a, count + |h|);
  }

  /** Reading the last digit of `n`. */
  lemma {:induction false} DigitStep(n: nat, rest: string, neg: bool, acc: nat, count: nat)
    ensures IntDigits([('0' as int + n % 10) as char] + rest, neg, acc, count)
         == IntDigits(rest, neg, acc * 10 + n % 10, count + 1)
  {
    var d := [('0' as int + n % 10) as char];
    assert (d + rest)[0] == d[0] && (d + rest)[1..] == rest;
  }

  lemma {:induction false} Shift(acc: nat, p: nat, n: nat)
    ensures (acc * p + n / 10) * 10 + n % 10 == acc * (10 * p) + n
  {
    assert (acc * p + n / 10) * 10 == acc * p * 10 + (n / 10) * 10;
  }

  /** `int(str(n)) == n`: a number written out as text reads back as itself. */
  lemma {:induction false} IntRoundTrip(n: int)
    ensures ToInt(Str(Show(n))) == Ok(n)
  {
    var m: nat := if n < 0 then -n else n;
    IntDigitsOfDigits(m, "", n < 0, 0, 0);
    assert Digits(m) + "" == Digits(m);
    if n < 0 {
      assert Show(n)[1..] == Digits(m);
    }
  }

  /** An integer literal that `int` accepts is read by `float` as the same number. */
  lemma {:induction false} FloatDigitsOfInt(s: string, neg: bool, acc: nat, count: nat)
    requires IntDigits(s, neg, acc, count).Some?
    ensures FloatDigits(s, neg, acc, 0, false, count) == Some(IntDigits(s, neg, acc, count).value as real)
    decreases |s|
  {
    if s != [] && IsDigit(s[0]) {
      FloatDigitsOfInt(s[1..], neg, acc * 10 + DigitValue(s[0]), count + 1);
    }
  }

  /** `float(s) == int(s)` on every text `int` accepts. */
  lemma {:induction false} FloatOfIntText(s: string)
    requires ParseInt(s).Some?
    ensures ParseFloat(s) == Some(ParseInt(s).value as real)
    decreases |s|
  {
    if s != [] && IsSpace(s[0]) {
      FloatOfIntText(s[1..]);
    } else if s != [] && (s[0] == '-' || s[0] == '+') {
      FloatDigitsOfInt(s[1..], s[0] == '-', 0, 0);
    } else {
      FloatDigitsOfInt(s, false, 0, 0);
    }
  }
}
