/** The string operations the pipeline relies on: ASCII lower-casing, the
    substring test of Python's `in`, `str.join` and the decimal text of an
    integer that `str(n)` and f-strings produce. */
module Text {

  /** Lower-cases an ASCII capital letter and leaves every other character alone. */
  function LowerChar(c: char): char
  {
    if 'A' <= c <= 'Z' then (c as int + 32) as char else c
  }

  /** `s.lower()`, restricted to ASCII letters. */
  function Lower(s: string): string
  {
    seq(|s|, i requires 0 <= i < |s| => LowerChar(s[i]))
  }

  predicate IsLowerCase(s: string)
  {
    forall i :: 0 <= i < |s| ==> !('A' <= s[i] <= 'Z')
  }

  /** The result of lower-casing has no capital letter, and lower-casing it again changes nothing. */
  lemma LowerIsLowerCase(s: string)
    ensures IsLowerCase(Lower(s))
    ensures Lower(Lower(s)) == Lower(s)
    ensures |Lower(s)| == |s|
  {
    var l := Lower(s);
    forall i | 0 <= i < |s| ensures Lower(l)[i] == l[i] && !('A' <= l[i] <= 'Z') {
      assert l[i] == LowerChar(s[i]);
    }
  }

  /** Two strings that differ only in the case of ASCII letters lower-case to the same string. */
  lemma LowerIgnoresCase(s: string, t: string)
    requires |s| == |t|
    requires forall i :: 0 <= i < |s| ==> LowerChar(s[i]) == LowerChar(t[i])
    ensures Lower(s) == Lower(t)
  {
  }

  /** Python's `t in s` for strings: `t` occurs in `s` as a contiguous substring. */
  function Contains(s: string, t: string): (r: bool)
    ensures r ==> |t| <= |s|
    decreases |s|
  {
    t <= s || (|s| > 0 && Contains(s[1..], t))
  }

  /** `t` sits in `s` at position `i`. */
  predicate OccursAt(s: string, t: string, i: int)
  {
    0 <= i <= |s| - |t| && s[i..i + |t|] == t
  }

  /** Whatever `Contains` finds sits at some position of `s`. */
  lemma {:induction false} ContainsHasPosition(s: string, t: string)
    requires Contains(s, t)
    ensures exists i :: OccursAt(s, t, i)
    decreases |s|
  {
    if t <= s {
      assert OccursAt(s, t, 0);
    } else {
      ContainsHasPosition(s[1..], t);
      var i :| OccursAt(s[1..], t, i);
      assert s[i + 1..i + 1 + |t|] == s[1..][i..i + |t|];
      assert OccursAt(s, t, i + 1);
    }
  }

  /** `Contains` finds `t` wherever it sits in `s`. */
  lemma {:induction false} PositionIsContained(s: string, t: string, i: int)
    requires OccursAt(s, t, i)
    ensures Contains(s, t)
    decreases i
  {
    if i > 0 {
      var rest := s[1..];
      assert OccursAt(rest, t, i - 1) by {
        var a, b := rest[i - 1..i - 1 + |t|], s[i..i + |t|];
        assert forall k :: 0 <= k < |a| ==> a[k] == b[k];
      }
      PositionIsContained(rest, t, i - 1);
    } else {
      assert s[..|t|] == t;
    }
  }

  /** `Contains` holds exactly when `t` can be found at some position of `s`. */
  lemma ContainsIffOccurs(s: string, t: string)
    ensures Contains(s, t) <==> exists i :: OccursAt(s, t, i)
  {
    if Contains(s, t) {
      ContainsHasPosition(s, t);
    }
    if i :| OccursAt(s, t, i) {
      PositionIsContained(s, t, i);
    }
  }

  /** A string contains every one of its slices. */
  lemma ContainsSlice(s: string, i: nat, j: nat)
    requires i <= j <= |s|
    ensures Contains(s, s[i..j])
  {
    PositionIsContained(s, s[i..j], i);
  }

  /** `t` is not found in `s` when one of its characters never occurs in `s`. */
  lemma AbsentCharExcludes(s: string, t: string, j: nat)
    requires j < |t| && t[j] !in s
    ensures !Contains(s, t)
  {
    ContainsIffOccurs(s, t);
  }

  /** `t` is not found in `s` when its first character occurs in no position where `t` could start. */
  lemma AbsentStartExcludes(s: string, t: string)
    requires 0 < |t| <= |s| && t[0] !in s[..|s| - |t| + 1]
    ensures !Contains(s, t)
  {
    ContainsIffOccurs(s, t);
  }

  /** `sep.join(parts)`. */
  function Join(sep: string, parts: seq<string>): (r: string)
    ensures |parts| > 0 ==> parts[0] <= r
  {
    if |parts| == 0 then ""
    else if |parts| == 1 then parts[0]
    else parts[0] + sep + Join(sep, parts[1..])
  }

  /** Joining one more part appends the separator and the part, except after nothing. */
  lemma {:induction false} JoinSnoc(sep: string, parts: seq<string>, p: string)
    ensures Join(sep, parts + [p]) == if parts == [] then p else Join(sep, parts) + sep + p
  {
    if |parts| == 0 {
    } else if |parts| == 1 {
      assert (parts + [p])[1..] == [p];
    } else {
      assert (parts + [p])[1..] == parts[1..] + [p];
      JoinSnoc(sep, parts[1..], p);
    }
  }

  function DigitChar(d: nat): char
    requires d < 10
  {
    ('0' as int + d) as char
  }

  function DigitValue(c: char): nat
  {
    if '0' <= c <= '9' then c as int - '0' as int else 0
  }

  predicate IsDigits(s: string)
  {
    forall i :: 0 <= i < |s| ==> '0' <= s[i] <= '9'
  }

  /** `str(n)` for a natural number: its decimal digits, most significant first, no leading zero. */
  function NatToDecimal(n: nat): (r: string)
    ensures |r| > 0 && IsDigits(r)
    ensures r[0] == '0' ==> n == 0
  {
    if n < 10 then [DigitChar(n)] else NatToDecimal(n / 10) + [DigitChar(n % 10)]
  }

  /** `str(i)` for any integer: a minus sign before the digits of a negative number. */
  function IntToDecimal(i: int): (r: string)
    ensures |r| > 0
    ensures r[0] == '-' <==> i < 0
  {
    if i < 0 then "-" + NatToDecimal(-i) else NatToDecimal(i)
  }

  /** Reads a string of decimal digits back as a number. */
  function ParseNat(s: string): nat
  {
    if |s| == 0 then 0 else ParseNat(s[..|s| - 1]) * 10 + DigitValue(s[|s| - 1])
  }

  /** Reading the decimal text of a natural number gives the number back. */
  lemma {:induction false} ParseNatToDecimal(n: nat)
    ensures ParseNat(NatToDecimal(n)) == n
  {
    var r := NatToDecimal(n);
    if n >= 10 {
      ParseNatToDecimal(n / 10);
      assert r[..|r| - 1] == NatToDecimal(n / 10);
    }
  }

  /** Distinct integers have distinct decimal texts. */
  lemma IntToDecimalInjective(i: int, j: int)
    requires IntToDecimal(i) == IntToDecimal(j)
    ensures i == j
  {
    var r := IntToDecimal(i);
    if i < 0 && j < 0 {
      assert r[1..] == NatToDecimal(-i) == NatToDecimal(-j);
      NatToDecimalInjective(-i, -j);
    } else if i >= 0 && j >= 0 {
      NatToDecimalInjective(i, j);
    }
  }

  /** Distinct natural numbers have distinct decimal texts. */
  lemma NatToDecimalInjective(m: nat, n: nat)
    requires NatToDecimal(m) == NatToDecimal(n)
    ensures m == n
  {
    ParseNatToDecimal(m);
    ParseNatToDecimal(n);
  }
}
