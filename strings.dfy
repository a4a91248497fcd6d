/** String helpers shared by the model: decimal rendering of numbers (what
    JavaScript's `toString` gives for a non-negative integer), its inverse,
    `Array.prototype.join` and a splitter that undoes it. */
module Strings {

  predicate IsDigit(c: char) {
    '0' <= c <= '9'
  }

  predicate AllDigits(s: string) {
    forall i :: 0 <= i < |s| ==> IsDigit(s[i])
  }

  function DigitChar(d: nat): (c: char)
    requires d < 10
    ensures IsDigit(c) && c as int - '0' as int == d
  {
    ('0' as int + d) as char
  }

  /** Decimal form of `n`, most significant digit first, without leading zeros. */
  function NatToString(n: nat): (s: string)
    ensures 1 <= |s| && AllDigits(s)
    ensures s[0] == '0' <==> n == 0
    decreases n
  {
    if n < 10 then [DigitChar(n)] else NatToString(n / 10) + [DigitChar(n % 10)]
  }

  /** The number a string of decimal digits denotes. */
  function DigitsValue(s: string): nat
    requires AllDigits(s)
  {
    if s == [] then 0 else 10 * DigitsValue(s[..|s| - 1]) + (s[|s| - 1] as int - '0' as int)
  }

  function Pow10(k: nat): nat {
    if k == 0 then 1 else 10 * Pow10(k - 1)
  }

  /** Reading back the decimal form gives the number again. */
  lemma {:induction false} DigitsValueOfNatToString(n: nat)
    ensures DigitsValue(NatToString(n)) == n
  {
    if n >= 10 {
      var s := NatToString(n);
      assert s[..|s| - 1] == NatToString(n / 10);
      DigitsValueOfNatToString(n / 10);
    }
  }

  /** A leading zero does not change the value of a digit string. */
  lemma {:induction false} DigitsValueLeadingZero(s: string)
    requires AllDigits(s)
    ensures AllDigits("0" + s) && DigitsValue("0" + s) == DigitsValue(s)
  {
    var z := "0" + s;
    if s == [] {
      assert z[..|z| - 1] == [];
    } else {
      assert z[..|z| - 1] == "0" + s[..|s| - 1];
      DigitsValueLeadingZero(s[..|s| - 1]);
    }
  }

  /** A number with exactly `k` decimal digits renders as `k` characters. */
  lemma {:induction false} NatToStringLength(n: nat, k: nat)
    requires 1 <= k
    requires (if k == 1 then 0 else Pow10(k - 1)) <= n < Pow10(k)
    ensures |NatToString(n)| == k
  {
    if k > 1 {
      assert n >= 10 by {
        PowTenAtLeastTen(k - 1);
      }
      NatToStringLength(n / 10, k - 1);
    }
  }

  lemma {:induction false} PowTenAtLeastTen(k: nat)
    requires k >= 1
    ensures Pow10(k) >= 10
  {
    if k > 1 {
      PowTenAtLeastTen(k - 1);
    }
  }

  /** `parts.join(sep)`: the parts in order with `sep` between neighbours.
      No parts give the empty string and a single part adds no separator. */
  function Join(parts: seq<string>, sep: string): (r: string)
    ensures parts == [] ==> r == ""
    ensures |parts| == 1 ==> r == parts[0]
    ensures |parts| >= 1 ==> |r| >= |parts[0]| && r[..|parts[0]|] == parts[0]
  {
    if |parts| == 0 then ""
    else if |parts| == 1 then parts[0]
    else parts[0] + sep + Join(parts[1..], sep)
  }

  /** Index of the first occurrence of `sep` in `s`, or `|s|` when there is none. */
  function FindSep(s: string, sep: string): (i: nat)
    requires |sep| > 0
    ensures i <= |s|
    ensures i < |s| ==> i + |sep| <= |s| && s[i..i + |sep|] == sep
    decreases |s|
  {
    if |s| < |sep| then |s|
    else if s[..|sep|] == sep then 0
    else 1 + FindSep(s[1..], sep)
  }

  /** Cuts `s` at every occurrence of `sep`, left to right. */
  function Split(s: string, sep: string): (parts: seq<string>)
    requires |sep| > 0
    ensures |parts| >= 1
    decreases |s|
  {
    var i := FindSep(s, sep);
    if i == |s| then [s] else [s[..i]] + Split(s[i + |sep|..], sep)
  }

  /** A string without the separator's first character holds no separator. */
  lemma FindSepAbsent(a: string, sep: string)
    requires |sep| > 0 && sep[0] !in a
    ensures FindSep(a, sep) == |a|
  {
  }

  /** The first separator in `a + sep + b` is the one after `a`. */
  lemma {:induction false} FindSepAfter(a: string, sep: string, b: string)
    requires |sep| > 0 && sep[0] !in a
    ensures FindSep(a + sep + b, sep) == |a|
  {
    var s := a + sep + b;
    if a == [] {
      assert s[..|sep|] == sep;
    } else {
      assert s[..|sep|][0] == a[0];
      assert s[1..] == a[1..] + sep + b;
      FindSepAfter(a[1..], sep, b);
    }
  }

  /** Cutting `a + sep + rest` at its first separator gives `a` first. */
  lemma SplitStep(a: string, sep: string, rest: string)
    requires |sep| > 0 && sep[0] !in a
    ensures Split(a + sep + rest, sep) == [a] + Split(rest, sep)
  {
    var s := a + sep + rest;
    FindSepAfter(a, sep, rest);
    assert s[..|a|] == a;
    assert s[|a| + |sep|..] == rest;
  }

  /** Splitting undoes joining, as long as no part holds the separator's
      first character. */
  lemma {:induction false} SplitJoin(parts: seq<string>, sep: string)
    requires |sep| > 0 && |parts| >= 1
    requires forall k :: 0 <= k < |parts| ==> sep[0] !in parts[k]
    ensures Split(Join(parts, sep), sep) == parts
  {
    if |parts| == 1 {
      FindSepAbsent(parts[0], sep);
    } else {
      SplitStep(parts[0], sep, Join(parts[1..], sep));
      SplitJoin(parts[1..], sep);
      assert [parts[0]] + parts[1..] == parts;
    }
  }

  /** Appending a part to a non-empty list appends the separator and the part. */
  lemma {:induction false} JoinAppend(parts: seq<string>, part: string, sep: string)
    requires |parts| >= 1
    ensures Join(parts + [part], sep) == Join(parts, sep) + sep + part
  {
    if |parts| > 1 {
      assert (parts + [part])[1..] == parts[1..] + [part];
      JoinAppend(parts[1..], part, sep);
    }
  }
}
