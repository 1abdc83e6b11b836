/** Text building blocks of the digest: the decimal rendering Python's
    f-strings apply to integers, and the concatenation of a list of parts
    in order, with where each part lands. */
module Text {

  predicate IsDigit(c: char)
  {
    '0' <= c <= '9'
  }

  predicate AllDigits(s: string)
  {
    forall k :: 0 <= k < |s| ==> IsDigit(s[k])
  }

  function DigitChar(d: nat): (c: char)
    requires d < 10
    ensures IsDigit(c) && (c as int) - ('0' as int) == d
  {
    (('0' as int) + d) as char
  }

  /** `str(n)` for a non-negative Python int: decimal digits, no leading zero. */
  function Decimal(n: nat): (r: string)
    ensures |r| >= 1 && AllDigits(r)
    ensures r[0] == '0' <==> n == 0
    decreases n
  {
    if n < 10 then [DigitChar(n)] else Decimal(n / 10) + [DigitChar(n % 10)]
  }

  /** The value of a string of decimal digits; the inverse of Decimal. */
  function ParseDecimal(s: string): nat
    requires AllDigits(s)
  {
    if s == [] then 0
    else ParseDecimal(s[..|s| - 1]) * 10 + ((s[|s| - 1] as int) - ('0' as int))
  }

  /** Reading back what Decimal wrote gives the number again. */
  lemma {:induction false} ParseDecimalOfDecimal(n: nat)
    ensures ParseDecimal(Decimal(n)) == n
    decreases n
  {
    var r := Decimal(n);
    if n >= 10 {
      ParseDecimalOfDecimal(n / 10);
      assert r[..|r| - 1] == Decimal(n / 10);
    }
  }

  /** Distinct numbers render as distinct strings, so article ordinals never collide. */
  lemma DecimalInjective(m: nat, n: nat)
    requires Decimal(m) == Decimal(n)
    ensures m == n
  {
    ParseDecimalOfDecimal(m);
    ParseDecimalOfDecimal(n);
  }

  /** `n` copies of `c`. */
  function Repeat(c: char, n: nat): string
  {
    seq(n, i => c)
  }

  predicate IsPrefix(a: string, b: string)
  {
    |a| <= |b| && b[..|a|] == a
  }

  lemma PrefixOfAppend(a: string, b: string, c: string)
    requires IsPrefix(a, b)
    ensures IsPrefix(a, b + c)
  {
    assert (b + c)[..|a|] == b[..|a|];
  }

  lemma PrefixBehind(h: string, a: string, b: string)
    requires IsPrefix(a, b)
    ensures IsPrefix(h + a, h + b)
  {
    assert (h + b)[..|h + a|] == h + b[..|a|];
  }

  /** The parts written one after another, first to last. */
  function Concat(parts: seq<string>): string
  {
    if parts == [] then "" else Concat(parts[..|parts| - 1]) + parts[|parts| - 1]
  }

  lemma ConcatSnoc(parts: seq<string>, i: nat)
    requires i < |parts|
    ensures Concat(parts[..i + 1]) == Concat(parts[..i]) + parts[i]
  {
    assert parts[..i + 1][..i] == parts[..i];
  }

  lemma ConcatOfTwo(parts: seq<string>)
    requires |parts| == 2
    ensures Concat(parts) == parts[0] + parts[1]
  {
    assert parts[..1] == [parts[0]];
    assert parts[..1][..0] == [];
    assert Concat(parts[..1]) == "" + parts[0];
    assert "" + parts[0] == parts[0];
  }

  /** Writing more parts never rewrites what was written for the earlier ones. */
  lemma {:induction false} ConcatGrows(parts: seq<string>, m: nat)
    requires m <= |parts|
    ensures IsPrefix(Concat(parts[..m]), Concat(parts))
    decreases |parts| - m
  {
    if m < |parts| {
      var init := parts[..|parts| - 1];
      ConcatGrows(init, m);
      assert init[..m] == parts[..m];
      PrefixOfAppend(Concat(parts[..m]), Concat(init), parts[|parts| - 1]);
    } else {
      assert parts[..m] == parts;
    }
  }

  /** Part `i` sits in the concatenation right after the parts before it. */
  lemma ConcatSlot(parts: seq<string>, i: nat)
    requires i < |parts|
    ensures var start := |Concat(parts[..i])|;
      && start + |parts[i]| <= |Concat(parts)|
      && Concat(parts)[start..start + |parts[i]|] == parts[i]
  {
    ConcatSnoc(parts, i);
    ConcatGrows(parts, i + 1);
    var before, all := Concat(parts[..i]), Concat(parts);
    assert all[|before|..|before| + |parts[i]|] == (before + parts[i])[|before|..];
  }

  /** The same, behind a fixed opening `h`. */
  lemma ConcatSlotAfter(h: string, parts: seq<string>, i: nat)
    requires i < |parts|
    ensures var start := |h| + |Concat(parts[..i])|;
      && start + |parts[i]| <= |h + Concat(parts)|
      && (h + Concat(parts))[start..start + |parts[i]|] == parts[i]
  {
    ConcatSlot(parts, i);
    var start := |Concat(parts[..i])|;
    assert (h + Concat(parts))[|h| + start..|h| + start + |parts[i]|] == Concat(parts)[start..start + |parts[i]|];
  }
}
