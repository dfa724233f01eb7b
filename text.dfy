/**
 * The string operations the pages use, restricted to ASCII: `toLowerCase`,
 * `includes`, `trim`, decimal rendering of a non-negative integer,
 * `padStart(2, '0')` and `split(' ')[0]`. Strings are `seq<char>`.
 */
module Text {

  predicate IsUpper(c: char) { 'A' <= c <= 'Z' }

  /** The ASCII lower-case form of `c`; every other character is kept. */
  function LowerChar(c: char): (r: char)
    ensures !IsUpper(r)
    ensures !IsUpper(c) ==> r == c
    ensures IsUpper(c) ==> r as int == c as int + 32
  {
    if IsUpper(c) then (c as int + 32) as char else c
  }

  /** The ASCII upper-case form of `c`; every other character is kept. */
  function UpperChar(c: char): (r: char)
    ensures !('a' <= r <= 'z')
    ensures !('a' <= c <= 'z') ==> r == c
    ensures 'a' <= c <= 'z' ==> r as int == c as int - 32
  {
    if 'a' <= c <= 'z' then (c as int - 32) as char else c
  }

  /** `toLowerCase` over ASCII. */
  function ToLower(s: string): (r: string)
    ensures |r| == |s|
    ensures forall i :: 0 <= i < |s| ==> r[i] == LowerChar(s[i])
  {
    if s == [] then [] else [LowerChar(s[0])] + ToLower(s[1..])
  }

  lemma {:induction false} ToLowerIdempotent(s: string)
    ensures ToLower(ToLower(s)) == ToLower(s)
  {
    var t := ToLower(s);
    assert forall i :: 0 <= i < |t| ==> ToLower(t)[i] == t[i];
  }

  /** `s.includes(q)`: `q` occurs in `s` as a contiguous block; the empty string occurs in every string. */
  function Includes(s: string, q: string): (b: bool)
    ensures b ==> |q| <= |s|
    ensures q == [] ==> b
    decreases |s|
  {
    q <= s || (s != [] && Includes(s[1..], q))
  }

  /** Every string includes itself. */
  lemma IncludesItself(s: string)
    ensures Includes(s, s)
  {
  }

  /** `q` occurs in `s` starting at position `i`. */
  predicate OccursAt(s: string, q: string, i: nat)
  {
    i + |q| <= |s| && s[i..i + |q|] == q
  }

  /** `q` occurs in `s` at some position. */
  ghost predicate Found(s: string, q: string)
  {
    exists i: nat :: OccursAt(s, q, i)
  }

  /** An occurrence in the tail of `s` is an occurrence in `s`, one place further on. */
  lemma OccursInTail(s: string, q: string, i: nat)
    requires s != [] && OccursAt(s[1..], q, i)
    ensures OccursAt(s, q, i + 1)
  {
    assert s[1..][i..i + |q|] == s[i + 1..i + 1 + |q|];
  }

  /** An occurrence in `s` after position 0 is an occurrence in its tail. */
  lemma OccursPastHead(s: string, q: string, i: nat)
    requires OccursAt(s, q, i) && i != 0
    ensures OccursAt(s[1..], q, i - 1)
  {
    assert s[1..][i - 1..i - 1 + |q|] == s[i..i + |q|];
  }

  /** `Includes` is exactly "there is a position at which `q` occurs". */
  lemma {:induction false} IncludesIff(s: string, q: string)
    ensures Includes(s, q) <==> Found(s, q)
  {
    if q <= s {
      assert OccursAt(s, q, 0);
    } else if s != [] {
      IncludesIff(s[1..], q);
      if Found(s, q) {
        var i: nat :| OccursAt(s, q, i);
        OccursPastHead(s, q, i);
      }
      if Found(s[1..], q) {
        var i: nat :| OccursAt(s[1..], q, i);
        OccursInTail(s, q, i);
      }
    }
  }

  /** The whitespace `trim` removes, restricted to ASCII. */
  predicate IsSpace(c: char)
  {
    c == ' ' || c == '\t' || c == '\n' || c == '\r' || c == '\U{B}' || c == '\U{C}'
  }

  function TrimStart(s: string): (r: string)
    ensures |r| <= |s| && r == s[|s| - |r|..]
    ensures forall i :: 0 <= i < |s| - |r| ==> IsSpace(s[i])
    ensures r == [] || !IsSpace(r[0])
  {
    if s != [] && IsSpace(s[0]) then TrimStart(s[1..]) else s
  }

  function TrimEnd(s: string): (r: string)
    ensures r <= s
    ensures forall i :: |r| <= i < |s| ==> IsSpace(s[i])
    ensures r == [] || !IsSpace(r[|r| - 1])
  {
    if s != [] && IsSpace(s[|s| - 1]) then TrimEnd(s[..|s| - 1]) else s
  }

  /** `trim`: `s` without its leading and trailing whitespace. */
  function Trim(s: string): (r: string)
    ensures r == [] || (!IsSpace(r[0]) && !IsSpace(r[|r| - 1]))
  {
    var t := TrimStart(s);
    var r := TrimEnd(t);
    assert r != [] ==> r[0] == t[0];
    r
  }

  /** Where the trimmed text starts: the number of leading whitespace characters. */
  function TrimOffset(s: string): (i: nat)
    ensures i <= |s| && TrimStart(s) == s[i..]
  {
    |s| - |TrimStart(s)|
  }

  /**
   * What `Trim` returns: the block of `s` that starts at the first
   * non-whitespace character and ends at the last one; only whitespace
   * lies before and after it.
   */
  lemma TrimIsSlice(s: string)
    ensures TrimOffset(s) + |Trim(s)| <= |s|
    ensures Trim(s) == s[TrimOffset(s)..TrimOffset(s) + |Trim(s)|]
    ensures forall k :: 0 <= k < TrimOffset(s) ==> IsSpace(s[k])
    ensures forall k :: TrimOffset(s) + |Trim(s)| <= k < |s| ==> IsSpace(s[k])
  {
    var t := TrimStart(s);
    var r := TrimEnd(t);
    var i := TrimOffset(s);
    assert Trim(s) == r;
    SliceOfSuffix(s, i, r);
  }

  /** A prefix `r` of `s[i..]` is the block of `s` from `i`, and what follows it in `s[i..]` follows it in `s`. */
  lemma SliceOfSuffix(s: string, i: nat, r: string)
    requires i <= |s| && r <= s[i..]
    ensures i + |r| <= |s| && r == s[i..i + |r|]
    ensures forall k :: |r| <= k < |s| - i ==> s[i..][k] == s[i + k]
  {
    assert r == s[i..][..|r|];
  }

  /** The trimmed text is empty exactly when `s` is all whitespace. */
  lemma TrimEmptyIff(s: string)
    ensures Trim(s) == [] <==> forall k :: 0 <= k < |s| ==> IsSpace(s[k])
  {
    TrimIsSlice(s);
    if Trim(s) != [] {
      assert Trim(s)[0] == s[TrimOffset(s)];
    }
  }

  lemma TrimIdempotent(s: string)
    ensures Trim(Trim(s)) == Trim(s)
  {
    var t := Trim(s);
    TrimIsSlice(s);
    assert TrimStart(t) == t;
  }

  predicate IsDigit(c: char) { '0' <= c <= '9' }

  function DigitChar(d: nat): (c: char)
    requires d < 10
    ensures IsDigit(c) && c as int - '0' as int == d
  {
    ('0' as int + d) as char
  }

  /** The decimal rendering of `n` that JavaScript's string conversion gives. */
  function NatToString(n: nat): (r: string)
    ensures |r| >= 1
    ensures forall i :: 0 <= i < |r| ==> IsDigit(r[i])
    ensures n >= 10 ==> r[0] != '0'
    ensures n < 10 <==> |r| == 1
  {
    if n < 10 then [DigitChar(n)] else NatToString(n / 10) + [DigitChar(n % 10)]
  }

  /** The number a string of decimal digits denotes: the inverse of `NatToString`. */
  function DigitsValue(s: string): (v: int)
    requires forall i :: 0 <= i < |s| ==> IsDigit(s[i])
    ensures v >= 0
  {
    if s == [] then 0
    else
      assert IsDigit(s[|s| - 1]);
      10 * DigitsValue(s[..|s| - 1]) + (s[|s| - 1] as int - '0' as int)
  }

  lemma {:induction false} NatToStringRoundTrip(n: nat)
    ensures DigitsValue(NatToString(n)) == n
  {
    if n >= 10 {
      NatToStringRoundTrip(n / 10);
      var r := NatToString(n);
      assert r[..|r| - 1] == NatToString(n / 10);
    }
  }

  /** `padStart(2, '0')`. */
  function PadTwo(s: string): (r: string)
    ensures |s| >= 2 ==> r == s
    ensures |s| < 2 ==> |r| == 2 && r[2 - |s|..] == s && forall i :: 0 <= i < 2 - |s| ==> r[i] == '0'
    decreases 2 - |s|
  {
    if |s| >= 2 then s else PadTwo(['0'] + s)
  }

  /** Leading zeros do not change the value of a digit string. */
  lemma {:induction false} LeadingZeroValue(s: string)
    requires forall i :: 0 <= i < |s| ==> IsDigit(s[i])
    ensures DigitsValue(['0'] + s) == DigitsValue(s)
  {
    if s != [] {
      var t := ['0'] + s;
      assert t[..|t| - 1] == ['0'] + s[..|s| - 1];
      LeadingZeroValue(s[..|s| - 1]);
    }
  }

  /** `s.split(' ')[0]`: the text before the first space, or all of `s` when there is none. */
  function FirstWord(s: string): (r: string)
    ensures r <= s
    ensures ' ' !in r
    ensures |r| == |s| || s[|r|] == ' '
  {
    if s == [] || s[0] == ' ' then [] else [s[0]] + FirstWord(s[1..])
  }
}
