/**
 String helpers of Go's library that the modelled code relies on: strings.Split with a
 non-empty separator, and the decimal printing and parsing of signed integers.
 */
module Strings {
  import opened Wrappers

  /** sep occurs in s at position i */
  predicate OccursAt(s: string, sep: string, i: nat) {
    i + |sep| <= |s| && s[i..i + |sep|] == sep
  }

  predicate Contains(s: string, sep: string) {
    exists i: nat | i <= |s| :: OccursAt(s, sep, i)
  }

  /** The leftmost occurrence of sep at or after position i. */
  function IndexFrom(s: string, sep: string, i: nat): (r: Option<nat>)
    requires i <= |s|
    ensures r.Some? ==> i <= r.value && OccursAt(s, sep, r.value)
    ensures r.Some? ==> forall j: nat :: i <= j < r.value ==> !OccursAt(s, sep, j)
    ensures r.None? ==> forall j: nat :: i <= j <= |s| ==> !OccursAt(s, sep, j)
    decreases |s| - i
  {
    if OccursAt(s, sep, i) then Some(i)
    else if i == |s| then None
    else IndexFrom(s, sep, i + 1)
  }

  /** strings.Split: cut at every leftmost, non-overlapping occurrence of sep. */
  function Split(s: string, sep: string): (parts: seq<string>)
    requires sep != []
    ensures |parts| >= 1
    decreases |s|
  {
    match IndexFrom(s, sep, 0)
    case None => [s]
    case Some(i) => [s[..i]] + Split(s[i + |sep|..], sep)
  }

  lemma SplitWithout(s: string, sep: string)
    requires sep != [] && !Contains(s, sep)
    ensures Split(s, sep) == [s]
  {
  }

  /** Splitting yields one part exactly when the separator does not occur. */
  lemma SplitSingle(s: string, sep: string)
    requires sep != []
    ensures |Split(s, sep)| == 1 <==> !Contains(s, sep)
  {
    if Contains(s, sep) {
      var i: nat :| i <= |s| && OccursAt(s, sep, i);
      assert IndexFrom(s, sep, 0).Some?;
    }
  }

  lemma OccursChar(s: string, sep: string, i: nat, k: nat)
    requires OccursAt(s, sep, i) && k < |sep|
    ensures s[i + k] == sep[k]
  {
    assert s[i..i + |sep|][k] == s[i + k];
  }

  lemma NotOccurs(s: string, sep: string, i: nat, k: nat)
    requires k < |sep| && (i + k < |s| ==> s[i + k] != sep[k])
    ensures !OccursAt(s, sep, i)
  {
    if OccursAt(s, sep, i) { OccursChar(s, sep, i, k); }
  }

  lemma OccursWithin(s: string, t: string, sep: string, i: nat, j: nat)
    requires i + |sep| <= |s| && j + |sep| <= |t|
    requires s[i..i + |sep|] == t[j..j + |sep|]
    ensures OccursAt(s, sep, i) == OccursAt(t, sep, j)
  {
  }

  /** sep opens with a character found nowhere else in it, so it has no proper border. */
  ghost predicate Borderless(sep: string) {
    sep != [] && forall k | 0 < k < |sep| :: sep[k] != sep[0]
  }

  /** In a + sep + b, an occurrence of a borderless sep starts at the join or lies inside a,
      when b has no character that opens sep: none straddles the join. */
  lemma OccurrencesOfJoin(a: string, sep: string, b: string, i: nat)
    requires Borderless(sep) && sep[0] !in b
    ensures OccursAt(a + sep + b, sep, |a|)
    ensures i != |a| ==> OccursAt(a + sep + b, sep, i) == OccursAt(a, sep, i)
  {
    var s := a + sep + b;
    if i + |sep| <= |a| {
      OccursWithin(s, a, sep, i, i);
    } else if i < |a| {
      NotOccurs(s, sep, i, |a| - i);
    } else if |a| < i {
      NotOccurs(s, sep, i, 0);
    }
  }

  lemma SplitAt(s: string, sep: string, i: nat)
    requires sep != [] && IndexFrom(s, sep, 0) == Some(i)
    ensures Split(s, sep) == [s[..i]] + Split(s[i + |sep|..], sep)
  {
  }

  /** Splitting a + sep + b gives back [a, b] when a does not contain sep. */
  lemma SplitOfJoin(a: string, sep: string, b: string)
    requires Borderless(sep) && sep[0] !in b && !Contains(a, sep)
    ensures Split(a + sep + b, sep) == [a, b]
  {
    var s := a + sep + b;
    OccurrencesOfJoin(a, sep, b, 0);
    var first := IndexFrom(s, sep, 0).value;
    OccurrencesOfJoin(a, sep, b, first);
    assert first == |a|;
    SplitAt(s, sep, first);
    assert s[..first] == a && s[first + |sep|..] == b;
    if Contains(b, sep) {
      var i: nat :| i <= |b| && OccursAt(b, sep, i);
      OccursChar(b, sep, i, 0);
    }
    SplitWithout(b, sep);
  }

  /** It gives more than two parts when a contains sep. */
  lemma SplitOfLongJoin(a: string, sep: string, b: string)
    requires Borderless(sep) && sep[0] !in b && Contains(a, sep)
    ensures |Split(a + sep + b, sep)| > 2
  {
    hide Split;
    var s := a + sep + b;
    var i: nat :| i <= |a| && OccursAt(a, sep, i);
    OccurrencesOfJoin(a, sep, b, i);
    var first := IndexFrom(s, sep, 0).value;
    assert first <= i;
    OccurrencesOfJoin(a, sep, b, first);
    SplitAt(s, sep, first);
    var left := a[first + |sep|..];
    var rest := s[first + |sep|..];
    assert rest == left + sep + b;
    OccurrencesOfJoin(left, sep, b, 0);
    SplitSingle(rest, sep);
  }

  // ---- decimal numbers --------------------------------------------------------------

  predicate IsDigit(c: char) { '0' <= c <= '9' }

  function DigitChar(d: nat): (c: char)
    requires d < 10
    ensures IsDigit(c) && DigitValue(c) == d
  {
    '0' + d as char
  }

  function DigitValue(c: char): (d: nat)
    requires IsDigit(c)
    ensures d < 10
  {
    (c - '0') as nat
  }

  function PrintNat(n: nat): (s: string)
    ensures s != [] && forall c :: c in s ==> IsDigit(c)
  {
    if n < 10 then [DigitChar(n)] else PrintNat(n / 10) + [DigitChar(n % 10)]
  }

  function ParseNat(s: string): (r: Option<nat>)
  {
    if s == [] then None
    else if !IsDigit(s[|s| - 1]) then None
    else if |s| == 1 then Some(DigitValue(s[0]))
    else match ParseNat(s[..|s| - 1])
         case None => None
         case Some(n) => Some(10 * n + DigitValue(s[|s| - 1]))
  }

  lemma {:induction false} ParsePrintNat(n: nat)
    ensures ParseNat(PrintNat(n)) == Some(n)
  {
    if n >= 10 {
      ParsePrintNat(n / 10);
      var s := PrintNat(n);
      assert s[..|s| - 1] == PrintNat(n / 10);
      assert |s| > 1;
    }
  }

  /** fmt's %d verb */
  function PrintInt(i: int): (s: string)
    ensures s != [] && forall c :: c in s ==> IsDigit(c) || c == '-'
  {
    if i < 0 then "-" + PrintNat(-i) else PrintNat(i)
  }

  function Signed64(negative: bool, magnitude: Option<nat>): Option<int> {
    match magnitude
    case None => None
    case Some(n) =>
      var v: int := if negative then 0 - n else n;
      if -0x8000_0000_0000_0000 <= v < 0x8000_0000_0000_0000 then Some(v) else None
  }

  /** strconv.ParseInt(s, 10, 64): an optional sign, digits, and the 64-bit range. */
  function ParseInt64(s: string): Option<int> {
    if s == [] then None
    else if s[0] == '-' then Signed64(true, ParseNat(s[1..]))
    else if s[0] == '+' then Signed64(false, ParseNat(s[1..]))
    else Signed64(false, ParseNat(s))
  }

  lemma ParseInt64OfDigits(digits: string)
    requires digits != [] && forall c :: c in digits ==> IsDigit(c)
    ensures ParseInt64(digits) == Signed64(false, ParseNat(digits))
    ensures ParseInt64("-" + digits) == Signed64(true, ParseNat(digits))
    ensures ParseInt64("+" + digits) == Signed64(false, ParseNat(digits))
  {
    hide ParseNat, Signed64;
    assert digits[0] in digits;
    assert ("+" + digits)[1..] == digits;
    assert ("-" + digits)[1..] == digits;
  }

  lemma ParsePrintInt(i: int)
    requires -0x8000_0000_0000_0000 <= i < 0x8000_0000_0000_0000
    ensures ParseInt64(PrintInt(i)) == Some(i)
  {
    var n: nat := if i < 0 then -i else i;
    ParsePrintNat(n);
    ParseInt64OfDigits(PrintNat(n));
  }

  /** The digits of a number, the last one first. */
  lemma PrintDigits(n: nat, d: nat)
    requires d < 10
    ensures PrintNat(d) == ["0123456789"[d]]
    ensures n > 0 ==> PrintNat(10 * n + d) == PrintNat(n) + ["0123456789"[d]]
    ensures PrintInt(n) == PrintNat(n) && (n > 0 ==> PrintInt(0 - n) == "-" + PrintNat(n))
  {
    assert DigitChar(d) == "0123456789"[d];
    assert (10 * n + d) / 10 == n && (10 * n + d) % 10 == d;
  }

  lemma WithinRange(n: nat)
    ensures Signed64(false, Some(n)) == if n < 0x8000_0000_0000_0000 then Some(n) else None
    ensures var negative: int := 0 - n;
            Signed64(true, Some(n)) == if n <= 0x8000_0000_0000_0000 then Some(negative) else None
  {
  }

  /** What ParseInt accepts: digits under an optional sign, within 64 bits. */
  lemma ParsedInt(n: nat)
    ensures ParseInt64(PrintNat(n)) == if n < 0x8000_0000_0000_0000 then Some(n) else None
    ensures ParseInt64("+" + PrintNat(n)) == ParseInt64(PrintNat(n))
    ensures var negative: int := 0 - n;
            ParseInt64("-" + PrintNat(n)) == if n <= 0x8000_0000_0000_0000 then Some(negative) else None
  {
    hide *;
    ParsePrintNat(n);
    ParseInt64OfDigits(PrintNat(n));
    WithinRange(n);
  }
}
