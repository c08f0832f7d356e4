/**
 * The byte-string operations of PHP that the adapter relies on, over `string`
 * (one `char` per byte): `strtolower`/`ucfirst` (ASCII only: locale-independent
 * from PHP 8.2 on, and under the default C locale before that),
 * `explode` with and without a limit, `end`, `rtrim` with a character mask,
 * `substr($s, 0, n)`, `preg_replace('/[^A-Za-z]/', '', $s)`, `implode` and
 * the decimal rendering of a non-negative integer.
 */
module Text {
  import opened Wrappers

  predicate IsUpperAscii(c: char) { 'A' <= c <= 'Z' }
  predicate IsLowerAscii(c: char) { 'a' <= c <= 'z' }
  predicate IsAsciiLetter(c: char) { IsUpperAscii(c) || IsLowerAscii(c) }
  predicate IsDigit(c: char) { '0' <= c <= '9' }

  function LowerChar(c: char): char
  {
    if IsUpperAscii(c) then (c as int + 32) as char else c
  }

  function UpperChar(c: char): char
  {
    if IsLowerAscii(c) then (c as int - 32) as char else c
  }

  /** `strtolower`: every ASCII capital replaced by its small letter, nothing else touched. */
  function Lower(s: string): (r: string)
    ensures |r| == |s|
    ensures forall i :: 0 <= i < |s| ==> r[i] == LowerChar(s[i])
  {
    if s == [] then [] else [LowerChar(s[0])] + Lower(s[1..])
  }

  lemma LowerHasNoCapitals(s: string)
    ensures forall i :: 0 <= i < |s| ==> !IsUpperAscii(Lower(s)[i])
  {
  }

  /** Lower-casing twice is lower-casing once. */
  lemma LowerIdempotent(s: string)
    ensures Lower(Lower(s)) == Lower(s)
  {
    assert forall i :: 0 <= i < |s| ==> LowerChar(LowerChar(s[i])) == LowerChar(s[i]);
  }

  /** Lower-casing keeps dots where they are and makes no new ones. */
  lemma LowerKeepsDots(s: string)
    ensures forall i :: 0 <= i < |s| ==> (Lower(s)[i] == '.' <==> s[i] == '.')
  {
  }

  /** `ucfirst`: the first byte capitalised, the rest unchanged. */
  function UcFirst(s: string): (r: string)
    ensures |r| == |s|
    ensures |s| > 0 ==> r[0] == UpperChar(s[0]) && r[1..] == s[1..]
  {
    if s == [] then [] else [UpperChar(s[0])] + s[1..]
  }

  /** The position of the first `c` in `s`, if any. */
  function IndexOf(s: string, c: char): (r: Option<nat>)
    ensures r.None? <==> c !in s
    ensures r.Some? ==> r.value < |s| && s[r.value] == c && c !in s[..r.value]
  {
    if s == [] then None
    else if s[0] == c then Some(0)
    else match IndexOf(s[1..], c)
      case None => None
      case Some(i) =>
        assert s[..i + 1] == [s[0]] + s[1..][..i];
        Some(i + 1)
  }

  /** The position of the last `c` in `s`, if any. */
  function LastIndexOf(s: string, c: char): (r: Option<nat>)
    ensures r.None? <==> c !in s
    ensures r.Some? ==> r.value < |s| && s[r.value] == c && c !in s[r.value + 1..]
  {
    if s == [] then None
    else if s[|s| - 1] == c then Some(|s| - 1)
    else
      var r := LastIndexOf(s[..|s| - 1], c);
      assert r.Some? ==> s[r.value + 1..] == s[..|s| - 1][r.value + 1..] + [s[|s| - 1]];
      assert r.None? ==> s == s[..|s| - 1] + [s[|s| - 1]];
      r
  }

  /**
   * `explode(c, s, 2)`: one part when `s` holds no `c`, otherwise the text
   * before the first `c` and everything after it.
   */
  function SplitFirst(s: string, c: char): (parts: seq<string>)
    ensures 1 <= |parts| <= 2
    ensures |parts| == 1 <==> c !in s
    ensures |parts| == 1 ==> parts[0] == s
    ensures |parts| == 2 ==> c !in parts[0] && parts[0] + [c] + parts[1] == s
  {
    match IndexOf(s, c)
    case None => [s]
    case Some(i) =>
      assert s[..i] + [c] + s[i + 1..] == s;
      [s[..i], s[i + 1..]]
  }

  /** The split at the first `c` is the only way to write `s` as a `c`-free head, `c`, and a tail. */
  lemma SplitFirstUnique(s: string, c: char, head: string, tail: string)
    requires c !in head && head + [c] + tail == s
    ensures SplitFirst(s, c) == [head, tail]
  {
    var parts := SplitFirst(s, c);
    assert s[|head|] == c;
    assert |parts| == 2;
    var p0, p1 := parts[0], parts[1];
    assert |p0| == |head|;
    assert p0 == s[..|head|] == head;
    assert p1 == s[|head| + 1..] == tail;
  }

  /** `end(explode(c, s))`: the text after the last `c`, or all of `s` when it holds none. */
  function LastPart(s: string, c: char): (r: string)
    ensures c !in r
    ensures c !in s ==> r == s
    ensures c in s ==> |r| < |s| && s[|s| - |r| - 1] == c && s[|s| - |r|..] == r
  {
    match LastIndexOf(s, c)
    case None => s
    case Some(i) => s[i + 1..]
  }

  /** The text after a `c` that is followed by no other `c` is the last part. */
  lemma LastPartOfSuffix(s: string, c: char, tail: string)
    requires c !in tail
    ensures LastPart(s + [c] + tail, c) == tail
  {
    var whole := s + [c] + tail;
    assert whole[|s|] == c;
    assert whole[|s| + 1..] == tail;
  }

  /** Lower-casing works piecewise. */
  lemma LowerAppend(a: string, b: string)
    ensures Lower(a + b) == Lower(a) + Lower(b)
  {
    assert forall i :: 0 <= i < |a + b| ==> Lower(a + b)[i] == (Lower(a) + Lower(b))[i];
  }

  /** A string without capitals is its own lower-case form. */
  lemma LowerOfLower(s: string)
    requires forall i :: 0 <= i < |s| ==> !IsUpperAscii(s[i])
    ensures Lower(s) == s
  {
  }

  /** Capitalising the first small letter and lower-casing again gives the string back. */
  lemma LowerUcFirst(s: string)
    requires forall i :: 0 <= i < |s| ==> !IsUpperAscii(s[i])
    ensures Lower(UcFirst(s)) == s
  {
    if s != [] {
      assert Lower(UcFirst(s))[0] == LowerChar(UpperChar(s[0])) == s[0];
      assert forall i :: 1 <= i < |s| ==> Lower(UcFirst(s))[i] == s[i];
    }
  }

  /** `substr(s, 0, n)` for `n >= 0`. */
  function Take(s: string, n: nat): (r: string)
    ensures |r| == if |s| <= n then |s| else n
    ensures r == s[..|r|]
  {
    if |s| <= n then s else s[..n]
  }

  /** `preg_replace('/[^A-Za-z]/', '', s)`: the ASCII letters of `s`, in order. */
  function KeepLetters(s: string): (r: string)
    ensures |r| <= |s|
    ensures forall i :: 0 <= i < |r| ==> IsAsciiLetter(r[i])
    ensures forall i :: 0 <= i < |s| && IsAsciiLetter(s[i]) ==> s[i] in r
  {
    if s == [] then []
    else if IsAsciiLetter(s[0]) then [s[0]] + KeepLetters(s[1..])
    else KeepLetters(s[1..])
  }

  /** A string made only of letters is left as it is. */
  lemma {:induction false} KeepLettersOfLetters(s: string)
    requires forall i :: 0 <= i < |s| ==> IsAsciiLetter(s[i])
    ensures KeepLetters(s) == s
  {
    if s != [] {
      KeepLettersOfLetters(s[1..]);
    }
  }

  /** Filtering a concatenation filters each part, keeping their order. */
  lemma {:induction false} KeepLettersAppend(a: string, b: string)
    ensures KeepLetters(a + b) == KeepLetters(a) + KeepLetters(b)
  {
    if a == [] {
      assert a + b == b;
    } else {
      assert (a + b)[0] == a[0];
      assert (a + b)[1..] == a[1..] + b;
      KeepLettersAppend(a[1..], b);
    }
  }

  /** A single character is kept exactly when it is a letter. */
  lemma KeepLettersOne(c: char)
    ensures KeepLetters([c]) == if IsAsciiLetter(c) then [c] else []
  {
    assert [c][1..] == [];
  }

  /** `rtrim(s, mask)`: `s` without its longest suffix made of characters of `mask`. */
  function RTrim(s: string, mask: set<char>): (r: string)
    ensures |r| <= |s| && r == s[..|r|]
    ensures forall i :: |r| <= i < |s| ==> s[i] in mask
    ensures r == [] || r[|r| - 1] !in mask
  {
    if s == [] || s[|s| - 1] !in mask then s else RTrim(s[..|s| - 1], mask)
  }

  /** Trimming a string whose last character is kept, after appending only mask characters. */
  lemma {:induction false} RTrimAppended(s: string, tail: string, mask: set<char>)
    requires s != [] && s[|s| - 1] !in mask
    requires forall i :: 0 <= i < |tail| ==> tail[i] in mask
    ensures RTrim(s + tail, mask) == s
  {
    if tail != [] {
      var t := tail[..|tail| - 1];
      assert (s + tail)[..|s + tail| - 1] == s + t;
      RTrimAppended(s, t, mask);
    } else {
      assert s + tail == s;
    }
  }

  /** Trimming a string made only of mask characters leaves nothing. */
  lemma {:induction false} RTrimAllMask(s: string, mask: set<char>)
    requires forall i :: 0 <= i < |s| ==> s[i] in mask
    ensures RTrim(s, mask) == []
  {
    if s != [] {
      RTrimAllMask(s[..|s| - 1], mask);
    }
  }

  /** `implode(sep, xs)`. */
  function Join(xs: seq<string>, sep: string): string
  {
    if xs == [] then "" else if |xs| == 1 then xs[0] else Join(xs[..|xs| - 1], sep) + sep + xs[|xs| - 1]
  }

  function DigitChar(d: nat): (c: char)
    requires d < 10
    ensures IsDigit(c)
  {
    ('0' as int + d) as char
  }

  /** The decimal rendering of `n`, as PHP turns an integer into a string. */
  function NatToString(n: nat): (r: string)
    ensures 1 <= |r|
    ensures forall i :: 0 <= i < |r| ==> IsDigit(r[i])
    decreases n
  {
    if n < 10 then [DigitChar(n)] else NatToString(n / 10) + [DigitChar(n % 10)]
  }

  /** The last character is the last digit, and only a single digit renders as one character. */
  lemma NatToStringLast(n: nat)
    ensures var r := NatToString(n); r[|r| - 1] == DigitChar(n % 10) && (n < 10 <==> |r| == 1)
  {
  }

  /** Distinct numbers never render alike: keys built from them never collide. */
  lemma {:induction false} NatToStringInjective(a: nat, b: nat)
    requires NatToString(a) == NatToString(b)
    ensures a == b
    decreases a
  {
    var s := NatToString(a);
    NatToStringLast(a);
    NatToStringLast(b);
    assert DigitChar(a % 10) == DigitChar(b % 10);
    assert a % 10 == b % 10;
    if a >= 10 {
      assert b >= 10;
      assert NatToString(a / 10) == s[..|s| - 1] == NatToString(b / 10);
      NatToStringInjective(a / 10, b / 10);
    }
  }

  /** Numbers from 1000 to 9999 render as exactly four digits. */
  lemma FourDigits(n: nat)
    requires 1000 <= n <= 9999
    ensures |NatToString(n)| == 4
  {
    var a, b, c := n / 10, n / 10 / 10, n / 10 / 10 / 10;
    assert 100 <= a <= 999 && 10 <= b <= 99 && 1 <= c <= 9;
    assert |NatToString(c)| == 1;
    assert |NatToString(b)| == 2;
    assert |NatToString(a)| == 3;
  }
}
