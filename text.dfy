/**
 * The few pieces of Python string behaviour the scripts rely on: str.strip(),
 * str.split() with and without a separator, sep.join(), str() of an int and
 * int() of a string.
 */
module Text {
  import opened Wrappers

  /** Python's str.isspace() for a single character. */
  predicate IsSpace(c: char) {
    || c == ' ' || ('\t' <= c <= '\r') || ('\U{1c}' <= c <= '\U{1f}')
    || c == '\U{85}' || c == '\U{a0}' || c == '\U{1680}' || ('\U{2000}' <= c <= '\U{200a}')
    || c == '\U{2028}' || c == '\U{2029}' || c == '\U{202f}' || c == '\U{205f}' || c == '\U{3000}'
  }

  /** The printable ASCII characters other than the blank are not whitespace. */
  lemma {:induction false} GraphicNotSpace(c: char)
    requires '!' <= c <= '~'
    ensures !IsSpace(c)
  {
  }

  predicate NoSpace(s: string) {
    forall i :: 0 <= i < |s| ==> !IsSpace(s[i])
  }

  /** A non-empty run of non-whitespace, as str.split() produces. */
  predicate IsWord(x: string) {
    x != [] && NoSpace(x)
  }

  predicate AllSpace(s: string) {
    forall i :: 0 <= i < |s| ==> IsSpace(s[i])
  }

  predicate StartsWith(s: string, prefix: string) {
    prefix <= s
  }

  predicate EndsWith(s: string, suffix: string) {
    |suffix| <= |s| && s[|s| - |suffix|..] == suffix
  }

  lemma {:induction false} SuffixOfAppend(s: string, suffix: string)
    ensures EndsWith(s + suffix, suffix)
  {
    assert (s + suffix)[|s|..] == suffix;
  }

  /** The first index at or after i that holds no whitespace, or |s|. */
  function SpaceEnd(s: string, i: nat): (k: nat)
    requires i <= |s|
    ensures i <= k <= |s|
    ensures k < |s| ==> !IsSpace(s[k])
    decreases |s| - i
  {
    if i < |s| && IsSpace(s[i]) then SpaceEnd(s, i + 1) else i
  }

  /** SpaceEnd passes over whitespace only. */
  lemma {:induction false} SpaceEndSkipsSpace(s: string, i: nat)
    requires i <= |s|
    ensures forall j :: i <= j < SpaceEnd(s, i) ==> IsSpace(s[j])
    decreases |s| - i
  {
    if i < |s| && IsSpace(s[i]) {
      SpaceEndSkipsSpace(s, i + 1);
    }
  }

  /** The start of the run of whitespace that ends at j, not going below lo. */
  function SpaceStart(s: string, lo: nat, j: nat): (k: nat)
    requires lo <= j <= |s|
    ensures lo <= k <= j
    ensures k > lo ==> !IsSpace(s[k - 1])
    decreases j
  {
    if j > lo && IsSpace(s[j - 1]) then SpaceStart(s, lo, j - 1) else j
  }

  /** SpaceStart passes over whitespace only. */
  lemma {:induction false} SpaceStartSkipsSpace(s: string, lo: nat, j: nat)
    requires lo <= j <= |s|
    ensures forall i :: SpaceStart(s, lo, j) <= i < j ==> IsSpace(s[i])
    decreases j
  {
    if j > lo && IsSpace(s[j - 1]) {
      SpaceStartSkipsSpace(s, lo, j - 1);
    }
  }

  /** Leading whitespace removed (the first step of str.split()). */
  function StripLeft(s: string): (r: string)
    ensures |r| <= |s| && r == s[|s| - |r|..]
    ensures AllSpace(s[..|s| - |r|])
    ensures r == [] || !IsSpace(r[0])
  {
    var k := SpaceEnd(s, 0);
    SpaceEndSkipsSpace(s, 0);
    var spaces := s[..k];
    assert AllSpace(spaces) by {
      forall i | 0 <= i < |spaces| ensures IsSpace(spaces[i]) {
        assert spaces[i] == s[i];
      }
    }
    s[k..]
  }

  /** Python's str.strip(): whitespace removed from both ends. */
  function Strip(s: string): (r: string)
    ensures |r| <= |s|
    ensures r == [] || (!IsSpace(r[0]) && !IsSpace(r[|r| - 1]))
    ensures s != [] && !IsSpace(s[0]) && !IsSpace(s[|s| - 1]) ==> r == s
  {
    var a := SpaceEnd(s, 0);
    var b := SpaceStart(s, a, |s|);
    assert b > a ==> s[a..b][0] == s[a] && s[a..b][b - a - 1] == s[b - 1];
    s[a..b]
  }

  /** strip() removes whitespace only: what it keeps is a slice of s with nothing but
      whitespace before and after it. */
  lemma {:induction false} StripRemovesOnlySpace(s: string)
    ensures var a := SpaceEnd(s, 0); var b := SpaceStart(s, a, |s|);
      Strip(s) == s[a..b] && AllSpace(s[..a]) && AllSpace(s[b..])
  {
    var a := SpaceEnd(s, 0);
    var b := SpaceStart(s, a, |s|);
    SpaceEndSkipsSpace(s, 0);
    SpaceStartSkipsSpace(s, a, |s|);
    var before, after := s[..a], s[b..];
    forall i | 0 <= i < |before| ensures IsSpace(before[i]) {
      assert before[i] == s[i];
    }
    forall i | 0 <= i < |after| ensures IsSpace(after[i]) {
      assert after[i] == s[b + i];
    }
  }

  /** The longest prefix of s holding no whitespace. */
  function Word(s: string): (w: string)
    ensures w <= s && NoSpace(w)
    ensures s != [] && !IsSpace(s[0]) ==> w != []
    decreases |s|
  {
    if |s| == 0 || IsSpace(s[0]) then "" else [s[0]] + Word(s[1..])
  }

  /** Python's str.split() without a separator: the maximal runs of non-whitespace, in order. */
  function Split(s: string): (r: seq<string>)
    ensures forall i :: 0 <= i < |r| ==> IsWord(r[i])
    decreases |s|
  {
    var t := StripLeft(s);
    if t == [] then [] else
      var w := Word(t);
      var rest := Split(t[|w|..]);
      assert IsWord(w);
      [w] + rest
  }

  /** Python's sep.join(xs). */
  function Join(sep: string, xs: seq<string>): string
    decreases |xs|
  {
    if |xs| == 0 then "" else if |xs| == 1 then xs[0] else xs[0] + sep + Join(sep, xs[1..])
  }

  /** A non-empty string of printable ASCII characters other than the blank is a word. */
  lemma {:induction false} GraphicWord(x: string)
    requires x != [] && forall i :: 0 <= i < |x| ==> '!' <= x[i] <= '~'
    ensures IsWord(x)
  {
    forall i | 0 <= i < |x| ensures !IsSpace(x[i]) {
      GraphicNotSpace(x[i]);
    }
  }

  lemma {:induction false} WordOfSpaced(w: string, rest: string)
    requires NoSpace(w)
    requires rest == [] || IsSpace(rest[0])
    ensures Word(w + rest) == w
    decreases |w|
  {
    if w != [] {
      assert (w + rest)[1..] == w[1..] + rest;
      WordOfSpaced(w[1..], rest);
    } else {
      assert w + rest == rest;
    }
  }

  lemma {:induction false} ConsTail<T>(xs: seq<T>)
    requires |xs| > 0
    ensures [xs[0]] + xs[1..] == xs
  {
  }

  lemma {:induction false} SplitWordThen(x: string, rest: string)
    requires IsWord(x)
    requires rest == [] || IsSpace(rest[0])
    ensures Split(x + rest) == [x] + Split(rest)
  {
    var s := x + rest;
    assert s[0] == x[0];
    assert StripLeft(s) == s;
    WordOfSpaced(x, rest);
    assert s[|x|..] == rest;
  }

  lemma {:induction false} SplitSkipsSpace(j: string)
    requires j != [] && !IsSpace(j[0])
    ensures Split(" " + j) == Split(j)
  {
    assert (" " + j)[1..] == j;
    assert StripLeft(" " + j) == StripLeft(j);
  }

  lemma {:induction false} SplitJoinCons(x: string, tail: seq<string>)
    requires IsWord(x) && |tail| > 0 && IsWord(tail[0])
    requires Split(Join(" ", tail)) == tail
    ensures Split(Join(" ", [x] + tail)) == [x] + tail
  {
    var j := Join(" ", tail);
    assert ([x] + tail)[1..] == tail;
    assert Join(" ", [x] + tail) == x + (" " + j);
    SplitWordThen(x, " " + j);
    JoinStartsWith(" ", tail);
    SplitSkipsSpace(j);
  }

  /** Splitting a single-space join of words gives the words back. */
  lemma {:induction false} SplitJoin(xs: seq<string>)
    requires forall i :: 0 <= i < |xs| ==> IsWord(xs[i])
    ensures Split(Join(" ", xs)) == xs
    decreases |xs|
  {
    if |xs| == 1 {
      SplitWordThen(xs[0], "");
      assert xs[0] + "" == xs[0];
      assert Split("") == [];
      ConsTail(xs);
    } else if |xs| > 1 {
      var tail := xs[1..];
      forall i | 0 <= i < |tail| ensures IsWord(tail[i]) {
        assert tail[i] == xs[i + 1];
      }
      SplitJoin(tail);
      SplitJoinCons(xs[0], tail);
      ConsTail(xs);
    }
  }

  /** A join of non-empty words starts with the first word's first character. */
  lemma {:induction false} JoinStartsWith(sep: string, xs: seq<string>)
    requires |xs| > 0 && xs[0] != ""
    ensures Join(sep, xs) != [] && Join(sep, xs)[0] == xs[0][0]
  {
  }

  /** Joining a non-empty list extended at the end adds one separator and the new items. */
  lemma {:induction false} JoinAppend(sep: string, xs: seq<string>, ys: seq<string>)
    requires |xs| > 0 && |ys| > 0
    ensures Join(sep, xs + ys) == Join(sep, xs) + sep + Join(sep, ys)
    decreases |xs|
  {
    if |xs| == 1 {
      assert (xs + ys)[1..] == ys;
    } else {
      assert (xs + ys)[1..] == xs[1..] + ys;
      JoinAppend(sep, xs[1..], ys);
    }
  }

  predicate IsDigit(c: char) {
    '0' <= c <= '9'
  }

  predicate AllDigits(s: string) {
    forall i :: 0 <= i < |s| ==> IsDigit(s[i])
  }

  function DigitChar(d: nat): (c: char)
    requires d < 10
    ensures IsDigit(c) && c as int - '0' as int == d
  {
    ('0' as int + d) as char
  }

  /** Python's str() of a non-negative int: its decimal digits. */
  function NatToString(n: nat): (r: string)
    ensures r != [] && AllDigits(r)
    decreases n
  {
    if n < 10 then [DigitChar(n)] else NatToString(n / 10) + [DigitChar(n % 10)]
  }

  /** Python's str() of an int. */
  function IntToString(i: int): (r: string)
    ensures r != []
    ensures i < 0 <==> r[0] == '-'
  {
    if i < 0 then "-" + NatToString(-i) else NatToString(i)
  }

  function DigitValue(c: char): (d: nat)
    requires IsDigit(c)
    ensures d < 10
  {
    c as int - '0' as int
  }

  /** The value of a numeral as Python's int() reads it: decimal digits, with single
      underscores allowed between two digits; None for anything else. Read from the right:
      the last character is a digit, and what precedes it (less an underscore just before
      it) is itself a numeral or nothing. */
  function NumeralValue(t: string): (r: Option<nat>)
    ensures r.Some? ==> t != [] && IsDigit(t[0]) && IsDigit(t[|t| - 1])
    decreases |t|
  {
    if t == [] || !IsDigit(t[|t| - 1]) then None
    else
      var digit := DigitValue(t[|t| - 1]);
      if |t| == 1 then Some(digit)
      else
        var p := if t[|t| - 2] == '_' then t[..|t| - 2] else t[..|t| - 1];
        match NumeralValue(p)
        case None => None
        case Some(v) =>
          assert t[0] == p[0];
          Some(v * 10 + digit)
  }

  /** Python's int(s) on a decimal string: surrounding whitespace, an optional sign and a
      numeral; None stands for the ValueError int() raises on anything else. */
  function ParseInt(s: string): Option<int> {
    var t := Strip(s);
    if t != [] && (t[0] == '-' || t[0] == '+') then
      match NumeralValue(t[1..])
      case None => None
      case Some(v) => var x: int := v; Some(if t[0] == '-' then -x else x)
    else
      match NumeralValue(t)
      case None => None
      case Some(v) => Some(v as int)
  }

  /** The decimal digits of n read back as n. */
  lemma {:induction false} NumeralOfNat(n: nat)
    ensures NumeralValue(NatToString(n)) == Some(n)
    decreases n
  {
    var s := NatToString(n);
    if n >= 10 {
      var p := NatToString(n / 10);
      assert s == p + [DigitChar(n % 10)];
      assert s[..|s| - 1] == p;
      assert s[|s| - 2] == p[|p| - 1];
      assert IsDigit(p[|p| - 1]);
      NumeralOfNat(n / 10);
    }
  }

  lemma {:induction false} SignOrDigitNotSpace(c: char)
    requires IsDigit(c) || c == '-'
    ensures !IsSpace(c)
  {
    GraphicNotSpace(c);
  }

  lemma {:induction false} StripKeepsNumber(i: int)
    ensures Strip(IntToString(i)) == IntToString(i)
  {
    var s := IntToString(i);
    var d := if i < 0 then NatToString(-i) else NatToString(i);
    assert s[|s| - 1] == d[|d| - 1];
    assert AllDigits(d);
    SignOrDigitNotSpace(d[|d| - 1]);
    assert IsDigit(s[0]) || s[0] == '-' by {
      if i >= 0 {
        assert AllDigits(d) && s == d;
      }
    }
    SignOrDigitNotSpace(s[0]);
  }

  /** int(str(i)) == i. */
  lemma {:induction false} ParseIntToString(i: int)
    ensures ParseInt(IntToString(i)) == Some(i)
  {
    var s := IntToString(i);
    StripKeepsNumber(i);
    var n: nat := if i < 0 then -i else i;
    var d := NatToString(n);
    NumeralOfNat(n);
    if i < 0 {
      assert s == "-" + d;
      assert s[1..] == d;
    } else {
      assert s == d;
      assert s[0] != '-' && s[0] != '+' by { assert IsDigit(d[0]); }
    }
  }

  /** A number written after a prefix reads back from the rest of the string. */
  lemma {:induction false} NumberAfter(prefix: string, i: int)
    ensures (prefix + IntToString(i))[|prefix|..] == IntToString(i)
    ensures ParseInt((prefix + IntToString(i))[|prefix|..]) == Some(i)
  {
    assert (prefix + IntToString(i))[|prefix|..] == IntToString(i);
    ParseIntToString(i);
  }


  /** The text before the first occurrence of c in s (all of s when c does not occur). */
  function Before(s: string, c: char): (r: string)
    ensures r <= s && c !in r
    ensures |r| < |s| ==> s[|r|] == c
    decreases |s|
  {
    if s == [] || s[0] == c then "" else [s[0]] + Before(s[1..], c)
  }

  /** Python's s.split(c)[1]: the text between the first and the second occurrence of c
      (or the end of s); None stands for the IndexError when c does not occur at all. */
  function SplitSecond(s: string, c: char): (r: Option<string>)
    ensures r.None? <==> c !in s
    ensures r.Some? ==> c !in r.value
    ensures r.Some? ==> var i := |Before(s, c)|; i < |s| && s[i] == c && r.value <= s[i + 1..]
    ensures r.Some? ==> var i := |Before(s, c)|; i + 1 + |r.value| == |s| || s[i + 1 + |r.value|] == c
  {
    var head := Before(s, c);
    if |head| == |s| then
      assert head == s;
      None
    else
      Some(Before(s[|head| + 1..], c))
  }
}
