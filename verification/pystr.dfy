/** The few Python string and list primitives the console handlers rely on:
    str.split with a one-character separator, str.join, str.replace of one
    character by another, str.startswith / endswith / removesuffix, int() on
    a decimal string, str() of an int, and list/str slicing with Python's
    clamping of negative and out-of-range bounds. */
module PyStr {
  import opened Wrappers

  /** Index of the first occurrence of `c` in `s`, or |s| when `c` does not occur. */
  function Find(s: string, c: char): (i: nat)
    ensures i <= |s|
    ensures i < |s| ==> s[i] == c
    ensures c !in s[..i]
    ensures i == |s| <==> c !in s
  {
    if s == [] then 0
    else if s[0] == c then 0
    else
      assert s[1..][..Find(s[1..], c)] == s[1..1 + Find(s[1..], c)];
      1 + Find(s[1..], c)
  }

  /** `Find` is pinned down by a separator-free prefix followed by the separator. */
  lemma FindAt(pre: string, c: char, rest: string)
    requires c !in pre
    ensures Find(pre + [c] + rest, c) == |pre|
  {
    var s := pre + [c] + rest;
    assert s[..|pre|] == pre;
    assert s[|pre|] == c;
  }

  /** Python's `s.split(c)`: the pieces between occurrences of `c`, so that
      "" splits to [""] and "a,,b" to ["a", "", "b"]. */
  function Split(s: string, c: char): (r: seq<string>)
    ensures |r| >= 1
    ensures forall k :: 0 <= k < |r| ==> c !in r[k]
    ensures c in s <==> |r| >= 2
    decreases |s|
  {
    var i := Find(s, c);
    if i == |s| then [s]
    else [s[..i]] + Split(s[i + 1..], c)
  }

  /** Python's `c.join(parts)`. */
  function Join(parts: seq<string>, c: char): string
  {
    if parts == [] then ""
    else if |parts| == 1 then parts[0]
    else parts[0] + [c] + Join(parts[1..], c)
  }

  /** Joining the pieces of a split gives back the input. */
  lemma {:induction false} JoinSplit(s: string, c: char)
    ensures Join(Split(s, c), c) == s
    decreases |s|
  {
    var i := Find(s, c);
    if i < |s| {
      JoinSplit(s[i + 1..], c);
      assert s == s[..i] + [c] + s[i + 1..];
    }
  }

  /** Splitting a join of separator-free pieces gives back the pieces. */
  lemma {:induction false} SplitJoin(parts: seq<string>, c: char)
    requires |parts| >= 1
    requires forall k :: 0 <= k < |parts| ==> c !in parts[k]
    ensures Split(Join(parts, c), c) == parts
  {
    if |parts| == 1 {
      assert Find(parts[0], c) == |parts[0]|;
    } else {
      var rest := Join(parts[1..], c);
      FindAt(parts[0], c, rest);
      var s := parts[0] + [c] + rest;
      assert s[..|parts[0]|] == parts[0];
      assert s[|parts[0]| + 1..] == rest;
      SplitJoin(parts[1..], c);
    }
  }

  /** Only the empty string splits to the single empty piece. */
  lemma SplitIsEmptyPiece(s: string, c: char)
    ensures Split(s, c) == [""] <==> s == ""
  {
    if Split(s, c) == [""] {
      JoinSplit(s, c);
    }
  }

  /** The last piece of `s.split(c)`, i.e. Python's `s.split(c)[-1]`. */
  function LastPiece(s: string, c: char): string
  {
    var parts := Split(s, c);
    parts[|parts| - 1]
  }

  /** `s.split(c)[-1]` is the part of `s` after its last `c` (all of `s` when
      there is none): a separator-free suffix of `s`, preceded by `c` unless it
      is the whole string. */
  lemma {:induction false} LastPieceIsTail(s: string, c: char)
    ensures var r := LastPiece(s, c);
      && |r| <= |s|
      && r == s[|s| - |r|..]
      && c !in r
      && (c in s <==> |r| < |s|)
      && (|r| < |s| ==> s[|s| - |r| - 1] == c)
    decreases |s|
  {
    var i := Find(s, c);
    if i < |s| {
      var t := s[i + 1..];
      LastPieceIsTail(t, c);
      assert LastPiece(s, c) == LastPiece(t, c);
    }
  }

  /** The last piece is whatever follows the last separator. */
  lemma LastPieceAfter(head: string, c: char, tail: string)
    requires c !in tail
    ensures LastPiece(head + [c] + tail, c) == tail
  {
    var s := head + [c] + tail;
    LastPieceIsTail(s, c);
    assert s[|head|] == c;
    assert s[|head| + 1..] == tail;
  }

  /** Python's `s.replace(a, b)` for single characters `a` and `b`. */
  function Replace(s: string, a: char, b: char): (r: string)
    ensures |r| == |s|
    ensures forall k :: 0 <= k < |s| ==> r[k] == (if s[k] == a then b else s[k])
  {
    if s == [] then [] else [if s[0] == a then b else s[0]] + Replace(s[1..], a, b)
  }

  /** After replacing `a` by a different character, `a` no longer occurs, and
      `b` occurs exactly where `a` or `b` occurred. */
  lemma ReplaceRemoves(s: string, a: char, b: char)
    requires a != b
    ensures a !in Replace(s, a, b)
    ensures forall x :: x != a && x != b ==> (x in Replace(s, a, b) <==> x in s)
  {
    var r := Replace(s, a, b);
    forall x | x != a && x != b
      ensures x in r <==> x in s
    {
      if x in r {
        var k :| 0 <= k < |r| && r[k] == x;
        assert s[k] == x;
      }
      if x in s {
        var k :| 0 <= k < |s| && s[k] == x;
        assert r[k] == x;
      }
    }
  }

  predicate StartsWith(s: string, prefix: string)
  {
    |prefix| <= |s| && s[..|prefix|] == prefix
  }

  predicate EndsWith(s: string, suffix: string)
  {
    |suffix| <= |s| && s[|s| - |suffix|..] == suffix
  }

  /** Python's `s.removesuffix(suffix)`: drops one copy of `suffix` when `s` ends with it. */
  function RemoveSuffix(s: string, suffix: string): (r: string)
    ensures EndsWith(s, suffix) ==> r + suffix == s
    ensures !EndsWith(s, suffix) ==> r == s
  {
    if EndsWith(s, suffix) then s[..|s| - |suffix|] else s
  }

  // ---------------------------------------------------------------------
  // Slicing

  /** Where a Python slice bound lands in a sequence of length `n`: a negative
      bound counts from the end, and every bound is clamped into [0, n]. */
  function SliceBound(i: int, n: nat): (k: nat)
    ensures k <= n
    ensures 0 <= i <= n ==> k == i
    ensures i > n ==> k == n
    ensures -(n as int) <= i < 0 ==> k == n + i
    ensures i < -(n as int) ==> k == 0
  {
    if i < 0 then (if i + n < 0 then 0 else i + n)
    else if i > n then n
    else i
  }

  /** Python's `s[start:stop]` with step 1. */
  function PySlice<T>(s: seq<T>, start: int, stop: int): (r: seq<T>)
    ensures |r| <= |s|
    ensures var i, j := SliceBound(start, |s|), SliceBound(stop, |s|);
      if i < j then r == s[i..j] else r == []
  {
    var i, j := SliceBound(start, |s|), SliceBound(stop, |s|);
    if i < j then s[i..j] else []
  }

  // ---------------------------------------------------------------------
  // int() and str() on decimal integers

  predicate IsDigit(ch: char) { '0' <= ch <= '9' }

  predicate AllDigits(s: string)
  {
    forall k :: 0 <= k < |s| ==> IsDigit(s[k])
  }

  function DigitValue(ch: char): (d: nat)
    requires IsDigit(ch)
    ensures d < 10
  {
    ch as int - '0' as int
  }

  function DigitChar(d: nat): (ch: char)
    requires d < 10
    ensures IsDigit(ch) && DigitValue(ch) == d
  {
    ('0' as int + d) as char
  }

  /** The value of a string of decimal digits, most significant first. */
  function DigitsValue(s: string): nat
    requires AllDigits(s)
  {
    if s == [] then 0
    else DigitsValue(s[..|s| - 1]) * 10 + DigitValue(s[|s| - 1])
  }

  /** The decimal digits of `n`, no leading zeros (Python's `str(n)` for n >= 0). */
  function Decimal(n: nat): (s: string)
    ensures |s| >= 1 && AllDigits(s)
  {
    if n < 10 then [DigitChar(n)]
    else Decimal(n / 10) + [DigitChar(n % 10)]
  }

  /** Python's `str(i)` for an int. */
  function IntToStr(i: int): (s: string)
  {
    if i < 0 then "-" + Decimal(-i) else Decimal(i)
  }

  /** Python's `int(s)` for a string: an optional sign followed by one or more
      ASCII digits; anything else raises ValueError (None here). */
  function ParseInt(s: string): (r: Option<int>)
    ensures r.Some? ==> |s| >= 1
    ensures r.Some? && r.value < 0 ==> s[0] == '-'
  {
    if |s| >= 2 && (s[0] == '-' || s[0] == '+') && AllDigits(s[1..]) then
      var v: int := DigitsValue(s[1..]);
      Some(if s[0] == '-' then -v else v)
    else if |s| >= 1 && AllDigits(s) then
      Some(DigitsValue(s))
    else
      None
  }

  lemma {:induction false} DecimalValue(n: nat)
    ensures DigitsValue(Decimal(n)) == n
  {
    if n >= 10 {
      var s := Decimal(n);
      assert s[..|s| - 1] == Decimal(n / 10);
      DecimalValue(n / 10);
    }
  }

  /** `int(str(i)) == i` for every int. */
  lemma ParseIntToStr(i: int)
    ensures ParseInt(IntToStr(i)) == Some(i)
  {
    var s := IntToStr(i);
    if i < 0 {
      assert s[1..] == Decimal(-i);
      DecimalValue(-i);
    } else {
      DecimalValue(i);
      assert s[0] != '-' && s[0] != '+';
    }
  }
}
