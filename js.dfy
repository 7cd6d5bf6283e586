/** The parts of JavaScript's semantics that the dashboard's logic relies on:
    values that may be null or undefined, truthiness of strings, numbers
    printed by template literals, `String.prototype.includes`,
    `Array.prototype.filter`, `Math.floor` of a quotient and `Math.min`. */
module Js {

  /** A value that may be null or undefined (the source never tells the two apart
      except where noted). */
  datatype Option<+T> = None | Some(value: T) {
    /** `x ?? default` */
    function GetOr(default: T): T {
      if Some? then value else default
    }
  }

  /** `!!s` for a string that may be absent: null, undefined and "" are falsy. */
  predicate Truthy(s: Option<string>) {
    s.Some? && s.value != ""
  }

  predicate IsDigit(c: char) {
    '0' <= c <= '9'
  }

  function DigitChar(d: nat): (c: char)
    requires d < 10
    ensures IsDigit(c)
  {
    ('0' as int + d) as char
  }

  /** The decimal text of a non-negative integer, as `${n}` prints it. */
  function NatToString(n: nat): (s: string)
    ensures |s| >= 1
    ensures forall i :: 0 <= i < |s| ==> IsDigit(s[i])
    ensures s[0] == '0' ==> n == 0
    ensures n == 0 ==> s == "0"
  {
    if n < 10 then [DigitChar(n)] else NatToString(n / 10) + [DigitChar(n % 10)]
  }

  /** The value of a string of decimal digits. */
  function DigitsValue(s: string): nat
    requires forall i :: 0 <= i < |s| ==> IsDigit(s[i])
  {
    if s == [] then 0
    else
      var last := s[|s| - 1];
      assert IsDigit(last);
      DigitsValue(s[..|s| - 1]) * 10 + (last as int - '0' as int)
  }

  /** Reading the printed number back gives the number: the printing loses nothing. */
  lemma {:induction false} NatToStringRoundTrip(n: nat)
    ensures DigitsValue(NatToString(n)) == n
  {
    if n >= 10 {
      var s := NatToString(n);
      assert s[..|s| - 1] == NatToString(n / 10);
      NatToStringRoundTrip(n / 10);
    }
  }

  /** `${i}` for any integer: a minus sign before the magnitude of a negative one. */
  function IntToString(i: int): (s: string)
    ensures |s| >= 1
    ensures i >= 0 ==> s == NatToString(i)
    ensures i < 0 ==> s[0] == '-' && s[1..] == NatToString(-i)
  {
    if i < 0 then "-" + NatToString(-i) else NatToString(i)
  }

  /** `s.includes(sub)`: some window of `s` is exactly `sub`. */
  predicate Includes(s: string, sub: string)
    decreases |s|
  {
    |sub| <= |s| && (s[..|sub|] == sub || (s != [] && Includes(s[1..], sub)))
  }

  /** `sub` occurs in `s` starting at position `i`. */
  predicate MatchAt(s: string, i: nat, sub: string) {
    i + |sub| <= |s| && s[i..i + |sub|] == sub
  }

  /** `includes` finds `sub` exactly when it occurs at some position. */
  lemma {:induction false} IncludesIffMatch(s: string, sub: string)
    ensures Includes(s, sub) <==> exists i: nat :: MatchAt(s, i, sub)
    decreases |s|
  {
    if exists i: nat :: MatchAt(s, i, sub) {
      var i: nat :| MatchAt(s, i, sub);
      IncludesAt(s, i, sub);
    }
    if Includes(s, sub) {
      if s[..|sub|] == sub {
        assert MatchAt(s, 0, sub);
      } else {
        IncludesIffMatch(s[1..], sub);
        var j: nat :| MatchAt(s[1..], j, sub);
        assert s[1..][j..j + |sub|] == s[j + 1..j + 1 + |sub|];
        assert MatchAt(s, j + 1, sub);
      }
    }
  }

  /** Every text includes itself. */
  lemma IncludesSelf(s: string)
    ensures Includes(s, s)
  {
    assert s[..|s|] == s;
  }

  /** A match stays a match when something is put after it. */
  lemma {:induction false} IncludesBeforeSuffix(a: string, b: string, sub: string)
    requires Includes(a, sub)
    ensures Includes(a + b, sub)
  {
    assert (a + b)[..|sub|] == a[..|sub|];
    if a[..|sub|] != sub {
      assert (a + b)[1..] == a[1..] + b;
      IncludesBeforeSuffix(a[1..], b, sub);
    }
  }

  /** A match stays a match when something is put before it. */
  lemma {:induction false} IncludesAfterPrefix(a: string, b: string, sub: string)
    requires Includes(b, sub)
    ensures Includes(a + b, sub)
  {
    if a == [] {
      assert a + b == b;
    } else {
      assert (a + b)[1..] == a[1..] + b;
      IncludesAfterPrefix(a[1..], b, sub);
    }
  }

  /** Each of four parts joined by a separator, between an opening and a
      closing text, is found in the whole. */
  lemma IncludesEachOfFour(open: string, a: string, b: string, c: string, d: string, sep: string, close: string)
    ensures var s := open + (a + sep + b + sep + c + sep + d) + close;
            Includes(s, a) && Includes(s, b) && Includes(s, c) && Includes(s, d)
  {
    var ab, abc := a + sep + b + sep, a + sep + b + sep + c + sep;
    var members := abc + d;
    IncludesSelf(a);
    IncludesBeforeSuffix(a, sep, a);
    IncludesBeforeSuffix(a + sep, b, a);
    IncludesBeforeSuffix(a + sep + b, sep, a);
    IncludesBeforeSuffix(ab, c, a);
    IncludesBeforeSuffix(ab + c, sep, a);
    IncludesBeforeSuffix(abc, d, a);
    IncludesSelf(b);
    IncludesAfterPrefix(a + sep, b, b);
    IncludesBeforeSuffix(a + sep + b, sep, b);
    IncludesBeforeSuffix(ab, c, b);
    IncludesBeforeSuffix(ab + c, sep, b);
    IncludesBeforeSuffix(abc, d, b);
    IncludesSelf(c);
    IncludesAfterPrefix(ab, c, c);
    IncludesBeforeSuffix(ab + c, sep, c);
    IncludesBeforeSuffix(abc, d, c);
    IncludesSelf(d);
    IncludesAfterPrefix(abc, d, d);
    forall x | x in {a, b, c, d}
      ensures Includes(open + members + close, x)
    {
      IncludesAfterPrefix(open, members, x);
      IncludesBeforeSuffix(open + members, close, x);
    }
  }

  /** A window of `s` that equals `sub` is found by `includes`. */
  lemma {:induction false} IncludesAt(s: string, i: nat, sub: string)
    requires i + |sub| <= |s| && s[i..i + |sub|] == sub
    ensures Includes(s, sub)
  {
    if i > 0 {
      assert s[1..][i - 1..i - 1 + |sub|] == sub;
      IncludesAt(s[1..], i - 1, sub);
    }
  }

  /** A prefix in which the first character of `sub` never occurs cannot hold
      the start of a match, so `includes` over `a + b` is decided by `b` alone. */
  lemma {:induction false} IncludesSkipsPrefix(a: string, b: string, sub: string)
    requires sub != [] && sub[0] !in a
    ensures Includes(a + b, sub) == Includes(b, sub)
  {
    if a == [] {
      assert a + b == b;
    } else {
      assert (a + b)[0] == a[0];
      assert (a + b)[1..] == a[1..] + b;
      IncludesSkipsPrefix(a[1..], b, sub);
    }
  }

  /** `xs.filter(keep)`: the elements that pass, in their original order. */
  function Filter<T(!new)>(xs: seq<T>, keep: T -> bool): (r: seq<T>)
    ensures |r| <= |xs|
    ensures forall i :: 0 <= i < |r| ==> keep(r[i])
  {
    if xs == [] then [] else (if keep(xs[0]) then [xs[0]] else []) + Filter(xs[1..], keep)
  }

  /** `filter` neither loses nor duplicates what passes: every passing value
      keeps its multiplicity, and every failing one is gone. */
  lemma {:induction false} FilterCounts<T(!new)>(xs: seq<T>, keep: T -> bool)
    ensures forall x :: multiset(Filter(xs, keep))[x] == if keep(x) then multiset(xs)[x] else 0
  {
    if xs != [] {
      var rest := xs[1..];
      FilterCounts(rest, keep);
      assert xs == [xs[0]] + rest;
      assert multiset(xs) == multiset{xs[0]} + multiset(rest);
      var head := if keep(xs[0]) then [xs[0]] else [];
      assert multiset(Filter(xs, keep)) == multiset(head) + multiset(Filter(rest, keep));
    }
  }

  /** Filtering a concatenation filters each part: `filter` keeps the relative
      order of the elements it keeps. */
  lemma {:induction false} FilterAppend<T(!new)>(a: seq<T>, b: seq<T>, keep: T -> bool)
    ensures Filter(a + b, keep) == Filter(a, keep) + Filter(b, keep)
  {
    if a == [] {
      assert a + b == b;
    } else {
      var head := if keep(a[0]) then [a[0]] else [];
      calc {
        Filter(a + b, keep);
        { assert (a + b)[0] == a[0] && (a + b)[1..] == a[1..] + b; }
        head + Filter(a[1..] + b, keep);
        { FilterAppend(a[1..], b, keep); }
        head + (Filter(a[1..], keep) + Filter(b, keep));
        (head + Filter(a[1..], keep)) + Filter(b, keep);
        Filter(a, keep) + Filter(b, keep);
      }
    }
  }

  /** Two filters applied one after the other give the same result in
      either order. */
  lemma {:induction false} FilterCommutes<T(!new)>(xs: seq<T>, p: T -> bool, q: T -> bool)
    ensures Filter(Filter(xs, p), q) == Filter(Filter(xs, q), p)
  {
    if xs != [] {
      var head, rest := [xs[0]], xs[1..];
      var hp := if p(xs[0]) then head else [];
      var hq := if q(xs[0]) then head else [];
      var both := if p(xs[0]) && q(xs[0]) then head else [];
      assert Filter(xs, p) == hp + Filter(rest, p);
      assert Filter(xs, q) == hq + Filter(rest, q);
      FilterAppend(hp, Filter(rest, p), q);
      FilterAppend(hq, Filter(rest, q), p);
      assert Filter(hp, q) == both;
      assert Filter(hq, p) == both;
      FilterCommutes(rest, p, q);
    }
  }

  /** `filter` returns its input unchanged exactly when every element passes,
      which is also exactly when nothing is dropped. */
  lemma {:induction false} FilterSize<T(!new)>(xs: seq<T>, keep: T -> bool)
    ensures Filter(xs, keep) == xs <==> forall i :: 0 <= i < |xs| ==> keep(xs[i])
    ensures |Filter(xs, keep)| == |xs| <==> forall i :: 0 <= i < |xs| ==> keep(xs[i])
  {
    if xs != [] {
      var rest := xs[1..];
      FilterSize(rest, keep);
      assert forall i :: 0 <= i < |rest| ==> rest[i] == xs[i + 1];
      if keep(xs[0]) {
        assert Filter(xs, keep) == [xs[0]] + Filter(rest, keep);
        assert xs == [xs[0]] + rest;
        assert (forall i :: 0 <= i < |xs| ==> keep(xs[i])) <==> forall i :: 0 <= i < |rest| ==> keep(rest[i]);
      } else {
        assert Filter(xs, keep) == Filter(rest, keep);
        assert |Filter(xs, keep)| < |xs|;
      }
    }
  }

  /** `filter` returns nothing exactly when no element passes. */
  lemma {:induction false} FilterEmpty<T(!new)>(xs: seq<T>, keep: T -> bool)
    ensures Filter(xs, keep) == [] <==> forall i :: 0 <= i < |xs| ==> !keep(xs[i])
  {
    if xs != [] {
      var rest := xs[1..];
      FilterEmpty(rest, keep);
      assert forall i :: 0 <= i < |rest| ==> rest[i] == xs[i + 1];
      if !keep(xs[0]) {
        assert Filter(xs, keep) == Filter(rest, keep);
        assert (forall i :: 0 <= i < |xs| ==> !keep(xs[i])) <==> forall i :: 0 <= i < |rest| ==> !keep(rest[i]);
      }
    }
  }

  /** The positions of `xs` whose element passes `keep`. */
  ghost function Passing<T>(xs: seq<T>, keep: T -> bool): set<int> {
    set k | 0 <= k < |xs| && keep(xs[k])
  }

  /** Appending one element adds its position exactly when it passes. */
  lemma PassingSnoc<T>(init: seq<T>, last: T, keep: T -> bool)
    ensures Passing(init + [last], keep) == Passing(init, keep) + (if keep(last) then {|init|} else {})
  {
    var xs := init + [last];
    forall k | 0 <= k < |init|
      ensures xs[k] == init[k]
    {
    }
  }

  /** The length of a filtered list is the number of positions whose
      element passes. */
  lemma {:induction false} FilterLength<T(!new)>(xs: seq<T>, keep: T -> bool)
    ensures |Filter(xs, keep)| == |Passing(xs, keep)|
  {
    if xs != [] {
      var init, last := xs[..|xs| - 1], xs[|xs| - 1];
      FilterLength(init, keep);
      assert xs == init + [last];
      FilterAppend(init, [last], keep);
      assert Filter([last], keep) == if keep(last) then [last] else [];
      PassingSnoc(init, last, keep);
      assert |init| !in Passing(init, keep);
    }
  }

  /** `Math.floor(a / b)` for an integer `a` and a positive integer `b`. */
  function FloorDiv(a: int, b: int): (q: int)
    requires b > 0
    ensures q * b <= a < (q + 1) * b
  {
    a / b
  }

  /** `Math.min(a, b)` */
  function Min(a: int, b: int): (m: int)
    ensures m <= a && m <= b
    ensures m == a || m == b
  {
    if a <= b then a else b
  }
}
