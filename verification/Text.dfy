/** The part of Go's `strings` package that the repository relies on, for one-character separators. */
module Text {

  predicate Free(c: char, s: string) {
    forall i | 0 <= i < |s| :: s[i] != c
  }

  /** Position of the first `c`, or `|s|` where Go's Index would answer -1. */
  function Index(s: string, c: char): (i: nat)
    ensures i <= |s|
    ensures Free(c, s[..i])
    ensures i < |s| ==> s[i] == c
    ensures i == |s| <==> Free(c, s)
  {
    if s == "" then 0
    else if s[0] == c then 0
    else
      var i := 1 + Index(s[1..], c);
      assert s[..i] == [s[0]] + s[1..][..i - 1];
      assert s == [s[0]] + s[1..];
      i
  }

  function Split(s: string, sep: char): (parts: seq<string>)
    ensures |parts| >= 1
    decreases |s|
  {
    var i := Index(s, sep);
    if i == |s| then [s] else [s[..i]] + Split(s[i + 1..], sep)
  }

  /** No part holds the separator. */
  lemma {:induction false} SplitPartFree(s: string, sep: char, k: nat)
    requires k < |Split(s, sep)|
    ensures Free(sep, Split(s, sep)[k])
    decreases |s|
  {
    var i := Index(s, sep);
    if i < |s| && k > 0 {
      SplitPartFree(s[i + 1..], sep, k - 1);
    }
  }

  lemma {:induction false} RemoveAllKeepsFree(s: string, c: char, d: char)
    requires Free(d, s)
    ensures Free(d, RemoveAll(s, c))
  {
    if s != "" {
      assert s == [s[0]] + s[1..];
      RemoveAllKeepsFree(s[1..], c, d);
    }
  }

  function Join(parts: seq<string>, sep: char): (s: string) {
    if |parts| == 0 then ""
    else if |parts| == 1 then parts[0]
    else parts[0] + [sep] + Join(parts[1..], sep)
  }

  /** ReplaceAll(s, c, ""). */
  function RemoveAll(s: string, c: char): (t: string)
    ensures Free(c, t)
    ensures Free(c, s) ==> t == s
  {
    if s == "" then ""
    else
      assert s == [s[0]] + s[1..];
      if s[0] == c then RemoveAll(s[1..], c) else [s[0]] + RemoveAll(s[1..], c)
  }

  /** The first separator of `a + [sep] + b` is the one after a separator-free `a`. */
  lemma IndexAfterFree(a: string, sep: char, b: string)
    requires Free(sep, a)
    ensures Index(a + [sep] + b, sep) == |a|
  {
    var s := a + [sep] + b;
    var i := Index(s, sep);
    assert s[|a|] == sep;
    assert forall k | 0 <= k < |a| :: s[k] == a[k];
    assert !Free(sep, s);
    assert forall k | 0 <= k < i :: s[..i][k] == s[k];
  }

  lemma CutAt(a: string, sep: char, b: string)
    requires Free(sep, a)
    ensures var s := a + [sep] + b; Index(s, sep) == |a| < |s| && s[|a|..] == [sep] + b
  {
    IndexAfterFree(a, sep, b);
  }

  lemma SplitAfterFree(a: string, sep: char, b: string)
    requires Free(sep, a)
    ensures Split(a + [sep] + b, sep) == [a] + Split(b, sep)
  {
    IndexAfterFree(a, sep, b);
    var s := a + [sep] + b;
    assert s[..|a|] == a;
    assert s[|a| + 1..] == b;
  }

  lemma TwoParts(a: string, b: string, rest: string, sep: char)
    requires Free(sep, a) && Free(sep, b)
    ensures var parts := Split(a + [sep] + (b + [sep] + rest), sep); |parts| >= 2 && parts[0] == a && parts[1] == b
  {
    hide Split, Free;
    SplitAfterFree(a, sep, b + [sep] + rest);
    SplitAfterFree(b, sep, rest);
  }

  lemma ThirdPart(a: string, b: string, d: string, rest: string, sep: char)
    requires Free(sep, a) && Free(sep, b) && Free(sep, d)
    ensures var parts := Split(a + [sep] + (b + [sep] + (d + [sep] + rest)), sep); |parts| >= 3 && parts[2] == d
  {
    hide Split, Free;
    SplitAfterFree(a, sep, b + [sep] + (d + [sep] + rest));
    SplitAfterFree(b, sep, d + [sep] + rest);
    SplitAfterFree(d, sep, rest);
  }

  lemma Regroup(first: string, sep: char, rest: string, b: string)
    ensures (first + [sep] + rest) + [sep] + b == first + [sep] + (rest + [sep] + b)
  {
  }

  /** A string with a separator, cut at its first one. */
  lemma FirstCut(s: string, sep: char) returns (first: string, rest: string)
    requires !Free(sep, s)
    ensures Free(sep, first) && s == first + [sep] + rest && |rest| < |s|
    ensures Split(s, sep) == [first] + Split(rest, sep)
  {
    var i := Index(s, sep);
    first, rest := s[..i], s[i + 1..];
  }

  /** Splitting at every separator splits at this one too. */
  lemma {:induction false} SplitAppend(a: string, sep: char, b: string)
    ensures Split(a + [sep] + b, sep) == Split(a, sep) + Split(b, sep)
    decreases |a|
  {
    if Free(sep, a) {
      SplitAfterFree(a, sep, b);
      assert Split(a, sep) == [a];
    } else {
      hide Split, Free;
      var first, rest := FirstCut(a, sep);
      SplitAppend(rest, sep, b);
      SplitAfterFree(first, sep, rest + [sep] + b);
      Regroup(first, sep, rest, b);
      Prepend(first, Split(rest, sep), Split(b, sep));
    }
  }

  lemma Prepend(first: string, xs: seq<string>, ys: seq<string>)
    ensures [first] + (xs + ys) == ([first] + xs) + ys
  {
  }

  /** Splitting undoes joining, for any non-empty list of separator-free parts. */
  lemma {:induction false} SplitJoin(parts: seq<string>, sep: char)
    requires |parts| >= 1
    requires forall p | p in parts :: Free(sep, p)
    ensures Split(Join(parts, sep), sep) == parts
  {
    if |parts| == 1 {
      assert Index(parts[0], sep) == |parts[0]|;
    } else {
      SplitJoin(parts[1..], sep);
      SplitAfterFree(parts[0], sep, Join(parts[1..], sep));
      assert parts == [parts[0]] + parts[1..];
    }
  }

  lemma JoinCons(first: string, rest: seq<string>, sep: char)
    requires |rest| >= 1
    ensures Join([first] + rest, sep) == first + [sep] + Join(rest, sep)
  {
    assert ([first] + rest)[1..] == rest;
  }

  /** Joining undoes splitting, for every string. */
  lemma {:induction false} JoinSplit(s: string, sep: char)
    ensures Join(Split(s, sep), sep) == s
    decreases |s|
  {
    var i := Index(s, sep);
    if i < |s| {
      var rest := s[i + 1..];
      var parts := Split(rest, sep);
      assert Join(parts, sep) == rest by { JoinSplit(rest, sep); }
      assert Split(s, sep) == [s[..i]] + parts;
      assert Join(Split(s, sep), sep) == s[..i] + [sep] + rest by { JoinCons(s[..i], parts, sep); }
      assert s == s[..i] + [sep] + rest;
    } else {
      assert Split(s, sep) == [s];
    }
  }

  /** Two strings cut at their first separator agree only if both pieces agree. */
  lemma CutInjective(a: string, b: string, x: string, y: string, sep: char)
    requires Free(sep, a) && Free(sep, x)
    requires a + [sep] + b == x + [sep] + y
    ensures a == x && b == y
  {
    IndexAfterFree(a, sep, b);
    IndexAfterFree(x, sep, y);
    var s := a + [sep] + b;
    assert a == s[..|a|] && x == s[..|a|];
    assert b == s[|a| + 1..] && y == s[|a| + 1..];
  }

  lemma {:induction false} RemoveAllAppend(a: string, b: string, c: char)
    ensures RemoveAll(a + b, c) == RemoveAll(a, c) + RemoveAll(b, c)
  {
    if a == "" {
      assert a + b == b;
    } else {
      var rest := a[1..] + b;
      assert RemoveAll(rest, c) == RemoveAll(a[1..], c) + RemoveAll(b, c) by { RemoveAllAppend(a[1..], b, c); }
      assert (a + b)[0] == a[0] && (a + b)[1..] == rest;
      assert RemoveAll(a + b, c) == if a[0] == c then RemoveAll(rest, c) else [a[0]] + RemoveAll(rest, c);
    }
  }

  predicate Contains(s: string, t: string) {
    t <= s || (s != "" && Contains(s[1..], t))
  }

  predicate EndsWith(s: string, t: string) {
    |t| <= |s| && s[|s| - |t|..] == t
  }

  lemma {:induction false} ContainsSuffix(s: string, t: string)
    ensures Contains(s + t, t)
  {
    if s == "" {
      assert s + t == t;
    } else {
      assert (s + t)[1..] == s[1..] + t;
      ContainsSuffix(s[1..], t);
    }
  }

  lemma PrefixAtCut(x: string, rest: string, a: string, b: string, c: char)
    requires Free(c, x) && Free(c, a)
    ensures a + [c] + b <= x + [c] + rest <==> a == x && b <= rest
  {
    var s, t := x + [c] + rest, a + [c] + b;
    assert s[|x|] == c && t[|a|] == c;
    assert forall i | 0 <= i < |x| :: s[i] == x[i];
    assert forall i | 0 <= i < |a| :: t[i] == a[i];
    if t <= s {
      assert forall i | 0 <= i < |t| :: s[i] == t[i];
      assert |a| == |x|;
      assert a == t[..|a|] && x == s[..|x|];
      assert b == t[|a| + 1..] && rest[..|b|] == s[|x| + 1..][..|b|];
    }
    if a == x && b <= rest {
      assert rest == b + rest[|b|..];
      assert s == t + rest[|b|..];
    }
  }

  /** Where a pattern of two parts can occur in a string cut at its first separator: across the cut, or after it. */
  lemma {:induction false} ContainsCut(x: string, rest: string, a: string, b: string, c: char)
    requires Free(c, x) && Free(c, a) && a != ""
    ensures Contains(x + [c] + rest, a + [c] + b) <==>
      (EndsWith(x, a) && b <= rest) || Contains(rest, a + [c] + b)
  {
    var s, t := x + [c] + rest, a + [c] + b;
    PrefixAtCut(x, rest, a, b, c);
    if x == "" {
      assert s[1..] == rest;
    } else {
      assert s[1..] == x[1..] + [c] + rest;
      ContainsCut(x[1..], rest, a, b, c);
      assert EndsWith(x, a) <==> a == x || EndsWith(x[1..], a);
    }
  }

  lemma {:induction false} ContainsNoCut(x: string, a: string, b: string, c: char)
    requires Free(c, x)
    ensures !Contains(x, a + [c] + b)
  {
    var t := a + [c] + b;
    assert t[|a|] == c;
    if x != "" {
      ContainsNoCut(x[1..], a, b, c);
    }
  }

  lemma ContainsOnce(x: string, a: string, b: string, c: char)
    requires Free(c, x) && Free(c, a) && Free(c, b) && |x| == |a| > 0
    ensures Contains(x + [c] + b, a + [c] + b) <==> a == x
  {
    ContainsCut(x, b, a, b, c);
    ContainsNoCut(b, a, b, c);
  }

  lemma PrefixBeforeCut(b: string, y: string, c: char, z: string)
    requires Free(c, b)
    ensures b <= y + [c] + z <==> b <= y
  {
    var s := y + [c] + z;
    assert s[|y|] == c;
    if b <= s {
      assert forall i | 0 <= i < |b| :: b[i] == s[i];
      assert |b| <= |y|;
      assert b == s[..|b|] && s[..|b|] == y[..|b|];
    }
  }
}
