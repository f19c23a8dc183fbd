/** String operations of JavaScript that the service relies on, over `seq<char>`. */
module Strings {
  import opened Wrappers

  predicate StartsWith(s: string, p: string) {
    |p| <= |s| && s[..|p|] == p
  }

  lemma PrefixOfConcat(a: string, b: string)
    ensures StartsWith(a + b, a)
  {
    assert (a + b)[..|a|] == a;
  }

  lemma StartsWithExtended(s: string, p: string, t: string)
    requires StartsWith(s, p)
    ensures StartsWith(s + t, p)
  {
    assert (s + t)[..|p|] == s[..|p|];
  }

  predicate EndsWith(s: string, p: string) {
    |p| <= |s| && s[|s| - |p|..] == p
  }

  lemma StartsWithShorter(s: string, p: string, q: string)
    requires StartsWith(s, p) && StartsWith(p, q)
    ensures StartsWith(s, q)
  {
    assert s[..|q|] == s[..|p|][..|q|];
  }

  lemma EndsWithPrefixed(a: string, b: string, t: string)
    requires EndsWith(b, t)
    ensures EndsWith(a + b, t)
  {
    assert (a + b)[|a + b| - |t|..] == b[|b| - |t|..];
  }

  /** `p` occurs in `s` starting at index `i`. */
  predicate OccursAt(s: string, p: string, i: int) {
    0 <= i && i + |p| <= |s| && s[i..i + |p|] == p
  }

  lemma OccursAtShift(s: string, p: string, i: nat)
    requires |s| > 0
    ensures OccursAt(s[1..], p, i) <==> OccursAt(s, p, i + 1)
  {
    if i + |p| <= |s[1..]| {
      assert s[1..][i..i + |p|] == s[i + 1..i + 1 + |p|];
    }
  }

  /** `String.prototype.includes`. */
  function Contains(s: string, p: string): (b: bool)
    ensures b <==> exists i :: OccursAt(s, p, i)
    decreases |s|
  {
    if |s| < |p| then false
    else if StartsWith(s, p) then
      assert OccursAt(s, p, 0);
      true
    else
      var rest := Contains(s[1..], p);
      assert rest ==> exists i :: OccursAt(s, p, i) by {
        if rest {
          var i :| OccursAt(s[1..], p, i);
          OccursAtShift(s, p, i);
        }
      }
      assert (exists i :: OccursAt(s, p, i)) ==> rest by {
        if exists i :: OccursAt(s, p, i) {
          var i :| OccursAt(s, p, i);
          assert i != 0;
          OccursAtShift(s, p, i - 1);
        }
      }
      rest
  }

  /** The index of the first occurrence of `p` in `s` (`String.prototype.indexOf`, -1 as `None`). */
  function IndexOf(s: string, p: string): (r: Option<nat>)
    ensures r.Some? ==> OccursAt(s, p, r.value)
    ensures r.Some? ==> forall j :: 0 <= j < r.value ==> !OccursAt(s, p, j)
    ensures r.None? <==> !Contains(s, p)
    decreases |s|
  {
    if |s| < |p| then None
    else if StartsWith(s, p) then Some(0)
    else
      match IndexOf(s[1..], p)
      case None => None
      case Some(k) =>
        OccursAtShift(s, p, k);
        assert forall j :: 0 <= j < k + 1 ==> !OccursAt(s, p, j) by {
          forall j | 0 <= j < k + 1 ensures !OccursAt(s, p, j) {
            if j > 0 {
              OccursAtShift(s, p, j - 1);
            }
          }
        }
        Some(k + 1)
  }

  /** `s.replace(p, r)` with a string pattern: only the first occurrence is replaced. */
  function ReplaceFirst(s: string, p: string, r: string): (t: string)
    ensures !Contains(s, p) ==> t == s
    ensures Contains(s, p) ==> exists i :: OccursAt(s, p, i) && t == s[..i] + r + s[i + |p|..]
  {
    match IndexOf(s, p)
    case None => s
    case Some(i) => s[..i] + r + s[i + |p|..]
  }

  lemma ReplaceFirstAtFront(p: string, r: string, rest: string)
    ensures ReplaceFirst(p + rest, p, r) == r + rest
  {
    assert OccursAt(p + rest, p, 0);
    assert (p + rest)[|p|..] == rest;
  }

  /** Number of occurrences of `c` in `s`. */
  function Count(s: string, c: char): nat {
    if s == [] then 0 else (if s[0] == c then 1 else 0) + Count(s[1..], c)
  }

  /** A character that occurs in `s` is counted. */
  lemma {:induction false} CountPositive(s: string, c: char)
    requires c in s
    ensures Count(s, c) > 0
    decreases |s|
  {
    if s[0] != c {
      assert c in s[1..];
      CountPositive(s[1..], c);
    }
  }

  /** A pattern holding a character that `s` lacks does not occur in `s`. */
  lemma MissingCharRulesOut(s: string, p: string, c: char)
    requires c in p && c !in s
    ensures !Contains(s, p)
  {
    var j :| 0 <= j < |p| && p[j] == c;
    forall i ensures !OccursAt(s, p, i) {
      if 0 <= i && i + |p| <= |s| {
        assert s[i + j] != c;
        assert s[i..i + |p|][j] != p[j];
      }
    }
  }

  /** `s.split(c)` for a one-character separator: the pieces between separators, in order. */
  function Split(s: string, c: char): (parts: seq<string>)
    ensures |parts| == Count(s, c) + 1
    ensures forall i :: 0 <= i < |parts| ==> c !in parts[i]
    decreases |s|
  {
    if s == [] then [[]]
    else
      var rest := Split(s[1..], c);
      if s[0] == c then [[]] + rest
      else [[s[0]] + rest[0]] + rest[1..]
  }

  /** A piece without the separator, then the separator: the piece comes first, then the split of the rest. */
  lemma {:induction false} SplitPiece(a: string, c: char, b: string)
    requires c !in a
    ensures Split(a + [c] + b, c) == [a] + Split(b, c)
    decreases |a|
  {
    if a == [] {
      assert ([] + [c] + b)[1..] == b;
    } else {
      SplitPiece(a[1..], c, b);
      assert (a + [c] + b)[1..] == a[1..] + [c] + b;
      var rest := Split(a[1..] + [c] + b, c);
      assert rest[0] == a[1..];
      assert [a[0]] + a[1..] == a;
    }
  }

  /** A string without the separator splits into itself. */
  lemma {:induction false} SplitWhole(a: string, c: char)
    requires c !in a
    ensures Split(a, c) == [a]
    decreases |a|
  {
    if a != [] {
      SplitWhole(a[1..], c);
      assert a == [a[0]] + a[1..];
    }
  }

  /** The first part of a three-part concatenation leads it, the last closes it, the middle occurs in it. */
  lemma ConcatParts(a: string, b: string, c: string)
    ensures StartsWith(a + b + c, a)
    ensures EndsWith(a + b + c, c)
    ensures Contains(a + b + c, b)
  {
    var s := a + b + c;
    assert s[..|a|] == a;
    assert s[|s| - |c|..] == c;
    assert s[|a|..|a| + |b|] == b;
    assert OccursAt(s, b, |a|);
  }

  /** `Array.prototype.join` with a separator string. */
  function JoinWith(xs: seq<string>, sep: string): string {
    if xs == [] then []
    else if |xs| == 1 then xs[0]
    else xs[0] + sep + JoinWith(xs[1..], sep)
  }

  lemma OccursAfter(a: string, b: string, p: string, i: nat)
    requires OccursAt(b, p, i)
    ensures OccursAt(a + b, p, |a| + i)
  {
    assert (a + b)[|a| + i..|a| + i + |p|] == b[i..i + |p|];
  }

  /** Every element of a joined list appears in the result, in one piece. */
  lemma {:induction false} JoinWithHasEach(xs: seq<string>, sep: string, k: nat)
    requires k < |xs|
    ensures Contains(JoinWith(xs, sep), xs[k])
    decreases |xs|
  {
    if |xs| == 1 || k == 0 {
      assert OccursAt(JoinWith(xs, sep), xs[k], 0) by {
        if |xs| > 1 {
          assert JoinWith(xs, sep) == xs[0] + (sep + JoinWith(xs[1..], sep));
        }
      }
    } else {
      var tail := JoinWith(xs[1..], sep);
      JoinWithHasEach(xs[1..], sep, k - 1);
      assert xs[1..][k - 1] == xs[k];
      var i :| OccursAt(tail, xs[k], i);
      OccursAfter(xs[0] + sep, tail, xs[k], i);
      assert JoinWith(xs, sep) == (xs[0] + sep) + tail;
    }
  }

  /** The last piece of a split is the text after the last separator (all of `s` if there is none). */
  predicate LastPieceFollowsSeparator(s: string, c: char) {
    var parts := Split(s, c);
    var last := parts[|parts| - 1];
    && EndsWith(s, last)
    && (Count(s, c) == 0 ==> last == s)
    && (Count(s, c) > 0 ==> |last| < |s| && s[|s| - |last| - 1] == c)
  }

  /** Every split ends with the text after the last separator. */
  lemma {:induction false} SplitLast(s: string, c: char)
    ensures var parts := Split(s, c);
      var last := parts[|parts| - 1];
      && EndsWith(s, last)
      && (Count(s, c) == 0 ==> last == s)
      && (Count(s, c) > 0 ==> |last| < |s| && s[|s| - |last| - 1] == c)
    decreases |s|
  {
    if s != [] {
      SplitLast(s[1..], c);
      if s[0] == c {
        SplitLastAtSeparator(s, c);
      } else {
        SplitLastAtOther(s, c);
      }
    }
  }

  lemma SplitLastAtSeparator(s: string, c: char)
    requires s != [] && s[0] == c
    requires LastPieceFollowsSeparator(s[1..], c)
    ensures LastPieceFollowsSeparator(s, c)
  {
    var rest := Split(s[1..], c);
    var last := rest[|rest| - 1];
    assert Split(s, c) == [[]] + rest;
    assert s[1..][|s[1..]| - |last|..] == s[|s| - |last|..];
    if Count(s[1..], c) > 0 {
      assert s[|s| - |last| - 1] == s[1..][|s[1..]| - |last| - 1];
    }
  }

  lemma SplitLastAtOther(s: string, c: char)
    requires s != [] && s[0] != c
    requires LastPieceFollowsSeparator(s[1..], c)
    ensures LastPieceFollowsSeparator(s, c)
  {
    var rest := Split(s[1..], c);
    var last := rest[|rest| - 1];
    assert Split(s, c) == [[s[0]] + rest[0]] + rest[1..];
    if |rest| == 1 {
      assert s == [s[0]] + s[1..];
    } else {
      assert Split(s, c)[|Split(s, c)| - 1] == last;
      assert s[1..][|s[1..]| - |last|..] == s[|s| - |last|..];
      assert s[|s| - |last| - 1] == s[1..][|s[1..]| - |last| - 1];
    }
  }

  /** The characters JavaScript's `\s` and `String.prototype.trim` treat as white space. */
  predicate IsSpace(ch: char) {
    || ch == '\t' || ch == '\n' || ch == '\U{000B}' || ch == '\U{000C}' || ch == '\r'
    || ch == ' ' || ch == '\U{00A0}' || ch == '\U{1680}'
    || ('\U{2000}' <= ch <= '\U{200A}')
    || ch == '\U{2028}' || ch == '\U{2029}' || ch == '\U{202F}' || ch == '\U{205F}'
    || ch == '\U{3000}' || ch == '\U{FEFF}'
  }

  /** The string with its leading white space removed. */
  function TrimStart(s: string): (r: string)
    ensures EndsWith(s, r)
    ensures r == [] || !IsSpace(r[0])
    ensures forall i :: 0 <= i < |s| - |r| ==> IsSpace(s[i])
  {
    if s != [] && IsSpace(s[0]) then
      var r := TrimStart(s[1..]);
      assert s[1..][|s[1..]| - |r|..] == s[|s| - |r|..];
      r
    else s
  }

  /** The string with its trailing white space removed. */
  function TrimEnd(s: string): (r: string)
    ensures StartsWith(s, r)
    ensures r == [] || !IsSpace(r[|r| - 1])
    ensures forall i :: |r| <= i < |s| ==> IsSpace(s[i])
  {
    if s != [] && IsSpace(s[|s| - 1]) then
      var r := TrimEnd(s[..|s| - 1]);
      assert s[..|s| - 1][..|r|] == s[..|r|];
      r
    else s
  }

  /** `String.prototype.trim`: the middle of `s` between its leading and trailing white space. */
  function Trim(s: string): (r: string)
    ensures OccursAt(s, r, TrimOffset(s))
    ensures forall k :: 0 <= k < TrimOffset(s) ==> IsSpace(s[k])
    ensures forall k :: TrimOffset(s) + |r| <= k < |s| ==> IsSpace(s[k])
    ensures r == [] || (!IsSpace(r[0]) && !IsSpace(r[|r| - 1]))
  {
    var t := TrimStart(s);
    var r := TrimEnd(t);
    assert t == s[|s| - |t|..];
    assert r != [] ==> r[0] == t[0];
    r
  }

  /** Where the trimmed text starts: the length of the leading white space. */
  function TrimOffset(s: string): nat {
    |s| - |TrimStart(s)|
  }

  /** The first `n` elements, or all of them when there are fewer (`slice(0, n)`). */
  function Take<T>(xs: seq<T>, n: nat): (r: seq<T>)
    ensures |r| == if |xs| < n then |xs| else n
    ensures r == xs[..|r|]
  {
    if |xs| <= n then xs else xs[..n]
  }
}
