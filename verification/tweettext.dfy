/**
 * Text of the two Twitter strategies: the cleaning of profile tweet texts done in the page,
 * the profile document, and the markdown of a single tweet from the syndication payload.
 */
module TweetText {
  import opened Wrappers
  import opened Strings

  /** Profile tweets kept per page. */
  const MaxProfileTweets: nat := 10

  predicate IsDigit(ch: char) {
    '0' <= ch <= '9'
  }

  /** `s` starts with a match of `\d+K|\d+M`: digits, then a `K` or an `M`. */
  predicate CountAtStart(s: string)
    decreases |s|
  {
    |s| >= 2 && IsDigit(s[0]) && (s[1] == 'K' || s[1] == 'M' || CountAtStart(s[1..]))
  }

  /**
   * `.split(/\d+K|\d+M/)[0]`: the text before the leftmost engagement count
   * (the whole text when there is none).
   */
  function CutAtCount(s: string): (r: string)
    ensures StartsWith(s, r)
    ensures forall i :: 0 <= i < |r| ==> !CountAtStart(s[i..])
    ensures |r| < |s| ==> CountAtStart(s[|r|..])
    decreases |s|
  {
    if s == [] || CountAtStart(s) then []
    else
      var rest := CutAtCount(s[1..]);
      assert forall i :: 1 <= i <= |rest| ==> s[i..] == s[1..][i - 1..];
      [s[0]] + rest
  }

  /** The single-character replacements: NBSP to a space, `·` and `•` to a dash. */
  function MapChar(ch: char): char {
    if ch == '\U{00A0}' then ' '
    else if ch == '\U{00B7}' || ch == '\U{2022}' then '-'
    else ch
  }

  function MapChars(s: string): (r: string)
    ensures |r| == |s|
    ensures forall i :: 0 <= i < |r| ==> r[i] == MapChar(s[i])
  {
    if s == [] then [] else [MapChar(s[0])] + MapChars(s[1..])
  }

  /** The length of the white-space run at the start of `s`. */
  function SpaceRun(s: string): (n: nat)
    ensures n <= |s|
    ensures forall i :: 0 <= i < n ==> IsSpace(s[i])
    ensures n < |s| ==> !IsSpace(s[n])
  {
    if s != [] && IsSpace(s[0]) then 1 + SpaceRun(s[1..]) else 0
  }

  /**
   * `.replace(/\s*-\s*\/g, ' - ')`: scanning from the left, a dash together with the white space
   * around it becomes exactly one space, the dash, and one space.
   */
  function SpaceDashes(s: string): (r: string)
    ensures DashesPadded(r)
    decreases |s|
  {
    if s == [] then []
    else
      var end := DashRunEnd(s);
      if end > 0 then
        var rest := SpaceDashes(s[end..]);
        PaddedAfterDash(rest);
        " - " + rest
      else
        var rest := SpaceDashes(s[1..]);
        PaddedAfterChar(s[0], rest);
        [s[0]] + rest
  }

  /** Every dash has a plain space on each side of it. */
  predicate DashesPadded(r: string) {
    forall i :: 0 <= i < |r| && r[i] == '-' ==> 0 < i < |r| - 1 && r[i - 1] == ' ' && r[i + 1] == ' '
  }

  /** A padded dash in front keeps the text padded. */
  lemma PaddedAfterDash(rest: string)
    requires DashesPadded(rest)
    ensures DashesPadded(" - " + rest)
  {
    var r := " - " + rest;
    forall i | 0 <= i < |r| && r[i] == '-' ensures 0 < i < |r| - 1 && r[i - 1] == ' ' && r[i + 1] == ' ' {
      if i >= 3 {
        assert r[i] == rest[i - 3];
      }
    }
  }

  /** A character other than a dash in front keeps the text padded. */
  lemma PaddedAfterChar(c: char, rest: string)
    requires c != '-' && DashesPadded(rest)
    ensures DashesPadded([c] + rest)
  {
    var r := [c] + rest;
    forall i | 0 <= i < |r| && r[i] == '-' ensures 0 < i < |r| - 1 && r[i - 1] == ' ' && r[i + 1] == ' ' {
      assert r[i] == rest[i - 1];
    }
  }

  /**
   * Where a leading run of white space, a dash and more white space ends, or 0 when `s` does not
   * start with such a run.
   */
  function DashRunEnd(s: string): (end: nat)
    ensures end <= |s|
  {
    var before := SpaceRun(s);
    if before < |s| && s[before] == '-' then before + 1 + SpaceRun(s[before + 1..]) else 0
  }

  /** No two white-space characters side by side, and the only white space is the plain space. */
  predicate Collapsed(s: string) {
    && (forall i :: 0 <= i < |s| && IsSpace(s[i]) ==> s[i] == ' ')
    && (forall i, j :: 0 <= i < |s| && 0 <= j < |s| && j == i + 1 ==> !(IsSpace(s[i]) && IsSpace(s[j])))
  }

  /** `.replace(/\s+/g, ' ')`: every run of white space becomes one space. */
  function CollapseSpaces(s: string): (r: string)
    ensures Collapsed(r)
    ensures |r| > 0 ==> |s| > 0 && (IsSpace(r[0]) <==> IsSpace(s[0]))
    ensures |s| > 0 ==> |r| > 0 && (IsSpace(r[|r| - 1]) <==> IsSpace(s[|s| - 1]))
    decreases |s|
  {
    if s == [] then []
    else if IsSpace(s[0]) then
      var n := SpaceRun(s);
      [' '] + CollapseSpaces(s[n..])
    else [s[0]] + CollapseSpaces(s[1..])
  }

  /** The length of the run of characters other than white space at the start of `s`. */
  function WordRun(s: string): (n: nat)
    ensures n <= |s|
    ensures forall i :: 0 <= i < n ==> !IsSpace(s[i])
    ensures n < |s| ==> IsSpace(s[n])
  {
    if s != [] && !IsSpace(s[0]) then 1 + WordRun(s[1..]) else 0
  }

  /** The words of `s`: its maximal runs of characters other than white space, in order. */
  function Words(s: string): seq<string>
    decreases |s|
  {
    if s == [] then []
    else if IsSpace(s[0]) then Words(s[1..])
    else
      var n := WordRun(s);
      [s[..n]] + Words(s[n..])
  }

  /** The words after putting a visible `c` in front: glued to the first word, or a word of its own. */
  function ConsWord(c: char, words: seq<string>, glued: bool): seq<string> {
    if glued && words != [] then [[c] + words[0]] + words[1..] else [[c]] + words
  }

  /** Whether `x` starts with a visible character, which a character put in front joins. */
  predicate StartsVisible(x: string) {
    x != [] && !IsSpace(x[0])
  }

  /** A character other than white space in front of `x` joins the first word of `x`, or forms a word of its own. */
  lemma WordsCons(c: char, x: string)
    requires !IsSpace(c)
    ensures Words([c] + x) == ConsWord(c, Words(x), StartsVisible(x))
  {
    var y := [c] + x;
    assert y[1..] == x;
    var m := WordRun(x);
    assert WordRun(y) == 1 + m;
    assert y[..1 + m] == [c] + x[..m];
    assert y[1 + m..] == x[m..];
  }

  /** `WordsCons` for a text split into its first character and the rest. */
  lemma WordsOfFront(s: string)
    requires s != [] && !IsSpace(s[0])
    ensures Words(s) == ConsWord(s[0], Words(s[1..]), StartsVisible(s[1..]))
  {
    WordsCons(s[0], s[1..]);
    assert [s[0]] + s[1..] == s;
  }

  /** Leading white space holds no word. */
  lemma {:induction false} WordsSkipSpaces(s: string, n: nat)
    requires n <= |s|
    requires forall i :: 0 <= i < n ==> IsSpace(s[i])
    ensures Words(s[n..]) == Words(s)
    decreases n
  {
    if n > 0 {
      WordsSkipSpaces(s[1..], n - 1);
      assert s[1..][n - 1..] == s[n..];
    }
  }

  /** Collapsing white space keeps the words, each one whole and in order. */
  lemma {:induction false} CollapseKeepsWords(s: string)
    ensures Words(CollapseSpaces(s)) == Words(s)
    decreases |s|
  {
    if s != [] {
      if IsSpace(s[0]) {
        CollapseKeepsWords(s[SpaceRun(s)..]);
        SpaceStepKeepsWords(s);
      } else {
        CollapseKeepsWords(s[1..]);
        VisibleStepKeepsWords(s);
      }
    }
  }

  /** Collapsing a leading white-space run keeps the words, given that the rest keeps them. */
  lemma SpaceStepKeepsWords(s: string)
    requires s != [] && IsSpace(s[0])
    requires Words(CollapseSpaces(s[SpaceRun(s)..])) == Words(s[SpaceRun(s)..])
    ensures Words(CollapseSpaces(s)) == Words(s)
  {
    var n := SpaceRun(s);
    WordsSkipSpaces(s, n);
    assert ([' '] + CollapseSpaces(s[n..]))[1..] == CollapseSpaces(s[n..]);
  }

  /** Keeping a leading visible character keeps the words, given that the rest keeps them. */
  lemma VisibleStepKeepsWords(s: string)
    requires s != [] && !IsSpace(s[0])
    requires Words(CollapseSpaces(s[1..])) == Words(s[1..])
    ensures Words(CollapseSpaces(s)) == Words(s)
  {
    var c := CollapseSpaces(s);
    assert c[0] == s[0] && c[1..] == CollapseSpaces(s[1..]);
    WordsOfFront(c);
    WordsOfFront(s);
  }

  /** The characters of `s` that are not white space, in order. */
  function Visible(s: string): string {
    if s == [] then [] else (if IsSpace(s[0]) then [] else [s[0]]) + Visible(s[1..])
  }

  lemma {:induction false} VisibleSkipsRun(s: string, n: nat)
    requires n <= |s|
    requires forall i :: 0 <= i < n ==> IsSpace(s[i])
    ensures Visible(s[n..]) == Visible(s)
    decreases n
  {
    if n > 0 {
      VisibleSkipsRun(s[1..], n - 1);
      assert s[1..][n - 1..] == s[n..];
    }
  }

  /** Collapsing white space keeps every other character, in order. */
  lemma {:induction false} CollapseKeepsText(s: string)
    ensures Visible(CollapseSpaces(s)) == Visible(s)
    decreases |s|
  {
    if s != [] {
      if IsSpace(s[0]) {
        var n := SpaceRun(s);
        CollapseKeepsText(s[n..]);
        VisibleSkipsRun(s, n);
        assert Visible([' '] + CollapseSpaces(s[n..])) == Visible(CollapseSpaces(s[n..]));
      } else {
        CollapseKeepsText(s[1..]);
        assert Visible([s[0]] + CollapseSpaces(s[1..])) == [s[0]] + Visible(CollapseSpaces(s[1..]));
      }
    }
  }

  lemma {:induction false} VisibleConcat(a: string, b: string)
    ensures Visible(a + b) == Visible(a) + Visible(b)
    decreases |a|
  {
    if a != [] {
      VisibleConcat(a[1..], b);
      assert (a + b)[0] == a[0];
      assert (a + b)[1..] == a[1..] + b;
    } else {
      assert a + b == b;
    }
  }

  lemma {:induction false} VisibleOfSpaces(s: string)
    requires forall i :: 0 <= i < |s| ==> IsSpace(s[i])
    ensures Visible(s) == []
    decreases |s|
  {
    if s != [] {
      VisibleOfSpaces(s[1..]);
    }
  }

  lemma VisibleSpacedDash(rest: string)
    ensures Visible(" - " + rest) == "-" + Visible(rest)
  {
    VisibleOfSpaces(" ");
    VisibleConcat(" ", "-" + rest);
    VisibleConcat("-", " " + rest);
    VisibleConcat(" ", rest);
    assert " - " + rest == " " + ("-" + (" " + rest));
  }

  /** The visible text of `s` when a run of `before` spaces, a dash and `after` more spaces lead it. */
  lemma DashRunVisible(s: string, before: nat, after: nat)
    requires before < |s| && s[before] == '-'
    requires forall i :: 0 <= i < before ==> IsSpace(s[i])
    requires after <= |s| - before - 1
    requires forall i :: before + 1 <= i < before + 1 + after ==> IsSpace(s[i])
    ensures Visible(s) == "-" + Visible(s[before + 1 + after..])
  {
    VisibleSkipsRun(s, before);
    assert s[before..] == "-" + s[before + 1..];
    VisibleConcat("-", s[before + 1..]);
    var tail := s[before + 1..];
    assert forall i :: 0 <= i < after ==> tail[i] == s[before + 1 + i];
    VisibleSkipsRun(tail, after);
    assert tail[after..] == s[before + 1 + after..];
  }

  /** The dash run at the front of `s` holds only its dash as visible text. */
  lemma DashRunAt(s: string)
    requires DashRunEnd(s) > 0
    ensures Visible(s) == "-" + Visible(s[DashRunEnd(s)..])
  {
    var before := SpaceRun(s);
    var tail := s[before + 1..];
    var after := SpaceRun(tail);
    assert forall i :: before + 1 <= i < before + 1 + after ==> s[i] == tail[i - before - 1];
    DashRunVisible(s, before, after);
  }

  /** One dash step of `SpaceDashes` keeps the visible text, given that the rest does. */
  lemma DashStepKeepsText(s: string)
    requires DashRunEnd(s) > 0
    requires Visible(SpaceDashes(s[DashRunEnd(s)..])) == Visible(s[DashRunEnd(s)..])
    ensures Visible(SpaceDashes(s)) == Visible(s)
  {
    VisibleSpacedDash(SpaceDashes(s[DashRunEnd(s)..]));
    DashRunAt(s);
  }

  /** One plain step of `SpaceDashes` keeps the visible text, given that the rest does. */
  lemma PlainStepKeepsText(s: string)
    requires s != [] && DashRunEnd(s) == 0
    requires Visible(SpaceDashes(s[1..])) == Visible(s[1..])
    ensures Visible(SpaceDashes(s)) == Visible(s)
  {
    assert SpaceDashes(s) == [s[0]] + SpaceDashes(s[1..]);
    VisibleConcat([s[0]], SpaceDashes(s[1..]));
    VisibleConcat([s[0]], s[1..]);
    assert s == [s[0]] + s[1..];
  }

  /** Spacing the dashes only adds or removes white space. */
  lemma {:induction false} SpaceDashesKeepsText(s: string)
    ensures Visible(SpaceDashes(s)) == Visible(s)
    decreases |s|
  {
    if s != [] {
      if DashRunEnd(s) > 0 {
        SpaceDashesKeepsText(s[DashRunEnd(s)..]);
        DashStepKeepsText(s);
      } else {
        SpaceDashesKeepsText(s[1..]);
        PlainStepKeepsText(s);
      }
    }
  }

  predicate Blank(s: string) {
    forall i :: 0 <= i < |s| ==> IsSpace(s[i])
  }

  /** A text without dashes is left as it is. */
  lemma {:induction false} SpaceDashesWithoutDash(s: string)
    requires '-' !in s
    ensures SpaceDashes(s) == s
    decreases |s|
  {
    if s != [] {
      assert DashRunEnd(s) == 0 by {
        var k := SpaceRun(s);
        assert k < |s| ==> s[k] in s;
      }
      SpaceDashesWithoutDash(s[1..]);
      assert s == [s[0]] + s[1..];
    }
  }

  /** Without a dash of its own, `[c] + x` keeps `c` at the front of its trailing-space trim when `x` is not blank. */
  lemma {:induction false} TrimEndCons(c: char, x: string)
    requires !Blank(x)
    ensures TrimEnd([c] + x) == [c] + TrimEnd(x)
    decreases |x|
  {
    var y := [c] + x;
    if IsSpace(x[|x| - 1]) {
      var x' := x[..|x| - 1];
      assert !Blank(x') by {
        var i :| 0 <= i < |x| && !IsSpace(x[i]);
        assert i < |x| - 1 && x'[i] == x[i];
      }
      TrimEndCons(c, x');
      assert y[..|y| - 1] == [c] + x';
    }
  }

  /** The trailing-space trim of a blank text is empty; of one visible character before blanks, that character. */
  lemma TrimEndShapes(a: string)
    ensures Blank(a) ==> TrimEnd(a) == []
    ensures a != [] && !IsSpace(a[0]) && Blank(a[1..]) ==> TrimEnd(a) == [a[0]]
  {
    var r := TrimEnd(a);
    if r != [] {
      assert r[|r| - 1] == a[|r| - 1];
      if |r| > 1 && a != [] {
        assert a[1..][|r| - 2] == a[|r| - 1];
      }
    }
  }

  /** Skipping the leading white space is the trim of the start. */
  lemma TrimStartSkipsRun(b: string)
    ensures TrimStart(b) == b[SpaceRun(b)..]
  {
    var r := TrimStart(b);
    assert r != [] ==> r[0] == b[|b| - |r|];
    assert b[|b| - |r|..] == r;
  }

  /** A blank text, a dash and more text: the dash run collapses to ` - ` in front of the rest's dashes. */
  lemma BlankBeforeDash(a: string, b: string)
    requires Blank(a)
    ensures SpaceDashes(a + "-" + b) == " - " + SpaceDashes(TrimStart(b))
  {
    var s := a + "-" + b;
    BlankDashRun(a, b);
    TrimStartSkipsRun(b);
    assert s[DashRunEnd(s)..] == b[SpaceRun(b)..];
  }

  /** Behind a blank text, the dash run ends after the dash and the white space that follows it. */
  lemma BlankDashRun(a: string, b: string)
    requires Blank(a)
    ensures DashRunEnd(a + "-" + b) == |a| + 1 + SpaceRun(b)
  {
    var s := a + "-" + b;
    assert s[|a|] == '-';
    assert forall i :: 0 <= i < |a| ==> s[i] == a[i];
    assert SpaceRun(s) == |a|;
    assert s[|a| + 1..] == b;
  }

  /** Text without dashes that is not blank, in front of a dash: its first character is kept as it is. */
  lemma VisibleBeforeDash(a: string, b: string)
    requires '-' !in a && !Blank(a)
    ensures SpaceDashes(a + "-" + b) == [a[0]] + SpaceDashes(a[1..] + "-" + b)
  {
    var s := a + "-" + b;
    var i :| 0 <= i < |a| && !IsSpace(a[i]);
    assert !IsSpace(s[i]);
    var k := SpaceRun(s);
    assert k <= i;
    assert s[k] == a[k] && a[k] in a;
    assert DashRunEnd(s) == 0;
    assert s[1..] == a[1..] + "-" + b;
  }

  /** A text that is not blank but whose tail is blank starts with its only visible character. */
  lemma FirstVisibleBeforeBlank(a: string)
    requires !Blank(a) && a != [] && Blank(a[1..])
    ensures !IsSpace(a[0])
  {
    var i :| 0 <= i < |a| && !IsSpace(a[i]);
    assert i == 0;
  }

  /**
   * The first dash and the white space around it become ` - `: the text before keeps everything
   * but its trailing white space, the text after loses its leading white space, and the rest of
   * the dashes are spaced in turn.
   */
  lemma {:induction false} SpaceDashesAtFirstDash(a: string, b: string)
    requires '-' !in a
    ensures SpaceDashes(a + "-" + b) == TrimEnd(a) + " - " + SpaceDashes(TrimStart(b))
    decreases |a|
  {
    if Blank(a) {
      TrimEndShapes(a);
      BlankBeforeDash(a, b);
    } else if Blank(a[1..]) {
      LastVisibleBeforeDash(a, b);
    } else {
      assert '-' !in a[1..] by {
        assert forall ch :: ch in a[1..] ==> ch in a;
      }
      SpaceDashesAtFirstDash(a[1..], b);
      VisibleStepBeforeDash(a, b);
    }
  }

  /** The first dash right after the last visible character of `a`. */
  lemma LastVisibleBeforeDash(a: string, b: string)
    requires '-' !in a && !Blank(a) && Blank(a[1..])
    ensures SpaceDashes(a + "-" + b) == TrimEnd(a) + " - " + SpaceDashes(TrimStart(b))
  {
    VisibleBeforeDash(a, b);
    BlankBeforeDash(a[1..], b);
    FirstVisibleBeforeBlank(a);
    TrimEndShapes(a);
  }

  /** One visible step in front of the first dash, given the claim for the rest of `a`. */
  lemma VisibleStepBeforeDash(a: string, b: string)
    requires '-' !in a && !Blank(a) && !Blank(a[1..])
    requires SpaceDashes(a[1..] + "-" + b) == TrimEnd(a[1..]) + " - " + SpaceDashes(TrimStart(b))
    ensures SpaceDashes(a + "-" + b) == TrimEnd(a) + " - " + SpaceDashes(TrimStart(b))
  {
    VisibleBeforeDash(a, b);
    TrimEndFront(a);
    PrependToSpaced(a[0], TrimEnd(a[1..]), SpaceDashes(TrimStart(b)), TrimEnd(a));
  }

  /** `TrimEndCons` for a text split into its first character and the rest. */
  lemma TrimEndFront(a: string)
    requires a != [] && !Blank(a[1..])
    ensures TrimEnd(a) == [a[0]] + TrimEnd(a[1..])
  {
    TrimEndCons(a[0], a[1..]);
    assert [a[0]] + a[1..] == a;
  }

  lemma PrependToSpaced(c: char, t: string, x: string, u: string)
    requires u == [c] + t
    ensures [c] + (t + " - " + x) == u + " - " + x
  {
  }

  lemma SpacesAround(s: string, r: string, i: nat)
    requires OccursAt(s, r, i)
    requires forall k :: 0 <= k < i ==> IsSpace(s[k])
    requires forall k :: i + |r| <= k < |s| ==> IsSpace(s[k])
    ensures Visible(r) == Visible(s)
  {
    var pre, post := s[..i], s[i + |r|..];
    assert s == pre + r + post;
    VisibleConcat(pre + r, post);
    VisibleConcat(pre, r);
    VisibleOfSpaces(pre);
    assert forall k :: 0 <= k < |post| ==> post[k] == s[i + |r| + k];
    VisibleOfSpaces(post);
  }

  /** Trimming only removes white space. */
  lemma TrimKeepsText(s: string)
    ensures Visible(Trim(s)) == Visible(s)
  {
    SpacesAround(s, Trim(s), TrimOffset(s));
  }

  /**
   * Apart from the text after the first engagement count and the NBSP and bullet replacements,
   * cleaning a tweet changes white space only: the other characters survive, in order.
   */
  lemma CleanTweetKeepsText(raw: string)
    ensures Visible(CleanTweet(raw)) == Visible(MapChars(CutAtCount(raw)))
  {
    var mapped := MapChars(CutAtCount(raw));
    SpaceDashesKeepsText(mapped);
    CollapseKeepsText(SpaceDashes(mapped));
    TrimKeepsText(CollapseSpaces(SpaceDashes(mapped)));
  }

  /** Trimming a collapsed text leaves it collapsed. */
  lemma TrimKeepsCollapsed(s: string)
    requires Collapsed(s)
    ensures Collapsed(Trim(s))
  {
    var r := Trim(s);
    var i := TrimOffset(s);
    forall k | 0 <= k < |r| && IsSpace(r[k]) ensures r[k] == ' ' {
      assert r[k] == s[i + k];
    }
    forall k, j | 0 <= k < |r| && 0 <= j < |r| && j == k + 1 ensures !(IsSpace(r[k]) && IsSpace(r[j])) {
      assert r[k] == s[i + k] && r[j] == s[i + j];
    }
  }

  /** The only white space a collapsed text holds is the plain space, so no NBSP is left. */
  lemma CollapsedHasNoNbsp(t: string)
    requires Collapsed(t)
    ensures '\U{00A0}' !in t
  {
    forall i | 0 <= i < |t| ensures t[i] != '\U{00A0}' {
      if IsSpace(t[i]) {
        assert t[i] == ' ';
      }
    }
  }

  /** What a cleaned tweet text looks like: collapsed white space, no NBSP, trimmed. */
  predicate CleanText(t: string) {
    && Collapsed(t)
    && '\U{00A0}' !in t
    && (t == [] || (!IsSpace(t[0]) && !IsSpace(t[|t| - 1])))
  }

  /**
   * One tweet's text as the profile page cleans it: cut at the first engagement count, replace
   * NBSP and bullets, space the dashes, collapse white space, trim. The two quote replacements
   * of the page script map a character to itself and are left out.
   */
  function CleanTweet(raw: string): (t: string)
    ensures CleanText(t)
  {
    var collapsed := CollapseSpaces(SpaceDashes(MapChars(CutAtCount(raw))));
    var t := Trim(collapsed);
    TrimKeepsCollapsed(collapsed);
    CollapsedHasNoNbsp(t);
    t
  }

  /** The cleaned text of every article, in page order. */
  function CleanAll(raws: seq<string>): (r: seq<string>)
    ensures |r| == |raws|
    ensures forall i :: 0 <= i < |raws| ==> r[i] == CleanTweet(raws[i])
  {
    seq(|raws|, i requires 0 <= i < |raws| => CleanTweet(raws[i]))
  }

  /** `.filter(text => text.length > 0)`. */
  function NonEmpty(xs: seq<string>): (r: seq<string>)
    ensures forall x :: x in r <==> x in xs && x != []
    ensures |r| <= |xs|
  {
    if xs == [] then []
    else if xs[0] == [] then NonEmpty(xs[1..])
    else [xs[0]] + NonEmpty(xs[1..])
  }

  /** The filter keeps the order of the articles: one more text at the end adds at most that text, at the end. */
  lemma {:induction false} NonEmptySnoc(xs: seq<string>, x: string)
    ensures NonEmpty([]) == []
    ensures NonEmpty(xs + [x]) == NonEmpty(xs) + (if x != [] then [x] else [])
    decreases |xs|
  {
    if xs != [] {
      assert (xs + [x])[1..] == xs[1..] + [x];
      NonEmptySnoc(xs[1..], x);
    }
  }

  /** The tweets a profile lists: cleaned, empty ones dropped, `.slice(0, 10)`. */
  function ProfileTweets(raws: seq<string>): (r: seq<string>)
    ensures |r| <= MaxProfileTweets
    ensures forall t :: t in r ==> t != [] && CleanText(t)
    ensures forall t :: t in r ==> t in CleanAll(raws)
  {
    var all := NonEmpty(CleanAll(raws));
    var r := Take(all, MaxProfileTweets);
    assert forall t :: t in r ==> t in all;
    CleanAllClean(raws);
    r
  }

  lemma CleanAllClean(raws: seq<string>)
    ensures forall t :: t in CleanAll(raws) ==> CleanText(t)
  {
    var cleaned := CleanAll(raws);
    forall t | t in cleaned ensures CleanText(t) {
      var i :| 0 <= i < |cleaned| && cleaned[i] == t;
      assert t == CleanTweet(raws[i]);
    }
  }

  /** What the profile page yields: the `h2` text, the bio text, and each article's inner text. */
  datatype ProfileScrape = ProfileScrape(heading: Option<string>, bio: Option<string>, articles: seq<string>)

  /** `h2?.textContent?.trim() || username`: an absent or blank heading falls back to the username. */
  function ProfileName(heading: Option<string>, username: string): (name: string)
    ensures heading.Some? && Trim(heading.value) != [] ==> name == Trim(heading.value)
    ensures heading.None? || Trim(heading.value) == [] ==> name == username
  {
    match heading
    case Some(h) => if Trim(h) != [] then Trim(h) else username
    case None => username
  }

  /** `### Tweet k`, a newline and the text: one entry of the numbered list. */
  function TweetEntry(k: nat, tweet: string): string {
    "### Tweet " + NatText(k) + "\n" + tweet
  }

  /** The entries numbered from `from` on: `tweets.map((t, i) => ...)`. */
  function TweetEntries(tweets: seq<string>, from: nat): (r: seq<string>)
    ensures |r| == |tweets|
    ensures forall k :: 0 <= k < |tweets| ==> r[k] == TweetEntry(from + k, tweets[k])
    decreases |tweets|
  {
    if tweets == [] then [] else [TweetEntry(from, tweets[0])] + TweetEntries(tweets[1..], from + 1)
  }

  /** The numbered list of a profile, entries separated by a blank line. */
  function NumberedTweets(tweets: seq<string>): string {
    JoinWith(TweetEntries(tweets, 1), "\n\n")
  }

  /** Every listed tweet appears in the list under its one-based number. */
  lemma NumberedTweetsListEach(tweets: seq<string>, k: nat)
    requires k < |tweets|
    ensures Contains(NumberedTweets(tweets), TweetEntry(k + 1, tweets[k]))
  {
    JoinWithHasEach(TweetEntries(tweets, 1), "\n\n", k);
  }

  predicate IsDigitText(s: string) {
    forall i :: 0 <= i < |s| ==> IsDigit(s[i])
  }

  /** Decimal digits of a number, as a template prints it. */
  function NatText(n: nat): (s: string)
    ensures |s| >= 1 && IsDigitText(s)
    ensures n > 0 ==> s[0] != '0'
  {
    var digit := ['0' + (n % 10) as char];
    if n < 10 then digit else NatText(n / 10) + digit
  }

  /** The number a string of decimal digits denotes. */
  function DigitsValue(s: string): nat
    requires IsDigitText(s)
  {
    if s == [] then 0 else 10 * DigitsValue(s[..|s| - 1]) + (s[|s| - 1] - '0') as nat
  }

  /** Reading the printed number back gives the number. */
  lemma {:induction false} NatTextRoundTrip(n: nat)
    ensures DigitsValue(NatText(n)) == n
  {
    var s := NatText(n);
    if n >= 10 {
      NatTextRoundTrip(n / 10);
      assert s[..|s| - 1] == NatText(n / 10);
    }
  }

  /** The tab runs that indent the lines of the profile template. */
  const ProfileIndent := "\t\t\t\t\t\t\t\t\t"
  const ProfileBodyIndent := "\t\t\t\t\t\t\t\t\t\t"

  /** The heading line of a profile document, after the template's leading newline. */
  function ProfileHeading(name: string, username: string): string {
    "\n" + ProfileIndent + "# " + name + " (@" + username + ")\n"
  }

  /** `bio?.textContent?.trim() || ''`. */
  function ProfileBio(bio: Option<string>): string {
    match bio case Some(b) => Trim(b) case None => []
  }

  /** The line that closes a profile document. */
  function ProfileFooter(url: string): string {
    "\n" + ProfileBodyIndent + "Profile URL: " + url
  }

  /** A profile document from its parts: heading, bio, the numbered list, the closing URL line. */
  function ProfileDocument(name: string, username: string, bio: string, list: string, url: string): (md: string)
    ensures StartsWith(md, ProfileHeading(name, username))
    ensures EndsWith(md, ProfileFooter(url))
    ensures Contains(md, list)
  {
    var head := ProfileHeading(name, username);
    var before := ProfileBodyIndent + bio + "\n" + ProfileBodyIndent + "## Recent Tweets\n" + ProfileBodyIndent;
    var foot := ProfileFooter(url);
    PrefixOfConcat(head, before);
    StartsWithExtended(head + before, head, list);
    StartsWithExtended(head + before + list, head, foot);
    ConcatParts(head + before, list, foot);
    head + before + list + foot
  }

  /** The profile document of a scraped page. */
  function ProfileMarkdown(scrape: ProfileScrape, username: string, url: string): (md: string)
    ensures StartsWith(md, ProfileHeading(ProfileName(scrape.heading, username), username))
    ensures EndsWith(md, ProfileFooter(url))
    ensures Contains(md, NumberedTweets(ProfileTweets(scrape.articles)))
  {
    ProfileDocument(ProfileName(scrape.heading, username), username, ProfileBio(scrape.bio),
      NumberedTweets(ProfileTweets(scrape.articles)), url)
  }

  /** The author of a syndication payload. */
  datatype TweetUser = TweetUser(name: Option<string>, screenName: Option<string>)

  /**
   * The fields of the syndication payload the service reads; `raw` is its `JSON.stringify`.
   * Numbers and dates are kept as the text the template prints.
   */
  datatype Tweet = Tweet(
    text: Option<string>,
    user: Option<TweetUser>,
    photos: Option<seq<string>>,
    createdAt: string,
    favoriteCount: string,
    conversationCount: string,
    raw: string)

  /** `user?.name ?? user?.screen_name ?? 'Unknown'`: only an absent field falls through, an empty one does not. */
  function TweetAuthor(user: Option<TweetUser>): (a: string)
    ensures user.Some? && user.value.name.Some? ==> a == user.value.name.value
    ensures user.Some? && user.value.name.None? && user.value.screenName.Some? ==> a == user.value.screenName.value
    ensures (user.None? || (user.value.name.None? && user.value.screenName.None?)) ==> a == "Unknown"
  {
    match user
    case None => "Unknown"
    case Some(u) =>
      match u.name
      case Some(n) => n
      case None => match u.screenName case Some(h) => h case None => "Unknown"
  }

  /** `photos ? photos.map(p => p.url).join(', ') : 'none'`: an empty list is truthy and prints nothing. */
  function TweetImages(photos: Option<seq<string>>): (s: string)
    ensures photos.None? ==> s == "none"
    ensures photos == Some([]) ==> s == []
    ensures photos.Some? ==> forall k :: 0 <= k < |photos.value| ==> Contains(s, photos.value[k])
  {
    match photos
    case None => "none"
    case Some(urls) =>
      forall k | 0 <= k < |urls| ensures Contains(JoinWith(urls, ", "), urls[k]) {
        JoinWithHasEach(urls, ", ", k);
      }
      JoinWith(urls, ", ")
  }

  /** The tab run that indents the lines of the tweet template. */
  const TweetIndent := "\t\t\t\t\t\t\t\t"

  /** The head of a tweet document: author line, blank line, text and image list. */
  function TweetHead(author: string, text: string, images: string): string {
    "Tweet from @" + author + "\n\n" + TweetIndent + text + "\n" + TweetIndent + "Images: " + images + "\n"
  }

  /** The markdown of one tweet: author line, text, images, time and counts, raw payload. */
  function TweetMarkdown(t: Tweet): (md: string)
    requires t.text.Some?
    ensures StartsWith(md, TweetHead(TweetAuthor(t.user), t.text.value, TweetImages(t.photos)))
    ensures EndsWith(md, "raw: " + t.raw)
  {
    var head := TweetHead(TweetAuthor(t.user), t.text.value, TweetImages(t.photos));
    var tail := TweetIndent + "Time: " + t.createdAt + ", Likes: " + t.favoriteCount + ", Retweets: " + t.conversationCount
      + "\n\n" + TweetIndent + "raw: " + t.raw;
    PrefixOfConcat(head, tail);
    var md := head + tail;
    assert md[|md| - |"raw: " + t.raw|..] == "raw: " + t.raw;
    md
  }
}
