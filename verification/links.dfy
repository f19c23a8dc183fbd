/** The link list of subpage mode: anchors under the base URL, de-duplicated, at most ten. */
module Links {
  import opened Strings

  /** Links handed to the batch in subpage mode. */
  const MaxSubpages: nat := 10

  predicate NoDuplicates(xs: seq<string>) {
    forall i, j :: 0 <= i < j < |xs| ==> xs[i] != xs[j]
  }

  /** The anchors whose href starts with the base URL, in document order. */
  function UnderBase(hrefs: seq<string>, base: string): (r: seq<string>)
    ensures forall x :: x in r <==> x in hrefs && StartsWith(x, base)
    ensures |r| <= |hrefs|
  {
    if hrefs == [] then []
    else
      var rest := UnderBase(hrefs[1..], base);
      if StartsWith(hrefs[0], base) then [hrefs[0]] + rest else rest
  }

  /** The filter keeps document order: one more anchor at the end adds at most that anchor, at the end. */
  lemma {:induction false} UnderBaseSnoc(hrefs: seq<string>, h: string, base: string)
    ensures UnderBase([], base) == []
    ensures UnderBase(hrefs + [h], base) == UnderBase(hrefs, base) + (if StartsWith(h, base) then [h] else [])
    decreases |hrefs|
  {
    if hrefs != [] {
      assert (hrefs + [h])[1..] == hrefs[1..] + [h];
      UnderBaseSnoc(hrefs[1..], h, base);
    }
  }

  /**
   * `Array.from(new Set(xs))` with `seen` already inserted: walk the list once and keep an
   * element only when the set does not hold it yet.
   */
  function Dedupe(xs: seq<string>, seen: set<string>): (r: seq<string>)
    ensures NoDuplicates(r)
    ensures forall x :: x in r <==> x in xs && x !in seen
    decreases |xs|
  {
    if xs == [] then []
    else if xs[0] in seen then Dedupe(xs[1..], seen)
    else [xs[0]] + Dedupe(xs[1..], seen + {xs[0]})
  }

  /**
   * Reference reading of first-occurrence order: the element at index `i` is kept exactly when
   * it is not in `seen` and does not occur before `i`.
   */
  function FirstOccurrences(xs: seq<string>, seen: set<string>): seq<string>
    decreases |xs|
  {
    if xs == [] then []
    else
      var init := xs[..|xs| - 1];
      var last := xs[|xs| - 1];
      FirstOccurrences(init, seen) + (if last in seen || last in init then [] else [last])
  }

  lemma {:induction false} DedupeSnoc(xs: seq<string>, y: string, seen: set<string>)
    ensures Dedupe(xs + [y], seen) == Dedupe(xs, seen) + (if y in seen || y in xs then [] else [y])
    decreases |xs|
  {
    if xs != [] {
      assert (xs + [y])[1..] == xs[1..] + [y];
      if xs[0] in seen {
        DedupeSnoc(xs[1..], y, seen);
        assert y in xs <==> y == xs[0] || y in xs[1..];
      } else {
        DedupeSnoc(xs[1..], y, seen + {xs[0]});
        assert y in xs <==> y == xs[0] || y in xs[1..];
      }
    }
  }

  /** The set-based walk keeps exactly the first occurrences, in the order they occur. */
  lemma {:induction false} DedupeKeepsFirstOccurrences(xs: seq<string>, seen: set<string>)
    ensures Dedupe(xs, seen) == FirstOccurrences(xs, seen)
    decreases |xs|
  {
    if xs != [] {
      var init := xs[..|xs| - 1];
      var last := xs[|xs| - 1];
      assert xs == init + [last];
      DedupeKeepsFirstOccurrences(init, seen);
      DedupeSnoc(init, last, seen);
    }
  }

  /**
   * `crawlSubpages`/`extractLinks`: anchors starting with the base URL, without duplicates,
   * in first-occurrence order, cut to ten (`splice(0, 10)`).
   */
  function CrawlLinks(hrefs: seq<string>, base: string): (r: seq<string>)
    ensures |r| <= MaxSubpages
    ensures NoDuplicates(r)
    ensures forall x :: x in r ==> x in hrefs && StartsWith(x, base)
    ensures r == Take(FirstOccurrences(UnderBase(hrefs, base), {}), MaxSubpages)
  {
    var unique := Dedupe(UnderBase(hrefs, base), {});
    DedupeKeepsFirstOccurrences(UnderBase(hrefs, base), {});
    Take(unique, MaxSubpages)
  }

  /** When at most ten distinct links qualify, every one of them is crawled. */
  lemma FewLinksAllKept(hrefs: seq<string>, base: string, x: string)
    requires |Dedupe(UnderBase(hrefs, base), {})| <= MaxSubpages
    requires x in hrefs && StartsWith(x, base)
    ensures x in CrawlLinks(hrefs, base)
  {
  }
}
