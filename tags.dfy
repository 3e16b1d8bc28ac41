/** The derived tag index of a collection and the tag filter the router
    applies: `getTags` is flatten-then-uniq over every record's tags, and the
    filter keeps the records whose tag list contains the requested tag. */
module Tags {
  import opened LinkModel

  /** No element occurs twice. */
  ghost predicate NoDuplicates<T>(s: seq<T>) {
    forall i, j :: 0 <= i < j < |s| ==> s[i] != s[j]
  }

  /** `a` is `b` with some elements dropped, the rest in their original order. */
  ghost predicate IsSubsequence<T>(a: seq<T>, b: seq<T>) {
    a == [] ||
    (b != [] &&
     ((a[|a| - 1] == b[|b| - 1] && IsSubsequence(a[..|a| - 1], b[..|b| - 1])) ||
      IsSubsequence(a, b[..|b| - 1])))
  }

  lemma {:induction false} SubsequenceShorter<T>(a: seq<T>, b: seq<T>)
    requires IsSubsequence(a, b)
    ensures |a| <= |b|
  {
    if a != [] {
      if a[|a| - 1] == b[|b| - 1] && IsSubsequence(a[..|a| - 1], b[..|b| - 1]) {
        SubsequenceShorter(a[..|a| - 1], b[..|b| - 1]);
      } else {
        SubsequenceShorter(a, b[..|b| - 1]);
      }
    }
  }

  /** One level of flattening: the concatenation of the lists, in order. */
  function Flatten<T>(xss: seq<seq<T>>): seq<T> {
    if xss == [] then [] else xss[0] + Flatten(xss[1..])
  }

  lemma {:induction false} FlattenMembership<T>(xss: seq<seq<T>>, x: T)
    ensures x in Flatten(xss) <==> exists i :: 0 <= i < |xss| && x in xss[i]
  {
    if xss != [] {
      FlattenMembership(xss[1..], x);
      assert forall i :: 1 <= i < |xss| ==> xss[i] == xss[1..][i - 1];
      if x in Flatten(xss[1..]) {
        var i :| 0 <= i < |xss[1..]| && x in xss[1..][i];
        assert x in xss[i + 1];
      }
    }
  }

  /** The elements of `s`, each kept at its first occurrence. */
  function Uniq(s: seq<string>): (r: seq<string>)
    ensures NoDuplicates(r)
    ensures forall x :: x in r <==> x in s
  {
    if s == [] then []
    else
      var u := Uniq(s[..|s| - 1]);
      assert s == s[..|s| - 1] + [s[|s| - 1]];
      if s[|s| - 1] in u then u else u + [s[|s| - 1]]
  }

  lemma {:induction false} UniqIsSubsequence(s: seq<string>)
    ensures IsSubsequence(Uniq(s), s)
  {
    if s != [] {
      var init := s[..|s| - 1];
      UniqIsSubsequence(init);
      if s[|s| - 1] !in Uniq(init) {
        assert Uniq(s)[..|Uniq(s)| - 1] == Uniq(init);
      } else if Uniq(s) != [] {
        // Uniq(s) == Uniq(init): skipping the last element of s keeps the match.
        assert s[..|s| - 1] == init;
      }
    }
  }

  lemma {:induction false} UniqOfDistinct(s: seq<string>)
    requires NoDuplicates(s)
    ensures Uniq(s) == s
  {
    if s != [] {
      var init := s[..|s| - 1];
      UniqOfDistinct(init);
      assert s[|s| - 1] !in init;
      assert s == init + [s[|s| - 1]];
    }
  }

  /** The tag list of every record, in collection order (`pluck('tags')`). */
  function Pluck(links: seq<Link>): (r: seq<seq<string>>)
    ensures |r| == |links|
    ensures forall i :: 0 <= i < |links| ==> r[i] == links[i].tags
  {
    if links == [] then [] else [links[0].tags] + Pluck(links[1..])
  }

  /** The collection's `getTags`: no tag is listed twice, and a tag is
      listed exactly when some record of the collection carries it. */
  function TagIndex(links: seq<Link>): (r: seq<string>)
    ensures NoDuplicates(r)
    ensures forall t :: t in r <==> Carried(links, t)
  {
    PluckedMembership(links);
    Uniq(Flatten(Pluck(links)))
  }

  /** True when some record of `links` carries `tag`. */
  ghost predicate Carried(links: seq<Link>, tag: string) {
    exists i :: 0 <= i < |links| && tag in links[i].tags
  }

  lemma PluckedMembership(links: seq<Link>)
    ensures forall t :: t in Flatten(Pluck(links)) <==> Carried(links, t)
  {
    forall t ensures t in Flatten(Pluck(links)) <==> Carried(links, t) {
      FlattenMembership(Pluck(links), t);
    }
  }

  /** The position of the first occurrence of `x` in `s`. */
  function FirstIndex(s: seq<string>, x: string): (i: nat)
    requires x in s
    ensures i < |s| && s[i] == x
    ensures forall k :: 0 <= k < i ==> s[k] != x
  {
    if s[0] == x then 0 else 1 + FirstIndex(s[1..], x)
  }

  /** Appending an element does not move the first occurrence of an
      element already present. */
  lemma FirstIndexAppend(s: seq<string>, y: string, x: string)
    requires x in s
    ensures FirstIndex(s + [y], x) == FirstIndex(s, x)
  {
    var i, j := FirstIndex(s + [y], x), FirstIndex(s, x);
    assert (s + [y])[j] == x;
    if i == |s| {
      assert false;
    }
    assert s[i] == x;
  }

  /** Uniq lists the elements in the order of their first occurrences. */
  lemma {:induction false} UniqFirstOccurrenceOrder(s: seq<string>)
    ensures forall i, j :: 0 <= i < j < |Uniq(s)| ==>
      FirstIndex(s, Uniq(s)[i]) < FirstIndex(s, Uniq(s)[j])
  {
    if s != [] {
      var init, last := s[..|s| - 1], s[|s| - 1];
      assert s == init + [last];
      UniqFirstOccurrenceOrder(init);
      var u, r := Uniq(init), Uniq(s);
      forall k | 0 <= k < |u|
        ensures FirstIndex(s, u[k]) == FirstIndex(init, u[k])
      {
        FirstIndexAppend(init, last, u[k]);
      }
      if last !in u {
        assert r == u + [last];
        assert last !in init;
        assert FirstIndex(s, last) == |init|;
      } else {
        assert r == u;
      }
    }
  }

  /** The tag index lists the tags of the flattened tag lists in the order
      they are first met, walking the records in order and each record's
      tags in order; so it is a subsequence of that flattening. */
  lemma TagIndexOrder(links: seq<Link>)
    ensures IsSubsequence(TagIndex(links), Flatten(Pluck(links)))
    ensures forall i, j :: 0 <= i < j < |TagIndex(links)| ==>
      FirstIndex(Flatten(Pluck(links)), TagIndex(links)[i]) <
      FirstIndex(Flatten(Pluck(links)), TagIndex(links)[j])
  {
    UniqIsSubsequence(Flatten(Pluck(links)));
    UniqFirstOccurrenceOrder(Flatten(Pluck(links)));
  }

  /** An empty (or never fetched) collection has an empty tag index. */
  lemma TagIndexEmpty()
    ensures TagIndex([]) == []
  {
  }

  /** The filter predicate `m.get('tags').indexOf(tag) !== -1`. */
  predicate HasTag(l: Link, tag: string) {
    tag in l.tags
  }

  /** `links.filter(...)`: the records carrying `tag`, in collection order. */
  function FilterByTag(links: seq<Link>, tag: string): (r: seq<Link>)
    ensures forall i :: 0 <= i < |r| ==> HasTag(r[i], tag)
  {
    if links == [] then []
    else
      var init := links[..|links| - 1];
      var last := links[|links| - 1];
      FilterByTag(init, tag) + if HasTag(last, tag) then [last] else []
  }

  /** Every record carrying the tag is kept as often as it occurs, and no
      other record is kept. */
  lemma {:induction false} FilterCounts(links: seq<Link>, tag: string, l: Link)
    ensures multiset(FilterByTag(links, tag))[l] == if HasTag(l, tag) then multiset(links)[l] else 0
  {
    if links != [] {
      var init := links[..|links| - 1];
      var last := links[|links| - 1];
      assert links == init + [last];
      FilterCounts(init, tag, l);
    } else {
      assert multiset(FilterByTag(links, tag)) == multiset{};
    }
  }

  /** The filter keeps the records carrying the tag and nothing else, in
      their original relative order, so the result is never longer. */
  lemma {:induction false} FilterIsSubsequence(links: seq<Link>, tag: string)
    ensures IsSubsequence(FilterByTag(links, tag), links)
    ensures |FilterByTag(links, tag)| <= |links|
  {
    if links != [] {
      var init := links[..|links| - 1];
      var last := links[|links| - 1];
      FilterIsSubsequence(init, tag);
      var r := FilterByTag(links, tag);
      if HasTag(last, tag) {
        assert r[..|r| - 1] == FilterByTag(init, tag);
      } else {
        assert r == FilterByTag(init, tag);
      }
    }
    SubsequenceShorter(FilterByTag(links, tag), links);
  }

  /** A record occurs in the filtered collection exactly when it occurs in
      the original one and carries the tag. */
  lemma FilterMembership(links: seq<Link>, tag: string, l: Link)
    ensures l in FilterByTag(links, tag) <==> l in links && HasTag(l, tag)
  {
    FilterCounts(links, tag, l);
    assert l in FilterByTag(links, tag) <==> multiset(FilterByTag(links, tag))[l] > 0;
    assert l in links <==> multiset(links)[l] > 0;
  }

  /** A collection whose every record carries the tag passes the filter unchanged. */
  lemma {:induction false} FilterKeepsTagged(links: seq<Link>, tag: string)
    requires forall i :: 0 <= i < |links| ==> HasTag(links[i], tag)
    ensures FilterByTag(links, tag) == links
  {
    if links != [] {
      var init := links[..|links| - 1];
      FilterKeepsTagged(init, tag);
      assert links == init + [links[|links| - 1]];
    }
  }

  /** Filtering twice by the same tag changes nothing the second time. */
  lemma FilterIdempotent(links: seq<Link>, tag: string)
    ensures FilterByTag(FilterByTag(links, tag), tag) == FilterByTag(links, tag)
  {
    FilterKeepsTagged(FilterByTag(links, tag), tag);
  }

  /** In the filtered state the tag view shows only tags of the full
      collection, and it shows the requested tag exactly when some record
      of the full collection carries it. */
  lemma FilterTagIndex(links: seq<Link>, tag: string)
    ensures forall t :: t in TagIndex(FilterByTag(links, tag)) ==> t in TagIndex(links)
    ensures tag in TagIndex(FilterByTag(links, tag)) <==> Carried(links, tag)
  {
    var r := FilterByTag(links, tag);
    forall t | Carried(r, t) ensures Carried(links, t) {
      FilterCarried(links, tag, t);
    }
    if Carried(links, tag) {
      var j :| 0 <= j < |links| && tag in links[j].tags;
      FilterMembership(links, tag, links[j]);
      assert Carried(r, tag) by {
        var i :| 0 <= i < |r| && r[i] == links[j];
      }
    }
  }

  lemma FilterCarried(links: seq<Link>, tag: string, t: string)
    requires Carried(FilterByTag(links, tag), t)
    ensures Carried(links, t)
  {
    var r := FilterByTag(links, tag);
    var i :| 0 <= i < |r| && t in r[i].tags;
    FilterMembership(links, tag, r[i]);
    var j :| 0 <= j < |links| && links[j] == r[i];
  }
}
