/** The sort library: a selection sort over two parallel arrays that appends the
    secret to each title as it is placed. */
module MovieSort {
  import opened MovieOrder

  /** The movies two parallel arrays hold. */
  function Rows(name: seq<Title>, pts: seq<real>): (ms: seq<Movie>)
    requires |name| == |pts|
    ensures |ms| == |name|
    ensures forall k :: 0 <= k < |ms| ==> ms[k] == Movie(name[k], pts[k])
  {
    seq(|name|, k requires 0 <= k < |name| => Movie(name[k], pts[k]))
  }

  /** The movies in positions lo .. hi of the arrays. */
  function Part(name: array<Title>, pts: array<real>, lo: nat, hi: nat): (ms: seq<Movie>)
    requires lo <= hi <= name.Length == pts.Length
    reads name, pts
    ensures |ms| == hi - lo
    ensures forall k :: 0 <= k < |ms| ==> ms[k] == Movie(name[lo + k], pts[lo + k])
  {
    Rows(name[lo..hi], pts[lo..hi])
  }

  ghost predicate Scored(ms: seq<Movie>) {
    forall k :: 0 <= k < |ms| ==> ms[k].score >= 0.0
  }

  /** Position of the best remaining movie: highest score, then smallest title.
      Scores start above the initial maximum of -1. */
  method ArgMax(pts: array<real>, name: array<Title>, start: nat, end: nat) returns (ret: nat)
    requires start < end <= name.Length == pts.Length
    requires Scored(Part(name, pts, start, end))
    ensures start <= ret < end
    ensures forall k :: start <= k < end ==> Before(Movie(name[ret], pts[ret]), Movie(name[k], pts[k]))
  {
    ret := start;
    var max := -1.0;
    var i := start;
    while i < end
      invariant start <= i <= end && start <= ret < end
      invariant i == start ==> ret == start && max == -1.0
      invariant i > start ==> ret < i && max == pts[ret]
      invariant forall k :: start <= k < i ==> Before(Movie(name[ret], pts[ret]), Movie(name[k], pts[k]))
    {
      assert pts[i] >= 0.0 by { assert Part(name, pts, start, end)[i - start].score >= 0.0; }
      ghost var before := ret;
      if pts[i] > max {
        max := pts[i];
        ret := i;
      } else if pts[i] == max {
        if Compare(name[ret], name[i]) > 0 {
          ret := i;
        }
      }
      StillBest(name[..], pts[..], start, i, before, ret);
      i := i + 1;
    }
  }

  lemma StillBest(name: seq<Title>, pts: seq<real>, start: nat, i: nat, before: nat, ret: nat)
    requires start <= before < |name| == |pts| && start <= i < |name|
    requires forall k :: start <= k < i ==> Before(Movie(name[before], pts[before]), Movie(name[k], pts[k]))
    requires ret == before || ret == i
    requires i > start || ret == i
    requires ret == i && i > start ==> pts[i] > pts[before] || (pts[i] == pts[before] && Compare(name[before], name[i]) > 0)
    requires ret == before && ret != i ==> pts[i] < pts[before] || (pts[i] == pts[before] && Compare(name[before], name[i]) <= 0)
    ensures forall k :: start <= k < i + 1 ==> Before(Movie(name[ret], pts[ret]), Movie(name[k], pts[k]))
  {
    CompareIsOrder(name[i], name[i]);
    CompareIsOrder(name[before], name[i]);
    if ret == i && i > start {
      forall k | start <= k < i
        ensures Before(Movie(name[i], pts[i]), Movie(name[k], pts[k]))
      {
        BeforeIsTransitive(Movie(name[i], pts[i]), Movie(name[before], pts[before]), Movie(name[k], pts[k]));
      }
    }
  }

  method Swap(name: array<Title>, pts: array<real>, i: nat, j: nat)
    requires i < name.Length == pts.Length && j < name.Length
    modifies name, pts
    ensures name[..] == old(name[..])[i := old(name[j])][j := old(name[i])]
    ensures pts[..] == old(pts[..])[i := old(pts[j])][j := old(pts[i])]
  {
    var m := name[i];
    name[i] := name[j];
    name[j] := m;
    var p := pts[i];
    pts[i] := pts[j];
    pts[j] := p;
  }

  /** The array after i rounds: raw is the selection so far followed by the rest;
      the selected titles are decorated. */
  ghost predicate Selected(part: seq<Movie>, raw: seq<Movie>, i: nat) {
    && |part| == |raw| && i <= |raw|
    && (forall k :: 0 <= k < i ==> part[k] == Decorate(raw[k]))
    && (forall k :: i <= k < |raw| ==> part[k] == raw[k])
    && (forall a, b :: 0 <= a < i && a < b < |raw| ==> Before(raw[a], raw[b]))
  }

  function Swapped<T>(s: seq<T>, i: nat, j: nat): (r: seq<T>)
    requires i < |s| && j < |s|
    ensures |r| == |s|
  {
    s[i := s[j]][j := s[i]]
  }

  lemma SwapKeepsMultiset<T>(s: seq<T>, i: nat, j: nat)
    requires i < |s| && j < |s|
    ensures multiset(Swapped(s, i, j)) == multiset(s)
  {
  }

  /** One round of the selection on the unsorted rest of raw. */
  lemma SelectNext(part: seq<Movie>, raw: seq<Movie>, i: nat, idx: nat, part': seq<Movie>)
    requires Selected(part, raw, i) && i <= idx < |raw|
    requires forall k :: i <= k < |raw| ==> Before(raw[idx], raw[k])
    requires |part'| == |part| && part' == Swapped(part, i, idx)[i := Decorate(part[idx])]
    ensures Selected(part', Swapped(raw, i, idx), i + 1)
  {
    var raw' := Swapped(raw, i, idx);
    forall a, b | 0 <= a < i + 1 && a < b < |raw|
      ensures Before(raw'[a], raw'[b])
    {
      if a < i {
        assert Before(raw[a], raw[b]) && Before(raw[a], raw[i]) && Before(raw[a], raw[idx]);
      }
    }
  }

  /** Everything outside lo .. hi is as it was. */
  twostate predicate OnlyInside(name: array<Title>, pts: array<real>, lo: nat, hi: nat)
    requires lo <= hi <= name.Length == pts.Length
    reads name, pts
  {
    forall k :: (0 <= k < lo || hi <= k < name.Length) ==> name[k] == old(name[k]) && pts[k] == old(pts[k])
  }

  /** One round: the best remaining movie comes to position i and is decorated. */
  method PlaceBest(name: array<Title>, pts: array<real>, lo: nat, i: nat, size: nat) returns (idx: nat)
    requires i < size && lo + size <= name.Length == pts.Length
    requires Scored(Part(name, pts, lo + i, lo + size))
    modifies name, pts
    ensures i <= idx < size
    ensures var part := old(Part(name, pts, lo, lo + size));
      && (forall k :: i <= k < size ==> Before(part[idx], part[k]))
      && Part(name, pts, lo, lo + size) == Swapped(part, i, idx)[i := Decorate(part[idx])]
    ensures OnlyInside(name, pts, lo, lo + size)
  {
    ghost var part := Part(name, pts, lo, lo + size);
    var at := ArgMax(pts, name, lo + i, lo + size);
    idx := at - lo;
    BestInPart(name[..], pts[..], part, lo, i, idx, size);
    ghost var names, points := name[..], pts[..];
    Swap(name, pts, lo + i, at);
    name[lo + i] := name[lo + i] + SECRET;
    PlacedPart(names, points, name[..], pts[..], lo, i, idx, size);
  }

  lemma BestInPart(name: seq<Title>, pts: seq<real>, part: seq<Movie>, lo: nat, i: nat, idx: nat, size: nat)
    requires i <= idx < size == |part| && lo + size <= |name| == |pts|
    requires forall k :: 0 <= k < size ==> part[k] == Movie(name[lo + k], pts[lo + k])
    requires forall k :: lo + i <= k < lo + size ==> Before(Movie(name[lo + idx], pts[lo + idx]), Movie(name[k], pts[k]))
    ensures forall k :: i <= k < size ==> Before(part[idx], part[k])
  {
  }

  lemma PlacedPart(name: seq<Title>, pts: seq<real>, name': seq<Title>, pts': seq<real>, lo: nat, i: nat, idx: nat, size: nat)
    requires i < size && idx < size && lo + size <= |name| == |pts| == |name'| == |pts'|
    requires name' == Swapped(name, lo + i, lo + idx)[lo + i := name[lo + idx] + SECRET]
    requires pts' == Swapped(pts, lo + i, lo + idx)
    ensures var part := Rows(name[lo..lo + size], pts[lo..lo + size]);
      Rows(name'[lo..lo + size], pts'[lo..lo + size]) == Swapped(part, i, idx)[i := Decorate(part[idx])]
    ensures forall k :: (0 <= k < lo || lo + size <= k < |name|) ==> name'[k] == name[k] && pts'[k] == pts[k]
  {
  }

  /** Sorting the size movies from position lo on: they end up in order, each
      with the secret appended once; nothing else changes. */
  method Sort(name: array<Title>, pts: array<real>, lo: nat, size: nat)
    requires 1 <= size && lo + size <= name.Length == pts.Length
    requires Scored(Part(name, pts, lo, lo + size)) && AllPlain(Part(name, pts, lo, lo + size))
    modifies name, pts
    ensures Part(name, pts, lo, lo + size) == SortOf(DecorateAll(old(Part(name, pts, lo, lo + size))))
    ensures OnlyInside(name, pts, lo, lo + size)
  {
    hide Selected, Scored, AllPlain, SortOf, DecorateAll, Rearranged;
    ghost var orig := Part(name, pts, lo, lo + size);
    ghost var raw := orig;
    NothingSelected(orig);
    SameArrangement(orig);
    var i := 0;
    while i < size - 1
      invariant 0 <= i <= size - 1
      invariant Rearranged(raw, orig) && Selected(Part(name, pts, lo, lo + size), raw, i)
      invariant OnlyInside(name, pts, lo, lo + size)
    {
      raw := Round(name, pts, lo, i, size, raw, orig);
      i := i + 1;
    }
    PlaceLast(name, pts, lo, size, raw, orig);
  }

  /** The last movie is in its place already and only gets the secret. */
  method PlaceLast(name: array<Title>, pts: array<real>, lo: nat, size: nat, ghost raw: seq<Movie>, ghost orig: seq<Movie>)
    requires 1 <= size && lo + size <= name.Length == pts.Length && |orig| == size
    requires AllPlain(orig) && Rearranged(raw, orig) && Selected(Part(name, pts, lo, lo + size), raw, size - 1)
    modifies name
    ensures Part(name, pts, lo, lo + size) == SortOf(DecorateAll(orig))
    ensures OnlyInside(name, pts, lo, lo + size)
  {
    hide Selected, AllPlain, SortOf;
    ghost var part := Part(name, pts, lo, lo + size);
    name[lo + size - 1] := name[lo + size - 1] + SECRET;
    LastPlaced(part, raw, orig, Part(name, pts, lo, lo + size));
  }

  lemma SameArrangement(orig: seq<Movie>)
    ensures Rearranged(orig, orig)
  {
  }

  ghost predicate Rearranged(raw: seq<Movie>, orig: seq<Movie>) {
    |raw| == |orig| && multiset(raw) == multiset(orig)
  }

  /** One round takes the selection one movie further. */
  method Round(name: array<Title>, pts: array<real>, lo: nat, i: nat, size: nat, ghost raw: seq<Movie>, ghost orig: seq<Movie>) returns (ghost raw': seq<Movie>)
    requires i < size - 1 && lo + size <= name.Length == pts.Length && |orig| == size
    requires Scored(orig) && Rearranged(raw, orig) && Selected(Part(name, pts, lo, lo + size), raw, i)
    modifies name, pts
    ensures Rearranged(raw', orig) && Selected(Part(name, pts, lo, lo + size), raw', i + 1)
    ensures OnlyInside(name, pts, lo, lo + size)
  {
    hide Decorate, Before, Swapped, Selected, Scored;
    ghost var part := Part(name, pts, lo, lo + size);
    assert Part(name, pts, lo + i, lo + size) == part[i..];
    RestIsScored(orig, raw, part, i, part[i..]);
    var idx := PlaceBest(name, pts, lo, i, size);
    BestOfRaw(part, raw, i, idx);
    SelectNext(part, raw, i, idx, Part(name, pts, lo, lo + size));
    SwapKeepsMultiset(raw, i, idx);
    raw' := Swapped(raw, i, idx);
  }

  lemma NothingSelected(part: seq<Movie>)
    ensures Selected(part, part, 0)
  {
  }

  lemma RestIsScored(orig: seq<Movie>, raw: seq<Movie>, part: seq<Movie>, i: nat, rest: seq<Movie>)
    requires Scored(orig) && Rearranged(raw, orig) && Selected(part, raw, i) && rest == part[i..]
    ensures Scored(rest)
  {
    forall k | 0 <= k < |rest|
      ensures rest[k].score >= 0.0
    {
      assert rest[k] == raw[i + k];
      assert raw[i + k] in multiset(orig);
    }
  }

  lemma BestOfRaw(part: seq<Movie>, raw: seq<Movie>, i: nat, idx: nat)
    requires Selected(part, raw, i) && i <= idx < |raw|
    requires forall k :: i <= k < |part| ==> Before(part[idx], part[k])
    ensures forall k :: i <= k < |raw| ==> Before(raw[idx], raw[k])
  {
  }

  lemma LastPlaced(part: seq<Movie>, raw: seq<Movie>, orig: seq<Movie>, part': seq<Movie>)
    requires |part| == |part'| == |raw| >= 1
    requires Selected(part, raw, |raw| - 1)
    requires part'[..|part| - 1] == part[..|part| - 1]
    requires part'[|part| - 1] == Movie(part[|part| - 1].title + SECRET, part[|part| - 1].score)
    requires Rearranged(raw, orig) && AllPlain(orig)
    ensures part' == SortOf(DecorateAll(orig))
  {
    forall k | 0 <= k < |raw|
      ensures part'[k] == Decorate(raw[k])
    {
      if k < |raw| - 1 {
        assert part'[..|part| - 1][k] == part[..|part| - 1][k];
      }
    }
    assert part' == DecorateAll(raw);
    assert Ordered(raw);
    DecoratedSort(raw, orig);
  }
}
