/** Merging two neighbouring sorted runs in place. */
module MovieMerge {
  import opened MovieOrder
  import opened MovieSort

  /** The merge takes the left movie only if it strictly precedes the right one. */
  predicate LeftFirst(a: Movie, b: Movie) {
    a.score > b.score || (a.score == b.score && Compare(a.title, b.title) < 0)
  }

  function Merge(l: seq<Movie>, r: seq<Movie>): (m: seq<Movie>)
    ensures |m| == |l| + |r|
    decreases |l| + |r|
  {
    if l == [] then r
    else if r == [] then l
    else if LeftFirst(l[0], r[0]) then [l[0]] + Merge(l[1..], r)
    else [r[0]] + Merge(l, r[1..])
  }

  /** What the merge places before one of the runs is used up. */
  function Front(l: seq<Movie>, r: seq<Movie>): seq<Movie>
    decreases |l| + |r|
  {
    if l == [] || r == [] then []
    else if LeftFirst(l[0], r[0]) then [l[0]] + Front(l[1..], r)
    else [r[0]] + Front(l, r[1..])
  }

  /** What is then left of the runs; one of them is used up. */
  function Rest(l: seq<Movie>, r: seq<Movie>): (x: (seq<Movie>, seq<Movie>))
    ensures x.0 == [] || x.1 == []
    decreases |l| + |r|
  {
    if l == [] || r == [] then (l, r)
    else if LeftFirst(l[0], r[0]) then Rest(l[1..], r)
    else Rest(l, r[1..])
  }

  lemma {:induction false} MergeIsFrontAndRest(l: seq<Movie>, r: seq<Movie>)
    ensures Merge(l, r) == Front(l, r) + (Rest(l, r).0 + Rest(l, r).1)
    decreases |l| + |r|
  {
    hide LeftFirst;
    if l == [] || r == [] {
      assert Merge(l, r) == l + r;
    } else if LeftFirst(l[0], r[0]) {
      MergeIsFrontAndRest(l[1..], r);
      assert Merge(l, r) == [l[0]] + Merge(l[1..], r);
    } else {
      MergeIsFrontAndRest(l, r[1..]);
      assert Merge(l, r) == [r[0]] + Merge(l, r[1..]);
    }
  }

  lemma {:induction false} MergeMultiset(l: seq<Movie>, r: seq<Movie>)
    ensures multiset(Merge(l, r)) == multiset(l) + multiset(r)
    decreases |l| + |r|
  {
    hide LeftFirst;
    if l == [] || r == [] {
    } else if LeftFirst(l[0], r[0]) {
      MergeMultiset(l[1..], r);
      HeadApart(l);
      assert Merge(l, r) == [l[0]] + Merge(l[1..], r);
    } else {
      MergeMultiset(l, r[1..]);
      HeadApart(r);
      assert Merge(l, r) == [r[0]] + Merge(l, r[1..]);
    }
  }

  lemma HeadApart(l: seq<Movie>)
    requires l != []
    ensures multiset(l) == multiset{l[0]} + multiset(l[1..])
  {
    assert l == [l[0]] + l[1..];
  }

  ghost predicate AllAfter(m: Movie, ms: seq<Movie>) {
    forall k :: 0 <= k < |ms| ==> Before(m, ms[k])
  }

  lemma PrependOrdered(m: Movie, ms: seq<Movie>)
    requires Ordered(ms) && AllAfter(m, ms)
    ensures Ordered([m] + ms)
  {
  }

  lemma AfterHead(m: Movie, ms: seq<Movie>)
    requires Ordered(ms) && ms != [] && Before(m, ms[0])
    ensures AllAfter(m, ms)
  {
    forall k | 0 <= k < |ms|
      ensures Before(m, ms[k])
    {
      FirstIsBefore(ms, k);
      BeforeIsTransitive(m, ms[0], ms[k]);
    }
  }

  lemma AllAfterMerge(m: Movie, l: seq<Movie>, r: seq<Movie>)
    requires AllAfter(m, l) && AllAfter(m, r)
    ensures AllAfter(m, Merge(l, r))
  {
    MergeMultiset(l, r);
    forall k | 0 <= k < |Merge(l, r)|
      ensures Before(m, Merge(l, r)[k])
    {
      assert Merge(l, r)[k] in multiset(Merge(l, r));
      assert Merge(l, r)[k] in multiset(l) + multiset(r);
    }
  }

  lemma {:induction false} MergeIsOrdered(l: seq<Movie>, r: seq<Movie>)
    requires Ordered(l) && Ordered(r)
    ensures Ordered(Merge(l, r))
    decreases |l| + |r|
  {
    if l != [] && r != [] {
      if LeftFirst(l[0], r[0]) {
        TailIsOrdered(l);
        MergeIsOrdered(l[1..], r);
        AfterHead(l[0], r);
        assert AllAfter(l[0], l[1..]);
        AllAfterMerge(l[0], l[1..], r);
        PrependOrdered(l[0], Merge(l[1..], r));
      } else {
        BeforeIsTotal(l[0], r[0]);
        CompareIsOrder(l[0].title, r[0].title);
        TailIsOrdered(r);
        MergeIsOrdered(l, r[1..]);
        AfterHead(r[0], l);
        assert AllAfter(r[0], r[1..]);
        AllAfterMerge(r[0], l, r[1..]);
        PrependOrdered(r[0], Merge(l, r[1..]));
      }
    }
  }

  /** Merging two sorted lists is sorting them together. */
  lemma MergeOfSorts(x: seq<Movie>, y: seq<Movie>)
    ensures Merge(SortOf(x), SortOf(y)) == SortOf(x + y)
  {
    SortOfIsOrdered(x);
    SortOfIsOrdered(y);
    MergeIsOrdered(SortOf(x), SortOf(y));
    MergeMultiset(SortOf(x), SortOf(y));
    OrderedIsSortOf(Merge(SortOf(x), SortOf(y)), x + y);
  }

  // ----- the in-place merge -----

  /** A run of s movies at 2*s*t and the run after it, which is at least as long
      and, when it is the last one, at most base - 1 longer. */
  datatype Span = Span(lo: nat, mid: nat, end: nat)

  predicate FitsSpan(p: Span, length: nat, base: nat) {
    && p.lo < p.mid && p.mid - p.lo <= p.end - p.mid < p.mid - p.lo + base
    && p.end <= length
  }

  /** The arrays begin with these movies. */
  ghost predicate Begins(name: array<Title>, pts: array<real>, ms: seq<Movie>)
    requires |ms| <= name.Length == pts.Length
    reads name, pts
  {
    forall k :: 0 <= k < |ms| ==> ms[k] == Movie(name[k], pts[k])
  }

  /** Copy one movie to position c of the temporary arrays. */
  method Copy(name: array<Title>, pts: array<real>, k: nat, newname: array<Title>, newscore: array<real>, c: nat, ghost done: seq<Movie>)
    requires k < name.Length == pts.Length && c == |done| < newname.Length == newscore.Length
    requires name != newname && pts != newscore && Begins(newname, newscore, done)
    modifies newname, newscore
    ensures Begins(newname, newscore, done + [Movie(name[k], pts[k])])
  {
    newname[c] := name[k];
    newscore[c] := pts[k];
  }

  /** Compare from the front of both runs until one is used up.  The temporary
      arrays have room for all movies of the span. */
  method Scan(name: array<Title>, pts: array<real>, p: Span, room: nat)
    returns (l: nat, r: nat, newname: array<Title>, newscore: array<real>, c: nat, ghost done: seq<Movie>)
    requires name.Length == pts.Length && p.lo <= p.mid <= p.end <= name.Length && p.end - p.lo <= room
    ensures p.lo <= l <= p.mid <= r <= p.end && (l == p.mid || r == p.end)
    ensures c == |done| == (l - p.lo) + (r - p.mid)
    ensures newname.Length == newscore.Length == room
    ensures fresh(newname) && fresh(newscore) && Begins(newname, newscore, done)
    ensures var left, right := Part(name, pts, p.lo, p.mid), Part(name, pts, p.mid, p.end);
      done == Front(left, right) && Rest(left, right) == (Part(name, pts, l, p.mid), Part(name, pts, r, p.end))
  {
    hide Part, Front, Rest, Begins, Merged;
    newname := new Title[room];
    newscore := new real[room];
    l, r, c := p.lo, p.mid, 0;
    done := [];
    ghost var left, right := Part(name, pts, p.lo, p.mid), Part(name, pts, p.mid, p.end);
    NothingBegins(newname, newscore);
    MergeStarts(left, right);
    while l < p.mid && r < p.end
      invariant p.lo <= l <= p.mid <= r <= p.end
      invariant c == |done| == (l - p.lo) + (r - p.mid)
      invariant Begins(newname, newscore, done)
      invariant Merged(done, left, right, l - p.lo, r - p.mid)
    {
      ghost var i, j := l - p.lo, r - p.mid;
      assert left[i] == Movie(name[l], pts[l]) && right[j] == Movie(name[r], pts[r]);
      MergeStep(done, left, right, i, j);
      var k := l;
      if pts[l] > pts[r] {
        l := l + 1;
      } else if pts[l] < pts[r] {
        k := r;
        r := r + 1;
      } else if Compare(name[l], name[r]) < 0 {
        l := l + 1;
      } else {
        k := r;
        r := r + 1;
      }
      Copy(name, pts, k, newname, newscore, c, done);
      done := done + [if LeftFirst(left[i], right[j]) then left[i] else right[j]];
      c := c + 1;
    }
    RestOfPart(name, pts, p.lo, l, p.mid);
    RestOfPart(name, pts, p.mid, r, p.end);
    MergedEnds(done, left, right, l - p.lo, r - p.mid);
  }

  lemma NothingBegins(name: array<Title>, pts: array<real>)
    requires name.Length == pts.Length
    ensures Begins(name, pts, [])
  {
  }

  lemma RestOfPart(name: array<Title>, pts: array<real>, lo: nat, l: nat, hi: nat)
    requires lo <= l <= hi <= name.Length == pts.Length
    ensures Part(name, pts, l, hi) == Part(name, pts, lo, hi)[l - lo..]
  {
  }

  /** These movies come first in the merge, and what follows is the merge of the
      remainders from i and j on. */
  ghost predicate Merged(done: seq<Movie>, left: seq<Movie>, right: seq<Movie>, i: int, j: int) {
    && 0 <= i <= |left| && 0 <= j <= |right|
    && done + Front(left[i..], right[j..]) == Front(left, right)
    && Rest(left[i..], right[j..]) == Rest(left, right)
  }

  lemma MergedEnds(done: seq<Movie>, left: seq<Movie>, right: seq<Movie>, i: int, j: int)
    requires Merged(done, left, right, i, j) && (i == |left| || j == |right|)
    ensures 0 <= i <= |left| && 0 <= j <= |right|
    ensures done == Front(left, right) && Rest(left, right) == (left[i..], right[j..])
    ensures Merge(left, right) == done + (left[i..] + right[j..])
  {
    assert Front(left[i..], right[j..]) == [];
    assert done + [] == done;
    MergeIsFrontAndRest(left, right);
  }

  lemma MergeStarts(left: seq<Movie>, right: seq<Movie>)
    ensures Merged([], left, right, 0, 0)
  {
  }

  lemma MergeStep(done: seq<Movie>, left: seq<Movie>, right: seq<Movie>, i: nat, j: nat)
    requires i < |left| && j < |right| && Merged(done, left, right, i, j)
    ensures LeftFirst(left[i], right[j]) ==> Merged(done + [left[i]], left, right, i + 1, j)
    ensures !LeftFirst(left[i], right[j]) ==> Merged(done + [right[j]], left, right, i, j + 1)
  {
    assert left[i..][1..] == left[i + 1..] && right[j..][1..] == right[j + 1..];
    if LeftFirst(left[i], right[j]) {
      assert done + [left[i]] + Front(left[i + 1..], right[j..]) == done + Front(left[i..], right[j..]);
    } else {
      assert done + [right[j]] + Front(left[i..], right[j + 1..]) == done + Front(left[i..], right[j..]);
    }
  }

  /** The left movies that remain move to the end of the span; where they go, all
      movies of the right run have been copied already. */
  method MoveRest(name: array<Title>, pts: array<real>, p: Span, base: nat, l: nat)
    requires name.Length == pts.Length && FitsSpan(p, name.Length, base)
    requires p.lo <= l <= p.mid
    modifies name, pts
    ensures Part(name, pts, p.end - (p.mid - l), p.end) == old(Part(name, pts, l, p.mid))
    ensures forall k :: (0 <= k < p.end - (p.mid - l) || p.end <= k < name.Length) ==> name[k] == old(name[k]) && pts[k] == old(pts[k])
  {
    var j := l;
    while j < p.mid
      invariant l <= j <= p.mid
      invariant forall k :: l <= k < j ==> name[p.end - (p.mid - k)] == old(name[k]) && pts[p.end - (p.mid - k)] == old(pts[k])
      invariant forall k :: (0 <= k < p.end - (p.mid - l) || p.end - (p.mid - j) <= k < name.Length) ==> name[k] == old(name[k]) && pts[k] == old(pts[k])
    {
      name[p.end - (p.mid - j)] := name[j];
      pts[p.end - (p.mid - j)] := pts[j];
      j := j + 1;
    }
    assert forall k :: l <= k < p.mid ==> name[p.end - (p.mid - k)] == old(name[k]) && pts[p.end - (p.mid - k)] == old(pts[k]);
    ghost var d := p.end - p.mid;
    assert forall k :: l <= k < p.mid ==> name[d + k] == old(name[k]) && pts[d + k] == old(pts[k]);
  }

  /** Copy the merged movies back to the front of the span. */
  method WriteBack(name: array<Title>, pts: array<real>, lo: nat, newname: array<Title>, newscore: array<real>, c: nat, ghost done: seq<Movie>)
    requires name.Length == pts.Length && newname.Length == newscore.Length
    requires c == |done| <= newname.Length && lo + c <= name.Length
    requires name != newname && pts != newscore && Begins(newname, newscore, done)
    modifies name, pts
    ensures Part(name, pts, lo, lo + c) == done
    ensures forall k :: (0 <= k < lo || lo + c <= k < name.Length) ==> name[k] == old(name[k]) && pts[k] == old(pts[k])
  {
    var i := 0;
    while i < c
      invariant 0 <= i <= c
      invariant Begins(newname, newscore, done)
      invariant forall k :: 0 <= k < i ==> Movie(name[lo + k], pts[lo + k]) == done[k]
      invariant forall k :: (0 <= k < lo || lo + i <= k < name.Length) ==> name[k] == old(name[k]) && pts[k] == old(pts[k])
    {
      name[lo + i] := newname[i];
      pts[lo + i] := newscore[i];
      i := i + 1;
    }
  }

  /** The merge of pair t of runs of length s: the span it works on ends with the
      list when the pair is the last one. */
  function SpanOf(s: nat, t: nat, last: bool, cnt: nat): Span {
    var lo := 2 * s * t;
    Span(lo, lo + s, if last then cnt else lo + s + s)
  }

  /** After the scan one run is used up: bring what is left of the other to the
      end of the span. */
  method Settle(name: array<Title>, pts: array<real>, p: Span, base: nat, l: nat, r: nat)
    requires name.Length == pts.Length && FitsSpan(p, name.Length, base)
    requires p.lo <= l <= p.mid <= r <= p.end && (l == p.mid || r == p.end)
    modifies name, pts
    ensures Part(name, pts, l + r - p.mid, p.end) == old(Part(name, pts, l, p.mid)) + old(Part(name, pts, r, p.end))
    ensures OnlyInside(name, pts, p.lo, p.end)
  {
    if l < p.mid {
      MoveRest(name, pts, p, base, l);
    }
  }

  method MergeSpan(name: array<Title>, pts: array<real>, p: Span, base: nat)
    requires name.Length == pts.Length && FitsSpan(p, name.Length, base)
    modifies name, pts
    ensures Part(name, pts, p.lo, p.end) == Merge(old(Part(name, pts, p.lo, p.mid)), old(Part(name, pts, p.mid, p.end)))
    ensures OnlyInside(name, pts, p.lo, p.end)
  {
    hide Part, Merge, Begins, Front, Rest;
    MergeIsFrontAndRest(Part(name, pts, p.lo, p.mid), Part(name, pts, p.mid, p.end));
    var l, r, newname, newscore, c, done := Scan(name, pts, p, 2 * (p.mid - p.lo) + base);
    ghost var rest := Part(name, pts, l, p.mid) + Part(name, pts, r, p.end);
    Settle(name, pts, p, base, l, r);
    assert Part(name, pts, p.lo + c, p.end) == rest;
    Complete(name, pts, p, newname, newscore, c, done, rest);
  }

  /** Copy the merged movies back in front of what has been settled. */
  method Complete(name: array<Title>, pts: array<real>, p: Span, newname: array<Title>, newscore: array<real>, c: nat, ghost done: seq<Movie>, ghost rest: seq<Movie>)
    requires name.Length == pts.Length && newname.Length == newscore.Length
    requires c == |done| <= newname.Length && p.lo + c <= p.end <= name.Length
    requires name != newname && pts != newscore && Begins(newname, newscore, done)
    requires Part(name, pts, p.lo + c, p.end) == rest
    modifies name, pts
    ensures Part(name, pts, p.lo, p.end) == done + rest
    ensures OnlyInside(name, pts, p.lo, p.end)
  {
    hide Part, Begins;
    WriteBack(name, pts, p.lo, newname, newscore, c, done);
    assert Part(name, pts, p.lo + c, p.end) == rest;
    PartSplits(name, pts, p.lo, p.lo + c, p.end);
  }

  /** Merging pair t of runs of length s in place: the span then holds the merge
      of both runs and nothing else has changed. */
  method TrueMerge(name: array<Title>, pts: array<real>, s: nat, t: nat, last: bool, cnt: nat, base: nat)
    requires name.Length == pts.Length && FitsSpan(SpanOf(s, t, last, cnt), name.Length, base)
    modifies name, pts
    ensures var p := SpanOf(s, t, last, cnt);
      && Part(name, pts, p.lo, p.end) == Merge(old(Part(name, pts, p.lo, p.mid)), old(Part(name, pts, p.mid, p.end)))
      && OnlyInside(name, pts, p.lo, p.end)
  {
    hide Part, Merge, SpanOf;
    MergeSpan(name, pts, SpanOf(s, t, last, cnt), base);
  }

  lemma PartSplits(name: array<Title>, pts: array<real>, lo: nat, m: nat, hi: nat)
    requires lo <= m <= hi <= name.Length == pts.Length
    ensures Part(name, pts, lo, hi) == Part(name, pts, lo, m) + Part(name, pts, m, hi)
  {
  }
}
