/** The merge as the process server does it: every left movie that is left over
    when the right run is used up gets the score of the first of them. */
module MovieProcess {
  import opened MovieOrder
  import opened MovieSort
  import opened MovieMerge

  /** Movies whose scores are all replaced by that of the first. */
  function Flat(ms: seq<Movie>): (fs: seq<Movie>)
    ensures |fs| == |ms|
    ensures forall k :: 0 <= k < |ms| ==> fs[k] == Movie(ms[k].title, ms[0].score)
  {
    seq(|ms|, k requires 0 <= k < |ms| => Movie(ms[k].title, ms[0].score))
  }

  function Titles(ms: seq<Movie>): (ts: seq<Title>)
    ensures |ts| == |ms|
    ensures forall k :: 0 <= k < |ms| ==> ts[k] == ms[k].title
  {
    seq(|ms|, k requires 0 <= k < |ms| => ms[k].title)
  }

  /** What a merging process makes of two runs. */
  function ProcessMerge(l: seq<Movie>, r: seq<Movie>): (m: seq<Movie>)
    ensures |m| == |l| + |r|
  {
    MergeIsFrontAndRest(l, r);
    Front(l, r) + (Flat(Rest(l, r).0) + Rest(l, r).1)
  }

  /** In the titles the process merge agrees with the threads' merge. */
  lemma TitlesAgree(l: seq<Movie>, r: seq<Movie>)
    ensures Titles(ProcessMerge(l, r)) == Titles(Merge(l, r))
  {
    MergeIsFrontAndRest(l, r);
  }

  /** The movie stays behind when the right run is used up. */
  predicate StaysBehind(m: Movie, r: seq<Movie>) { r == [] || !LeftFirst(m, r[|r| - 1]) }

  /** The left movies that do not strictly precede the whole right run have one
      score. */
  ghost predicate EqualScoresBeyond(l: seq<Movie>, r: seq<Movie>) {
    forall i, k :: 0 <= i < |l| && 0 <= k < |l| && StaysBehind(l[i], r) && StaysBehind(l[k], r) ==> l[i].score == l[k].score
  }

  lemma LeftFirstIsTransitive(a: Movie, b: Movie, c: Movie)
    ensures LeftFirst(a, b) && Before(b, c) ==> LeftFirst(a, c)
    ensures Before(a, b) && LeftFirst(b, c) ==> LeftFirst(a, c)
  {
    CompareIsOrder(a.title, b.title);
    CompareIsOrder(b.title, c.title);
    CompareIsOrder(a.title, c.title);
    if a.score == b.score == c.score && Compare(a.title, b.title) <= 0 && Compare(b.title, c.title) <= 0 {
      CompareIsTransitive(a.title, b.title, c.title);
    }
  }

  /** The left movies left over are a tail of the left run: exactly those that do
      not strictly precede the last right movie. */
  lemma {:induction false} LeftOver(l: seq<Movie>, r: seq<Movie>) returns (n: nat)
    requires Ordered(l) && Ordered(r) && r != []
    ensures n <= |l| && Rest(l, r).0 == l[n..]
    ensures forall k :: 0 <= k < |l| ==> (k < n <==> LeftFirst(l[k], r[|r| - 1]))
    decreases |l| + |r|, 1
  {
    hide LeftFirst, Before, Ordered, Rest;
    var last := r[|r| - 1];
    RestOnce(l, r);
    if l == [] {
      n := 0;
    } else if LeftFirst(l[0], r[0]) {
      n := LeftGoes(l, r);
    } else if |r| == 1 {
      n := 0;
      NoneFirst(l, last);
      RestOnce(l, r[1..]);
      assert l[0..] == l;
    } else {
      TailIsOrdered(r);
      n := LeftOver(l, r[1..]);
    }
  }

  lemma RestOnce(l: seq<Movie>, r: seq<Movie>)
    ensures l == [] || r == [] ==> Rest(l, r) == (l, r)
    ensures l != [] && r != [] && LeftFirst(l[0], r[0]) ==> Rest(l, r) == Rest(l[1..], r)
    ensures l != [] && r != [] && !LeftFirst(l[0], r[0]) ==> Rest(l, r) == Rest(l, r[1..])
  {
  }

  lemma {:induction false} LeftGoes(l: seq<Movie>, r: seq<Movie>) returns (n: nat)
    requires Ordered(l) && Ordered(r) && l != [] && r != [] && LeftFirst(l[0], r[0])
    ensures n <= |l| && Rest(l, r).0 == l[n..]
    ensures forall k :: 0 <= k < |l| ==> (k < n <==> LeftFirst(l[k], r[|r| - 1]))
    decreases |l| + |r|, 0
  {
    hide LeftFirst, Before, Ordered, Rest;
    var last := r[|r| - 1];
    RestOnce(l, r);
    LastIsAfterFirst(r);
    LeftFirstIsTransitive(l[0], r[0], last);
    TailIsOrdered(l);
    var m := LeftOver(l[1..], r);
    n := m + 1;
    Shifted(l, m, last);
  }

  lemma LastIsAfterFirst(r: seq<Movie>)
    requires Ordered(r) && r != []
    ensures Before(r[0], r[|r| - 1])
  {
    FirstIsBefore(r, |r| - 1);
  }

  lemma Shifted(l: seq<Movie>, m: nat, last: Movie)
    requires l != [] && m <= |l| - 1 && LeftFirst(l[0], last)
    requires forall k :: 0 <= k < |l| - 1 ==> (k < m <==> LeftFirst(l[1..][k], last))
    ensures l[1..][m..] == l[m + 1..]
    ensures forall k :: 0 <= k < |l| ==> (k < m + 1 <==> LeftFirst(l[k], last))
  {
    forall k | 0 <= k < |l|
      ensures k < m + 1 <==> LeftFirst(l[k], last)
    {
      if k > 0 {
        assert l[k] == l[1..][k - 1];
      }
    }
  }

  lemma NoneFirst(l: seq<Movie>, last: Movie)
    requires Ordered(l) && l != [] && !LeftFirst(l[0], last)
    ensures forall k :: 0 <= k < |l| ==> !LeftFirst(l[k], last)
  {
    forall k | 0 <= k < |l|
      ensures !LeftFirst(l[k], last)
    {
      FirstIsBefore(l, k);
      LeftFirstIsTransitive(l[0], l[k], last);
    }
  }

  /** Exactly when the process merge keeps the scores. */
  lemma ProcessMergeIsMerge(l: seq<Movie>, r: seq<Movie>)
    requires Ordered(l) && Ordered(r)
    ensures ProcessMerge(l, r) == Merge(l, r) <==> EqualScoresBeyond(l, r)
    ensures Flat(Rest(l, r).0) == Rest(l, r).0 <==> EqualScoresBeyond(l, r)
  {
    hide Front, Rest, LeftFirst, Before, Ordered, Merge;
    MergeIsFrontAndRest(l, r);
    MiddleDecides(Front(l, r), Flat(Rest(l, r).0), Rest(l, r).0, Rest(l, r).1);
    FlatMeans(l, r);
  }

  lemma FlatMeans(l: seq<Movie>, r: seq<Movie>)
    requires Ordered(l) && Ordered(r)
    ensures Flat(Rest(l, r).0) == Rest(l, r).0 <==> EqualScoresBeyond(l, r)
  {
    hide Front, Rest, LeftFirst, Before, Ordered;
    var n := 0;
    if r == [] {
      RestOnce(l, r);
      assert l[0..] == l;
    } else {
      n := LeftOver(l, r);
    }
    FlatIsSame(l[n..]);
    TailScores(l, n, r);
  }

  lemma TailScores(l: seq<Movie>, n: nat, r: seq<Movie>)
    requires n <= |l| && forall k :: 0 <= k < |l| ==> (k < n <==> !StaysBehind(l[k], r))
    ensures (forall k :: 0 <= k < |l| - n ==> l[n..][k].score == l[n..][0].score) <==> EqualScoresBeyond(l, r)
  {
    hide StaysBehind;
    var x := l[n..];
    if EqualScoresBeyond(l, r) {
      forall k | 0 <= k < |x|
        ensures x[k].score == x[0].score
      {
        assert x[k] == l[n + k] && x[0] == l[n] && StaysBehind(l[n], r) && StaysBehind(l[n + k], r);
      }
    } else {
      var i, k :| 0 <= i < |l| && 0 <= k < |l| && StaysBehind(l[i], r) && StaysBehind(l[k], r) && l[i].score != l[k].score;
      assert x[i - n] == l[i] && x[k - n] == l[k];
    }
  }

  lemma MiddleDecides(f: seq<Movie>, a: seq<Movie>, b: seq<Movie>, y: seq<Movie>)
    requires |a| == |b|
    ensures f + (a + y) == f + (b + y) <==> a == b
  {
    if f + (a + y) == f + (b + y) {
      assert a == (f + (a + y))[|f|..|f| + |a|] && b == (f + (b + y))[|f|..|f| + |b|];
    }
  }

  lemma FlatIsSame(x: seq<Movie>)
    ensures Flat(x) == x <==> forall k :: 0 <= k < |x| ==> x[k].score == x[0].score
  {
    if Flat(x) == x {
      forall k | 0 <= k < |x|
        ensures x[k].score == x[0].score
      {
        assert Flat(x)[k] == x[k];
      }
    } else {
      var k :| 0 <= k < |x| && Flat(x)[k] != x[k];
    }
  }

  // ----- the process's own loops -----

  /** Append the left movies that remain to the temporary arrays. */
  method AppendRest(name: array<Title>, pts: array<real>, l: nat, mid: nat, newname: array<Title>, newscore: array<real>, c0: nat, ghost done: seq<Movie>)
    returns (c: nat)
    requires l <= mid <= name.Length == pts.Length
    requires c0 == |done| && c0 + (mid - l) <= newname.Length == newscore.Length
    requires name != newname && pts != newscore && Begins(newname, newscore, done)
    modifies newname, newscore
    ensures c == c0 + (mid - l) && Begins(newname, newscore, done + Flat(Part(name, pts, l, mid)))
  {
    c := c0;
    var j := l;
    while j < mid
      invariant l <= j <= mid && c == c0 + (j - l)
      invariant forall k :: 0 <= k < c0 ==> done[k] == Movie(newname[k], newscore[k])
      invariant forall k :: c0 <= k < c ==> newname[k] == name[l + (k - c0)] && newscore[k] == pts[l]
    {
      newname[c] := name[j];
      newscore[c] := pts[l];
      c := c + 1;
      j := j + 1;
    }
  }

  /** One merging process, on a span whose last run takes up what is left over. */
  method MergeAsProcess(name: array<Title>, pts: array<real>, p: Span, room: nat)
    requires name.Length == pts.Length && p.lo <= p.mid <= p.end <= name.Length && p.end - p.lo <= room
    modifies name, pts
    ensures Part(name, pts, p.lo, p.end) == ProcessMerge(old(Part(name, pts, p.lo, p.mid)), old(Part(name, pts, p.mid, p.end)))
    ensures OnlyInside(name, pts, p.lo, p.end)
  {
    hide Part, Begins, Front, Rest, Flat;
    var l, r, newname, newscore, c, done := Scan(name, pts, p, room);
    ghost var whole := done;
    if l < p.mid {
      c := AppendRest(name, pts, l, p.mid, newname, newscore, c, done);
      whole := done + Flat(Part(name, pts, l, p.mid));
    }
    ghost var rest := Part(name, pts, p.lo + c, p.end);
    Complete(name, pts, p, newname, newscore, c, whole, rest);
  }
}
