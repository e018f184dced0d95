/** The process server: chunks sorted by one process each, then merged level by
    level with the merge of MovieProcess. */
module MovieProcessServer {
  import opened MovieOrder
  import opened MovieSort
  import opened MovieMerge
  import opened MovieServer
  import opened MovieProcess

  // ----- lists put together from pieces -----

  function Glue(ps: seq<seq<Movie>>): seq<Movie> {
    if ps == [] then [] else Glue(ps[..|ps| - 1]) + ps[|ps| - 1]
  }

  /** Run k of n runs of length u, the last one reaching to the end. */
  function RunOf(rows: seq<Movie>, u: nat, n: nat, k: nat): seq<Movie> {
    var lo, hi := RunStart(u, k), RunEnd(u, n, k, |rows|);
    if lo <= hi <= |rows| then rows[lo..hi] else []
  }

  /** The runs of the list are these pieces. */
  ghost predicate Fill(rows: seq<Movie>, ps: seq<seq<Movie>>, u: nat) {
    forall k :: 0 <= k < |ps| ==> RunOf(rows, u, |ps|, k) == ps[k]
  }

  lemma RunIsSlice(rows: seq<Movie>, u: nat, n: nat, k: nat, base: nat)
    requires Fits(u, n, |rows|, base) && k < n
    ensures RunStart(u, k) < RunEnd(u, n, k, |rows|) <= |rows|
    ensures RunOf(rows, u, n, k) == rows[RunStart(u, k)..RunEnd(u, n, k, |rows|)] != []
    ensures k + 1 < n ==> RunEnd(u, n, k, |rows|) == RunStart(u, k + 1)
  {
    RunBounds(u, n, k, |rows|, base);
  }

  /** What lies before run k is put together from the pieces before it. */
  lemma {:induction false} GlueBefore(rows: seq<Movie>, ps: seq<seq<Movie>>, u: nat, k: nat, base: nat)
    requires Fits(u, |ps|, |rows|, base) && Fill(rows, ps, u) && k < |ps|
    ensures RunStart(u, k) <= |rows| && rows[..RunStart(u, k)] == Glue(ps[..k])
  {
    hide Fits, RunOf, RunStart, RunEnd;
    RunIsSlice(rows, u, |ps|, k, base);
    if k == 0 {
      StartOfAll(u);
    } else {
      GlueBefore(rows, ps, u, k - 1, base);
      RunIsSlice(rows, u, |ps|, k - 1, base);
      assert ps[..k][..k - 1] == ps[..k - 1];
      TwoPieces(rows, RunStart(u, k - 1), RunStart(u, k));
    }
  }

  lemma StartOfAll(u: nat)
    ensures RunStart(u, 0) == 0
  {
  }

  lemma TwoPieces<T>(a: seq<T>, i: nat, j: nat)
    requires i <= j <= |a|
    ensures a[..j] == a[..i] + a[i..j]
  {
  }

  /** The list is put together from its runs. */
  lemma GlueIs(rows: seq<Movie>, ps: seq<seq<Movie>>, u: nat, base: nat)
    requires Fits(u, |ps|, |rows|, base) && Fill(rows, ps, u)
    ensures rows == Glue(ps)
  {
    hide Fits, RunOf, RunStart;
    var n := |ps|;
    SomeRuns(u, n, |rows|, base);
    GlueBefore(rows, ps, u, n - 1, base);
    RunIsSlice(rows, u, n, n - 1, base);
    TwoPieces(rows, RunStart(u, n - 1), |rows|);
    assert rows[..|rows|] == rows;
  }

  lemma SomeRuns(u: nat, n: nat, cnt: nat, base: nat)
    requires Fits(u, n, cnt, base)
    ensures n > 0
  {
  }

  /** Pieces as long as the runs put together a list with these runs. */
  ghost predicate RightSizes(ps: seq<seq<Movie>>, u: nat, cnt: nat) {
    forall k :: 0 <= k < |ps| ==> |ps[k]| == RunEnd(u, |ps|, k, cnt) - RunStart(u, k)
  }

  lemma {:induction false} GlueSizes(ps: seq<seq<Movie>>, u: nat, cnt: nat, k: nat, base: nat)
    requires Fits(u, |ps|, cnt, base) && RightSizes(ps, u, cnt) && k <= |ps|
    ensures |Glue(ps[..k])| == if k == |ps| then cnt else RunStart(u, k)
  {
    hide Fits, RunStart;
    if k == 0 {
      StartOfAll(u);
      SomeRuns(u, |ps|, cnt, base);
    } else {
      GlueSizes(ps, u, cnt, k - 1, base);
      assert ps[..k][..k - 1] == ps[..k - 1];
    }
  }

  lemma {:induction false} GlueHolds(ps: seq<seq<Movie>>, k: nat, j: nat)
    requires k < j <= |ps|
    ensures var lo := |Glue(ps[..k])|; lo + |ps[k]| <= |Glue(ps[..j])| && Glue(ps[..j])[lo..lo + |ps[k]|] == ps[k]
    decreases j
  {
    assert ps[..j][..j - 1] == ps[..j - 1];
    if k < j - 1 {
      GlueHolds(ps, k, j - 1);
      var lo, front := |Glue(ps[..k])|, Glue(ps[..j - 1]);
      assert (front + ps[j - 1])[lo..lo + |ps[k]|] == front[lo..lo + |ps[k]|];
    }
  }

  lemma GlueFills(ps: seq<seq<Movie>>, u: nat, cnt: nat, base: nat)
    requires Fits(u, |ps|, cnt, base) && RightSizes(ps, u, cnt)
    ensures |Glue(ps)| == cnt && Fill(Glue(ps), ps, u)
  {
    hide Fits, RunStart, Glue;
    var n, rows := |ps|, Glue(ps);
    GlueSizes(ps, u, cnt, n, base);
    assert ps[..n] == ps;
    forall k | 0 <= k < n
      ensures RunOf(rows, u, n, k) == ps[k]
    {
      GlueSizes(ps, u, cnt, k, base);
      GlueHolds(ps, k, n);
    }
  }

  // ----- the server's levels -----

  /** The chunks as their processes sort them. */
  function SortedChunks(movies: seq<Movie>, u: nat, n: nat): (ps: seq<seq<Movie>>)
    ensures |ps| == n
    ensures forall k :: 0 <= k < n ==> ps[k] == SortOf(DecorateAll(RunOf(movies, u, n, k)))
  {
    seq(n, k requires 0 <= k < n => SortOf(DecorateAll(RunOf(movies, u, n, k))))
  }

  /** Two neighbouring runs as their process merges them. */
  function MergedPair(rows: seq<Movie>, u: nat, n: nat, t: nat): seq<Movie> {
    ProcessMerge(RunOf(rows, u, n, 2 * t), RunOf(rows, u, n, 2 * t + 1))
  }

  function MergedPairs(rows: seq<Movie>, u: nat, n: nat): (ps: seq<seq<Movie>>)
    ensures |ps| == n / 2
    ensures forall t :: 0 <= t < n / 2 ==> ps[t] == MergedPair(rows, u, n, t)
  {
    seq(n / 2, t requires 0 <= t < n / 2 => MergedPair(rows, u, n, t))
  }

  function ProcessLevels(rows: seq<Movie>, u: nat, n: nat): seq<Movie>
    decreases n
  {
    if n <= 1 then rows else ProcessLevels(Glue(MergedPairs(rows, u, n)), 2 * u, n / 2)
  }

  /** The list the process server ends with. */
  function ProcessAnswer(movies: seq<Movie>, base: nat): seq<Movie>
    requires base > 0
  {
    var u := |movies| / base;
    ProcessLevels(Glue(SortedChunks(movies, u, base)), u, base)
  }

  /** A run of the next level covers two runs of this one. */
  lemma RunsPair(rows: seq<Movie>, u: nat, n: nat, t: nat, base: nat)
    requires Fits(u, n, |rows|, base) && n % 2 == 0 && t < n / 2
    ensures var p := PairSpan(u, n, t, |rows|);
      && p.lo < p.mid < p.end <= |rows|
      && RunOf(rows, u, n, 2 * t) == rows[p.lo..p.mid] && RunOf(rows, u, n, 2 * t + 1) == rows[p.mid..p.end]
      && RunOf(rows, 2 * u, n / 2, t) == rows[p.lo..p.end] == RunOf(rows, u, n, 2 * t) + RunOf(rows, u, n, 2 * t + 1)
  {
    hide RunStart, RunEnd, PairSpan;
    PairOfRuns(u, n, t, |rows|, base);
    var p := PairSpan(u, n, t, |rows|);
    SlicesJoin(rows, p.lo, p.mid, p.end);
  }

  /** A level puts the merged pairs in place of the pairs. */
  lemma LevelFills(rows: seq<Movie>, u: nat, n: nat, base: nat)
    requires Fits(u, n, |rows|, base) && n % 2 == 0
    ensures var ps := MergedPairs(rows, u, n);
      Fits(2 * u, n / 2, |rows|, base) && |Glue(ps)| == |rows| && Fill(Glue(ps), ps, 2 * u)
  {
    hide Fits, RunOf, RunStart, RunEnd, Glue, ProcessMerge, Fill;
    NextFits(u, n, |rows|, base);
    var ps := MergedPairs(rows, u, n);
    forall t | 0 <= t < n / 2
      ensures |ps[t]| == RunEnd(2 * u, n / 2, t, |rows|) - RunStart(2 * u, t)
    {
      RunsPair(rows, u, n, t, base);
      RunIsSlice(rows, 2 * u, n / 2, t, base);
    }
    GlueFills(ps, 2 * u, |rows|, base);
  }

  lemma ChunksFill(movies: seq<Movie>, base: nat)
    requires 1 <= base <= |movies|
    ensures var u := |movies| / base; var ps := SortedChunks(movies, u, base);
      Fits(u, base, |movies|, base) && |Glue(ps)| == |movies| && Fill(Glue(ps), ps, u)
  {
    hide Fits, RunOf, RunStart, RunEnd, Glue, SortOf, Fill;
    var u := |movies| / base;
    ChunksFit(|movies|, base);
    var ps := SortedChunks(movies, u, base);
    forall k | 0 <= k < base
      ensures |ps[k]| == RunEnd(u, base, k, |movies|) - RunStart(u, k)
    {
      RunIsSlice(movies, u, base, k, base);
    }
    GlueFills(ps, u, |movies|, base);
  }

  /** The chunks are sorted runs of the decorated list. */
  lemma ChunksAreRuns(movies: seq<Movie>, base: nat)
    requires 1 <= base <= |movies|
    ensures var u := |movies| / base; RunsSorted(Glue(SortedChunks(movies, u, base)), DecorateAll(movies), u, base)
  {
    hide Fits, RunStart, RunEnd, Glue, SortOf, DecorateAll, RunOf;
    var u := |movies| / base;
    ChunksFill(movies, base);
    var ps := SortedChunks(movies, u, base);
    var rows := Glue(ps);
    assert |DecorateAll(movies)| == |movies|;
    forall k | 0 <= k < base
      ensures RunSorted(rows, DecorateAll(movies), RunStart(u, k), RunEnd(u, base, k, |rows|))
    {
      RunIsSlice(movies, u, base, k, base);
      RunIsSlice(rows, u, base, k, base);
      assert RunOf(rows, u, |ps|, k) == ps[k];
      DecorateSlice(movies, RunStart(u, k), RunEnd(u, base, k, |movies|));
    }
  }

  // ----- when it is right -----

  /** The sorted runs of pair t keep their scores when a process merges them. */
  ghost predicate PairAgrees(deco: seq<Movie>, u: nat, n: nat, t: nat) {
    EqualScoresBeyond(SortOf(RunOf(deco, u, n, 2 * t)), SortOf(RunOf(deco, u, n, 2 * t + 1)))
  }

  ghost predicate LevelAgrees(deco: seq<Movie>, u: nat, n: nat) {
    forall t: nat :: t < n / 2 ==> PairAgrees(deco, u, n, t)
  }

  /** At every level before the last one, every pair keeps its scores. */
  ghost predicate TitlesKept(deco: seq<Movie>, u: nat, n: nat)
    decreases n
  {
    n <= 2 || (LevelAgrees(deco, u, n) && TitlesKept(deco, 2 * u, n / 2))
  }

  /** At every level every pair keeps its scores. */
  ghost predicate ScoresKept(deco: seq<Movie>, u: nat, n: nat)
    decreases n
  {
    n <= 1 || (LevelAgrees(deco, u, n) && ScoresKept(deco, 2 * u, n / 2))
  }

  /** The pair of the last level keeps its scores. */
  ghost predicate LastAgrees(deco: seq<Movie>, u: nat, n: nat)
    decreases n
  {
    n <= 1 || if n == 2 then PairAgrees(deco, u, 2, 0) else LastAgrees(deco, 2 * u, n / 2)
  }

  /** The two conditions differ in the last level only. */
  lemma {:induction false} KeptButTheLast(deco: seq<Movie>, u: nat, n: nat)
    requires PowerOfTwo(n)
    ensures ScoresKept(deco, u, n) <==> TitlesKept(deco, u, n) && LastAgrees(deco, u, n)
    decreases n
  {
    hide PairAgrees;
    if n == 2 {
      assert LevelAgrees(deco, u, 2) <==> PairAgrees(deco, u, 2, 0);
      assert ScoresKept(deco, 2 * u, 1);
    } else if n > 2 {
      KeptButTheLast(deco, 2 * u, n / 2);
    }
  }

  lemma SortedRun(rows: seq<Movie>, deco: seq<Movie>, u: nat, n: nat, k: nat, base: nat)
    requires Fits(u, n, |rows|, base) && RunsSorted(rows, deco, u, n) && k < n
    ensures RunOf(rows, u, n, k) == SortOf(RunOf(deco, u, n, k)) && Ordered(RunOf(rows, u, n, k))
  {
    hide Fits, RunStart, RunEnd, Ordered, SortOf;
    RunIsSlice(rows, u, n, k, base);
    assert RunSorted(rows, deco, RunStart(u, k), RunEnd(u, n, k, |rows|));
    RunIsSlice(deco, u, n, k, base);
    SortOfIsOrdered(RunOf(deco, u, n, k));
  }

  /** A pair of sorted runs is merged as the threads would merge it, exactly if it
      agrees. */
  lemma PairExact(rows: seq<Movie>, deco: seq<Movie>, u: nat, n: nat, t: nat, base: nat)
    requires Fits(u, n, |rows|, base) && n % 2 == 0 && t < n / 2 && RunsSorted(rows, deco, u, n)
    ensures var l, r := RunOf(rows, u, n, 2 * t), RunOf(rows, u, n, 2 * t + 1);
      && (PairAgrees(deco, u, n, t) <==> ProcessMerge(l, r) == Merge(l, r))
      && (PairAgrees(deco, u, n, t) <==> Flat(Rest(l, r).0) == Rest(l, r).0)
  {
    hide Fits, RunOf, RunsSorted, Ordered, EqualScoresBeyond, ProcessMerge, Merge, SortOf, Rest;
    SortedRun(rows, deco, u, n, 2 * t, base);
    SortedRun(rows, deco, u, n, 2 * t + 1, base);
    ProcessMergeIsMerge(RunOf(rows, u, n, 2 * t), RunOf(rows, u, n, 2 * t + 1));
  }

  /** A level whose pairs agree goes as it does with threads. */
  lemma LevelIsRight(rows: seq<Movie>, deco: seq<Movie>, u: nat, n: nat, base: nat)
    requires Fits(u, n, |rows|, base) && n % 2 == 0 && RunsSorted(rows, deco, u, n) && LevelAgrees(deco, u, n)
    ensures var next := Glue(MergedPairs(rows, u, n));
      |next| == |rows| && RunsSorted(next, deco, 2 * u, n / 2)
  {
    hide Fits, RunOf, RunsSorted, Glue, ProcessMerge, Merge, PairAgrees, PairSpan;
    var ps := MergedPairs(rows, u, n);
    var next := Glue(ps);
    LevelFills(rows, u, n, base);
    forall t | 0 <= t < n / 2
      ensures SpanMerged(rows, next, PairSpan(u, n, t, |rows|))
    {
      PairExact(rows, deco, u, n, t, base);
      RunsPair(rows, u, n, t, base);
      RunsPair(next, u, n, t, base);
      assert PairAgrees(deco, u, n, t);
      assert RunOf(next, 2 * u, |ps|, t) == ps[t];
    }
    NextLevel(rows, next, deco, u, n, base);
  }

  /** With one pair the titles are right in any case. */
  lemma LastLevel(rows: seq<Movie>, deco: seq<Movie>, u: nat, base: nat)
    requires Fits(u, 2, |rows|, base) && RunsSorted(rows, deco, u, 2)
    ensures Titles(Glue(MergedPairs(rows, u, 2))) == Titles(SortOf(deco))
  {
    hide Fits, RunOf, ProcessMerge, Merge, SortOf, Titles;
    var x, y := RunOf(deco, u, 2, 0), RunOf(deco, u, 2, 1);
    SortedRun(rows, deco, u, 2, 0, base);
    SortedRun(rows, deco, u, 2, 1, base);
    var ps := MergedPairs(rows, u, 2);
    assert ps == [ProcessMerge(SortOf(x), SortOf(y))];
    assert ps[..0] == [] && Glue(ps) == [] + ps[0] == ps[0];
    TitlesAgree(SortOf(x), SortOf(y));
    MergeOfSorts(x, y);
    RunsPair(deco, u, 2, 0, base);
    WholeRun(deco, 2 * u, base);
  }

  lemma WholeRun(rows: seq<Movie>, u: nat, base: nat)
    ensures RunOf(rows, u, 1, 0) == rows
  {
  }

  lemma {:induction false} LevelsKeepTitles(rows: seq<Movie>, deco: seq<Movie>, u: nat, n: nat, base: nat)
    requires PowerOfTwo(n) && Fits(u, n, |rows|, base) && RunsSorted(rows, deco, u, n) && TitlesKept(deco, u, n)
    ensures Titles(ProcessLevels(rows, u, n)) == Titles(SortOf(deco))
    decreases n
  {
    hide Fits, RunsSorted, Glue, MergedPairs, SortOf, LevelAgrees, Titles;
    if n == 1 {
      OneRunIsAll(rows, deco, u);
    } else if n == 2 {
      LastLevel(rows, deco, u, base);
      var next := Glue(MergedPairs(rows, u, 2));
      assert ProcessLevels(rows, u, 2) == ProcessLevels(next, 2 * u, 1) == next;
    } else {
      LevelIsRight(rows, deco, u, n, base);
      NextFits(u, n, |rows|, base);
      LevelsKeepTitles(Glue(MergedPairs(rows, u, n)), deco, 2 * u, n / 2, base);
    }
  }

  /** If at every level before the last each pair of sorted runs keeps its scores, the
      process server writes the titles of the sorted list. */
  lemma TitlesAreRight(movies: seq<Movie>, base: nat)
    requires PowerOfTwo(base) && base <= |movies| && AllPlain(movies) && Scored(movies)
    requires TitlesKept(DecorateAll(movies), |movies| / base, base)
    ensures Titles(ProcessAnswer(movies, base)) == Titles(SortOf(DecorateAll(movies)))
  {
    hide Fits, RunsSorted, Glue, SortedChunks, SortOf, Titles, ProcessLevels, DecorateAll, AllPlain, Scored, TitlesKept, Fill;
    ChunksFill(movies, base);
    ChunksAreRuns(movies, base);
    var u := |movies| / base;
    LevelsKeepTitles(Glue(SortedChunks(movies, u, base)), DecorateAll(movies), u, base, base);
  }

  /** So up to 5000 movies, which are cut in two at most, the titles are right. */
  lemma TwoChunksAreRight(movies: seq<Movie>)
    requires 1 <= |movies| <= 5000 && AllPlain(movies) && Scored(movies)
    ensures Titles(ProcessAnswer(movies, ChooseBase(|movies|))) == Titles(SortOf(DecorateAll(movies)))
  {
    hide Titles, ProcessAnswer, SortOf;
    TitlesAreRight(movies, ChooseBase(|movies|));
  }

  // ----- exactly when the scores are right too -----

  /** The scores of a list added up. */
  function Total(ms: seq<Movie>): real {
    if ms == [] then 0.0 else ms[0].score + Total(ms[1..])
  }

  lemma {:induction false} TotalOfBoth(a: seq<Movie>, b: seq<Movie>)
    ensures Total(a + b) == Total(a) + Total(b)
    decreases |a|
  {
    if a == [] {
      assert a + b == b;
    } else {
      assert (a + b)[1..] == a[1..] + b;
      TotalOfBoth(a[1..], b);
    }
  }

  lemma {:induction false} TotalOfMerge(l: seq<Movie>, r: seq<Movie>)
    ensures Total(Merge(l, r)) == Total(l) + Total(r)
    decreases |l| + |r|
  {
    hide LeftFirst;
    if l != [] && r != [] {
      if LeftFirst(l[0], r[0]) {
        TotalOfMerge(l[1..], r);
        assert Merge(l, r)[1..] == Merge(l[1..], r);
      } else {
        TotalOfMerge(l, r[1..]);
        assert Merge(l, r)[1..] == Merge(l, r[1..]);
      }
    }
  }

  ghost predicate Falling(ms: seq<Movie>) { forall i, j :: 0 <= i < j < |ms| ==> ms[i].score >= ms[j].score }

  ghost predicate NoneAbove(ms: seq<Movie>, top: real) { forall k :: 0 <= k < |ms| ==> ms[k].score <= top }

  lemma {:induction false} NoneAboveMerge(l: seq<Movie>, r: seq<Movie>, top: real)
    requires NoneAbove(l, top) && NoneAbove(r, top)
    ensures NoneAbove(Merge(l, r), top)
    decreases |l| + |r|
  {
    hide LeftFirst;
    if l != [] && r != [] {
      if LeftFirst(l[0], r[0]) { NoneAboveMerge(l[1..], r, top); } else { NoneAboveMerge(l, r[1..], top); }
    }
  }

  lemma {:induction false} MergeFalls(l: seq<Movie>, r: seq<Movie>)
    requires Falling(l) && Falling(r)
    ensures Falling(Merge(l, r))
    decreases |l| + |r|
  {
    if l != [] && r != [] {
      if LeftFirst(l[0], r[0]) {
        MergeFalls(l[1..], r);
        FallsBelow(l);
        FallsBelow(r);
        NoneAboveMerge(l[1..], r, l[0].score);
        PutOnTop(l[0], Merge(l[1..], r));
      } else {
        MergeFalls(l, r[1..]);
        FallsBelow(l);
        FallsBelow(r);
        NoneAboveMerge(l, r[1..], r[0].score);
        PutOnTop(r[0], Merge(l, r[1..]));
      }
    }
  }

  lemma FallsBelow(l: seq<Movie>)
    requires Falling(l) && l != []
    ensures NoneAbove(l, l[0].score) && Falling(l[1..])
  {
  }

  lemma PutOnTop(m: Movie, ms: seq<Movie>)
    requires Falling(ms) && NoneAbove(ms, m.score)
    ensures Falling([m] + ms)
  {
  }

  /** Flattening the tail of a falling list keeps it falling. */
  lemma FlatTailFalls(f: seq<Movie>, x: seq<Movie>)
    requires Falling(f + x)
    ensures Falling(f + Flat(x))
  {
    var a, b := f + x, f + Flat(x);
    forall i, j | 0 <= i < j < |b|
      ensures b[i].score >= b[j].score
    {
      if j >= |f| {
        assert a[|f|] == x[0] && b[j].score == x[0].score;
        if i < |f| { assert a[i].score >= a[|f|].score; }
      } else {
        assert a[i].score >= a[j].score;
      }
    }
  }

  lemma {:induction false} HigherTotals(a: seq<Movie>, b: seq<Movie>)
    requires |a| == |b| && forall k :: 0 <= k < |a| ==> a[k].score >= b[k].score
    ensures Total(a) >= Total(b)
    ensures (exists k :: 0 <= k < |a| && a[k].score > b[k].score) ==> Total(a) > Total(b)
    decreases |a|
  {
    if a != [] {
      HigherTotals(a[1..], b[1..]);
      if k :| 0 <= k < |a| && a[k].score > b[k].score && k > 0 {
        assert a[1..][k - 1] == a[k] && b[1..][k - 1] == b[k];
      }
    }
  }

  /** Flattening a falling list never lowers its total, and leaves it only if it
      changes nothing. */
  lemma FlatTotal(x: seq<Movie>)
    requires Falling(x)
    ensures Total(Flat(x)) >= Total(x)
    ensures Flat(x) != x ==> Total(Flat(x)) > Total(x)
  {
    HigherTotals(Flat(x), x);
    FlatIsSame(x);
  }

  lemma FallsBehind(f: seq<Movie>, x: seq<Movie>)
    requires Falling(f + x)
    ensures Falling(x)
  {
    forall i, j | 0 <= i < j < |x|
      ensures x[i].score >= x[j].score
    {
      assert (f + x)[|f| + i] == x[i] && (f + x)[|f| + j] == x[j];
    }
  }

  /** One merge by a process: the scores still fall, and their total rises unless the
      scores are kept. */
  lemma MergeRaises(l: seq<Movie>, r: seq<Movie>)
    requires Falling(l) && Falling(r)
    ensures Falling(ProcessMerge(l, r)) && Total(ProcessMerge(l, r)) >= Total(l) + Total(r)
    ensures Flat(Rest(l, r).0) != Rest(l, r).0 ==> Total(ProcessMerge(l, r)) > Total(l) + Total(r)
  {
    hide Falling, Total, Merge, Front, Rest;
    MergeFalls(l, r);
    TotalOfMerge(l, r);
    MergeIsFrontAndRest(l, r);
    var f, x, y := Front(l, r), Rest(l, r).0, Rest(l, r).1;
    OneIsUsedUp(l, r);
    TotalOfBoth(f, x + y);
    TotalOfBoth(f, Flat(x) + y);
    if x == [] {
      assert Flat(x) == x;
    } else {
      assert x + y == x && Flat(x) + y == Flat(x);
      FallsBehind(f, x);
      FlatTotal(x);
      FlatTailFalls(f, x);
    }
  }

  lemma OneIsUsedUp(l: seq<Movie>, r: seq<Movie>)
    ensures Rest(l, r).0 == [] || Rest(l, r).1 == []
  {
  }

  ghost predicate RunsFall(rows: seq<Movie>, u: nat, n: nat) {
    forall k: nat :: k < n ==> Falling(RunOf(rows, u, n, k))
  }

  ghost predicate AtLeast(ps: seq<seq<Movie>>, qs: seq<seq<Movie>>) {
    |ps| == |qs| && forall k :: 0 <= k < |ps| ==> Total(ps[k]) >= Total(qs[k])
  }

  lemma {:induction false} GlueTotals(ps: seq<seq<Movie>>, qs: seq<seq<Movie>>)
    requires AtLeast(ps, qs)
    ensures Total(Glue(ps)) >= Total(Glue(qs))
    ensures (exists k :: 0 <= k < |ps| && Total(ps[k]) > Total(qs[k])) ==> Total(Glue(ps)) > Total(Glue(qs))
    decreases |ps|
  {
    hide Total;
    if ps != [] {
      var n := |ps| - 1;
      TotalOfBoth(Glue(ps[..n]), ps[n]);
      TotalOfBoth(Glue(qs[..n]), qs[n]);
      GlueTotals(ps[..n], qs[..n]);
      if k :| 0 <= k < |ps| && Total(ps[k]) > Total(qs[k]) && k < n {
        assert ps[..n][k] == ps[k] && qs[..n][k] == qs[k];
      }
    }
  }

  /** The pairs of runs of a list, unmerged. */
  function Pairs(rows: seq<Movie>, u: nat, n: nat): (qs: seq<seq<Movie>>)
    ensures |qs| == n / 2
    ensures forall t :: 0 <= t < n / 2 ==> qs[t] == RunOf(rows, 2 * u, n / 2, t)
  {
    seq(n / 2, t requires 0 <= t < n / 2 => RunOf(rows, 2 * u, n / 2, t))
  }

  lemma PairRaises(rows: seq<Movie>, u: nat, n: nat, t: nat, base: nat)
    requires Fits(u, n, |rows|, base) && n % 2 == 0 && t < n / 2 && RunsFall(rows, u, n)
    ensures var l, r := RunOf(rows, u, n, 2 * t), RunOf(rows, u, n, 2 * t + 1); var q := RunOf(rows, 2 * u, n / 2, t);
      && Falling(ProcessMerge(l, r)) && Total(ProcessMerge(l, r)) >= Total(q)
      && (Flat(Rest(l, r).0) != Rest(l, r).0 ==> Total(ProcessMerge(l, r)) > Total(q))
  {
    hide Fits, RunOf, Falling, Total, ProcessMerge, Rest, PairSpan;
    RunsPair(rows, u, n, t, base);
    var l, r := RunOf(rows, u, n, 2 * t), RunOf(rows, u, n, 2 * t + 1);
    MergeRaises(l, r);
    TotalOfBoth(l, r);
  }

  /** A level never lowers the total. */
  lemma LevelRaises(rows: seq<Movie>, u: nat, n: nat, base: nat)
    requires Fits(u, n, |rows|, base) && n % 2 == 0 && RunsFall(rows, u, n)
    ensures var next := Glue(MergedPairs(rows, u, n));
      && |next| == |rows| && RunsFall(next, 2 * u, n / 2) && Total(next) >= Total(rows)
      && ((exists t: nat :: t < n / 2 && Unequal(RunOf(rows, u, n, 2 * t), RunOf(rows, u, n, 2 * t + 1))) ==> Total(next) > Total(rows))
  {
    hide Fits, RunOf, Falling, Total, ProcessMerge, Rest, Glue, RunsFall;
    var ps, qs := MergedPairs(rows, u, n), Pairs(rows, u, n);
    LevelFills(rows, u, n, base);
    forall t: nat | t < n / 2
      ensures Total(ps[t]) >= Total(qs[t]) && Falling(ps[t])
      ensures Unequal(RunOf(rows, u, n, 2 * t), RunOf(rows, u, n, 2 * t + 1)) ==> Total(ps[t]) > Total(qs[t])
    {
      PairRaises(rows, u, n, t, base);
    }
    GlueIs(rows, qs, 2 * u, base);
    GlueTotals(ps, qs);
    NextFalls(ps, u, n);
  }

  /** A merge by a process changes a score. */
  ghost predicate Unequal(l: seq<Movie>, r: seq<Movie>) { Flat(Rest(l, r).0) != Rest(l, r).0 }

  lemma NextFalls(ps: seq<seq<Movie>>, u: nat, n: nat)
    requires |ps| == n / 2 && Fill(Glue(ps), ps, 2 * u) && forall t: nat :: t < n / 2 ==> Falling(ps[t])
    ensures RunsFall(Glue(ps), 2 * u, n / 2)
  {
    hide Glue, Falling, RunOf;
    forall k: nat | k < n / 2
      ensures Falling(RunOf(Glue(ps), 2 * u, n / 2, k))
    {
      assert RunOf(Glue(ps), 2 * u, |ps|, k) == ps[k];
    }
  }

  lemma {:induction false} LevelsRaise(rows: seq<Movie>, u: nat, n: nat, base: nat)
    requires PowerOfTwo(n) && Fits(u, n, |rows|, base) && RunsFall(rows, u, n)
    ensures Total(ProcessLevels(rows, u, n)) >= Total(rows)
    decreases n
  {
    hide Fits, RunsFall, Glue, MergedPairs, Total;
    if n > 1 {
      LevelRaises(rows, u, n, base);
      NextFits(u, n, |rows|, base);
      LevelsRaise(Glue(MergedPairs(rows, u, n)), 2 * u, n / 2, base);
    }
  }

  lemma {:induction false} TotalOfSame(a: seq<Movie>, b: seq<Movie>)
    requires multiset(a) == multiset(b)
    ensures Total(a) == Total(b)
    decreases |a|
  {
    SameSize(a, b);
    if a != [] {
      assert a[0] in multiset(b);
      var i :| 0 <= i < |b| && b[i] == a[0];
      RestAgrees(a, b, 0, i);
      assert Without(a, 0) == a[1..];
      TotalOfSame(a[1..], Without(b, i));
      TotalWithout(b, i);
    }
  }

  lemma TotalWithout(b: seq<Movie>, i: nat)
    requires i < |b|
    ensures Total(b) == b[i].score + Total(Without(b, i))
  {
    hide Total;
    TotalOfBoth(b[..i], [b[i]] + b[i + 1..]);
    TotalOfBoth([b[i]], b[i + 1..]);
    TotalOfBoth(b[..i], b[i + 1..]);
    TotalOfOne(b[i]);
    assert b == b[..i] + ([b[i]] + b[i + 1..]);
  }

  lemma TotalOfOne(m: Movie)
    ensures Total([m]) == m.score
  {
    assert [m][1..] == [];
  }

  lemma SortedRunsFall(rows: seq<Movie>, deco: seq<Movie>, u: nat, n: nat, base: nat)
    requires Fits(u, n, |rows|, base) && RunsSorted(rows, deco, u, n)
    ensures RunsFall(rows, u, n)
  {
    hide Fits, RunOf, RunsSorted, SortOf;
    forall k: nat | k < n
      ensures Falling(RunOf(rows, u, n, k))
    {
      SortedRun(rows, deco, u, n, k, base);
    }
  }

  /** The rows of a level hold the same movies as the decorated list. */
  lemma SortedRunsTotal(rows: seq<Movie>, deco: seq<Movie>, u: nat, n: nat, base: nat)
    requires Fits(u, n, |rows|, base) && RunsSorted(rows, deco, u, n)
    ensures Total(rows) == Total(SortOf(deco))
  {
    hide Fits, RunOf, RunStart, RunEnd, SortOf, Total, Glue, RunSorted;
    var ps := seq<seq<Movie>>(n, k requires 0 <= k < n => RunOf(rows, u, n, k));
    var qs := seq<seq<Movie>>(n, k requires 0 <= k < n => RunOf(deco, u, n, k));
    forall k | 0 <= k < n
      ensures Total(ps[k]) == Total(qs[k])
    {
      SortedRun(rows, deco, u, n, k, base);
      SortOfIsOrdered(RunOf(deco, u, n, k));
      TotalOfSame(ps[k], qs[k]);
    }
    GlueIs(rows, ps, u, base);
    GlueIs(deco, qs, u, base);
    GlueTotals(ps, qs);
    GlueTotals(qs, ps);
    SortOfIsOrdered(deco);
    TotalOfSame(deco, SortOf(deco));
  }

  lemma BrokenLevel(rows: seq<Movie>, deco: seq<Movie>, u: nat, n: nat, base: nat)
    requires PowerOfTwo(n) && n > 1 && Fits(u, n, |rows|, base) && RunsSorted(rows, deco, u, n) && !LevelAgrees(deco, u, n)
    ensures ProcessLevels(rows, u, n) != SortOf(deco)
  {
    hide Fits, RunsFall, RunOf, Glue, MergedPairs, Total, SortOf, PairAgrees, RunsSorted;
    var t: nat :| t < n / 2 && !PairAgrees(deco, u, n, t);
    PairExact(rows, deco, u, n, t, base);
    assert Unequal(RunOf(rows, u, n, 2 * t), RunOf(rows, u, n, 2 * t + 1));
    SortedRunsFall(rows, deco, u, n, base);
    SortedRunsTotal(rows, deco, u, n, base);
    LevelRaises(rows, u, n, base);
    NextFits(u, n, |rows|, base);
    LevelsRaise(Glue(MergedPairs(rows, u, n)), 2 * u, n / 2, base);
  }

  lemma {:induction false} LevelsExact(rows: seq<Movie>, deco: seq<Movie>, u: nat, n: nat, base: nat)
    requires PowerOfTwo(n) && Fits(u, n, |rows|, base) && RunsSorted(rows, deco, u, n)
    ensures ProcessLevels(rows, u, n) == SortOf(deco) <==> ScoresKept(deco, u, n)
    decreases n
  {
    hide Fits, RunsSorted, Glue, MergedPairs, SortOf, LevelAgrees;
    if n == 1 {
      OneRunIsAll(rows, deco, u);
    } else if LevelAgrees(deco, u, n) {
      LevelIsRight(rows, deco, u, n, base);
      NextFits(u, n, |rows|, base);
      LevelsExact(Glue(MergedPairs(rows, u, n)), deco, 2 * u, n / 2, base);
    } else {
      BrokenLevel(rows, deco, u, n, base);
    }
  }

  /** Exactly when the process server ends with the sorted list, scores included: if
      at every level each pair of sorted runs keeps its scores. */
  lemma ProcessServerExact(movies: seq<Movie>, base: nat)
    requires PowerOfTwo(base) && base <= |movies| && AllPlain(movies) && Scored(movies)
    ensures ProcessAnswer(movies, base) == SortOf(DecorateAll(movies)) <==> ScoresKept(DecorateAll(movies), |movies| / base, base)
  {
    hide Fits, RunsSorted, Glue, SortedChunks, SortOf, ProcessLevels, ScoresKept, DecorateAll, AllPlain, Scored, Fill;
    ChunksFill(movies, base);
    ChunksAreRuns(movies, base);
    var u := |movies| / base;
    LevelsExact(Glue(SortedChunks(movies, u, base)), DecorateAll(movies), u, base, base);
  }
}
