/** The whole pipeline of the server: cut the list into chunks, sort each chunk,
    then merge neighbouring runs level by level until one is left. */
module MovieServer {
  import opened MovieOrder
  import opened MovieSort
  import opened MovieMerge
  import opened MovieWorkers
  import opened MovieLevels

  predicate PowerOfTwo(n: nat) {
    n == 1 || (n > 1 && n % 2 == 0 && PowerOfTwo(n / 2))
  }

  /** The number of chunks for a list of this length: chunks of at least 1000 movies,
      unless there is only one, and of at most 3750, unless there are 32. */
  function ChooseBase(cnt: nat): (base: nat)
    ensures PowerOfTwo(base) && 1 <= base <= 32
    ensures cnt >= 1 ==> base <= cnt
    ensures base > 1 ==> cnt / base >= 1000
    ensures base < 32 ==> cnt / base <= 3750
  {
    if cnt > 60000 then 32
    else if cnt > 30000 then 16
    else if cnt > 10000 then 8
    else if cnt > 5000 then 4
    else if cnt > 2000 then 2
    else 1
  }

  /** The lengths from which on the list is cut into more chunks. */
  lemma Thresholds(cnt: nat)
    ensures ChooseBase(cnt) >= 2 <==> cnt >= 2001
    ensures ChooseBase(cnt) >= 4 <==> cnt >= 5001
    ensures ChooseBase(cnt) >= 8 <==> cnt >= 10001
    ensures ChooseBase(cnt) >= 16 <==> cnt >= 30001
    ensures ChooseBase(cnt) >= 32 <==> cnt >= 60001
  {
  }

  // ----- n runs of length u, the last one reaching to the end of the list -----

  function RunStart(u: nat, k: nat): nat { u * k }

  function RunEnd(u: nat, n: nat, k: nat, cnt: nat): nat {
    if k + 1 == n then cnt else RunStart(u, k + 1)
  }

  /** The runs fit the list; what is over goes to the last one. */
  predicate Fits(u: nat, n: nat, cnt: nat, base: nat) {
    u > 0 && n > 0 && RunStart(u, n) <= cnt < RunStart(u, n) + base
  }

  lemma ChunksFit(cnt: nat, base: nat)
    requires 1 <= base <= cnt
    ensures Fits(cnt / base, base, cnt, base)
  {
    assert cnt == (cnt / base) * base + cnt % base;
  }

  lemma {:induction false} StartsGrow(u: nat, i: nat, j: nat)
    requires i <= j
    ensures RunStart(u, i) <= RunStart(u, j)
    ensures i < j ==> RunStart(u, i) + u <= RunStart(u, j)
    decreases j
  {
    if i < j {
      assert RunStart(u, j) == RunStart(u, j - 1) + u;
      StartsGrow(u, i, j - 1);
    }
  }

  /** Every run has at least u movies, and fewer than u + base. */
  lemma RunBounds(u: nat, n: nat, k: nat, cnt: nat, base: nat)
    requires Fits(u, n, cnt, base) && k < n
    ensures RunStart(u, k) + u <= RunEnd(u, n, k, cnt) < RunStart(u, k) + u + base
    ensures RunEnd(u, n, k, cnt) <= cnt
  {
    StartsGrow(u, k, n);
    StartsGrow(u, k + 1, n);
    assert RunStart(u, k + 1) == RunStart(u, k) + u;
  }

  function Sorters(u: nat, n: nat, cnt: nat): (ws: seq<Worker>)
    ensures |ws| == n
    ensures forall k :: 0 <= k < n ==> ws[k] == Sorter(RunStart(u, k), RunEnd(u, n, k, cnt), 0, false)
  {
    seq(n, k requires 0 <= k < n => Sorter(RunStart(u, k), RunEnd(u, n, k, cnt), 0, false))
  }

  /** The span of pair t of n runs. */
  function PairSpan(u: nat, n: nat, t: nat, cnt: nat): Span { SpanOf(u, t, t + 1 == n / 2, cnt) }

  function NewMerger(p: Span): Worker { Merger(p, Scanning, p.lo, p.mid, p.lo, 0, []) }

  /** The merger of pair t works on runs 2 * t and 2 * t + 1. */
  function Mergers(u: nat, n: nat, cnt: nat): (ws: seq<Worker>)
    ensures |ws| == n / 2
    ensures forall t :: 0 <= t < n / 2 ==> ws[t] == NewMerger(PairSpan(u, n, t, cnt))
  {
    seq(n / 2, t requires 0 <= t < n / 2 => NewMerger(PairSpan(u, n, t, cnt)))
  }

  // ----- what the server may answer -----

  ghost predicate LevelMay(ws: seq<Worker>, rows: seq<Movie>, result: seq<Movie>) {
    exists schedule :: Joined(Run(Level(ws, rows), schedule)) && Run(Level(ws, rows), schedule).rows == result
  }

  ghost predicate MergesMay(rows: seq<Movie>, u: nat, n: nat, result: seq<Movie>)
    decreases n
  {
    if n <= 1 then result == rows
    else exists next :: LevelMay(Mergers(u, n, |rows|), rows, next) && MergesMay(next, 2 * u, n / 2, result)
  }

  /** The server, with this many chunks, may end with this list. */
  ghost predicate ServerMay(movies: seq<Movie>, base: nat, result: seq<Movie>)
    requires base > 0
  {
    var u := |movies| / base;
    exists sorted :: LevelMay(Sorters(u, base, |movies|), movies, sorted) && MergesMay(sorted, u, base, result)
  }

  // ----- the invariant between levels -----

  ghost predicate RunSorted(rows: seq<Movie>, deco: seq<Movie>, lo: nat, hi: nat) {
    lo <= hi <= |rows| == |deco| && rows[lo..hi] == SortOf(deco[lo..hi])
  }

  /** Every run holds its own movies, sorted. */
  ghost predicate RunsSorted(rows: seq<Movie>, deco: seq<Movie>, u: nat, n: nat) {
    |rows| == |deco| && forall k :: 0 <= k < n ==> RunSorted(rows, deco, RunStart(u, k), RunEnd(u, n, k, |rows|))
  }

  lemma SortersTile(u: nat, n: nat, cnt: nat, base: nat)
    requires Fits(u, n, cnt, base)
    ensures Tiled(Sorters(u, n, cnt), cnt)
  {
    var ws := Sorters(u, n, cnt);
    forall k | 0 <= k < n
      ensures ws[k].Lo() < ws[k].Hi() <= cnt
    {
      RunBounds(u, n, k, cnt, base);
    }
  }

  lemma NewSorterIsFresh(lo: nat, hi: nat, rows: seq<Movie>)
    requires lo < hi <= |rows| && AllPlain(rows)
    ensures Fresh(Sorter(lo, hi, 0, false), rows)
  {
    var part := rows[lo..hi];
    assert Selected(part, part, 0);
  }

  lemma SortersStart(movies: seq<Movie>, base: nat)
    requires 1 <= base <= |movies| && AllPlain(movies)
    ensures Starts(Level(Sorters(|movies| / base, base, |movies|), movies))
  {
    hide Fresh, Tiled, RunStart, RunEnd;
    var cnt := |movies|;
    var u := cnt / base;
    ChunksFit(cnt, base);
    SortersTile(u, base, cnt, base);
    forall k | 0 <= k < base
      ensures Fresh(Sorters(u, base, cnt)[k], movies)
    {
      RunBounds(u, base, k, cnt, base);
      NewSorterIsFresh(RunStart(u, k), RunEnd(u, base, k, cnt), movies);
    }
  }

  lemma DecorateSlice(movies: seq<Movie>, lo: nat, hi: nat)
    requires lo <= hi <= |movies|
    ensures DecorateAll(movies)[lo..hi] == DecorateAll(movies[lo..hi])
  {
  }

  /** If every sorter has met its target, the runs are sorted. */
  lemma ChunksAreSorted(movies: seq<Movie>, base: nat, sorted: seq<Movie>)
    requires 1 <= base <= |movies| == |sorted|
    requires AllMeet(Sorters(|movies| / base, base, |movies|), sorted, movies)
    ensures RunsSorted(sorted, DecorateAll(movies), |movies| / base, base)
  {
    hide RunStart, RunEnd, SortOf;
    var cnt, u := |movies|, |movies| / base;
    var ws := Sorters(u, base, cnt);
    forall k | 0 <= k < base
      ensures RunSorted(sorted, DecorateAll(movies), RunStart(u, k), RunEnd(u, base, k, cnt))
    {
      ChunksFit(cnt, base);
      RunBounds(u, base, k, cnt, base);
      assert IsTarget(ws[k], sorted, movies);
      DecorateSlice(movies, RunStart(u, k), RunEnd(u, base, k, cnt));
    }
  }

  lemma SortingLevel(movies: seq<Movie>, base: nat, sorted: seq<Movie>)
    requires 1 <= base <= |movies| && AllPlain(movies)
    requires LevelMay(Sorters(|movies| / base, base, |movies|), movies, sorted)
    ensures RunsSorted(sorted, DecorateAll(movies), |movies| / base, base)
  {
    hide Starts, Run, Joined, IsTarget;
    var ws := Sorters(|movies| / base, base, |movies|);
    SortersStart(movies, base);
    var schedule :| Joined(Run(Level(ws, movies), schedule)) && Run(Level(ws, movies), schedule).rows == sorted;
    LevelMeetsTargets(Level(ws, movies), schedule);
    ChunksAreSorted(movies, base, sorted);
  }

  // ----- one merge level -----

  /** Where pair t's runs lie, and how the runs of the next level arise. */
  lemma PairOfRuns(u: nat, n: nat, t: nat, cnt: nat, base: nat)
    requires Fits(u, n, cnt, base) && n % 2 == 0 && t < n / 2
    ensures var p := PairSpan(u, n, t, cnt);
      && p.lo == RunStart(u, 2 * t) == RunStart(2 * u, t)
      && p.mid == RunStart(u, 2 * t + 1) == RunEnd(u, n, 2 * t, cnt)
      && p.end == RunEnd(u, n, 2 * t + 1, cnt) == RunEnd(2 * u, n / 2, t, cnt)
      && FitsSpan(p, cnt, base)
  {
    RunBounds(u, n, 2 * t + 1, cnt, base);
    assert RunStart(u, 2 * t) == RunStart(2 * u, t);
    assert RunStart(u, 2 * t + 1) == RunStart(u, 2 * t) + u;
    assert RunStart(u, 2 * t + 2) == RunStart(u, 2 * t) + u + u;
    assert RunStart(2 * u, t + 1) == RunStart(2 * u, t) + u + u;
  }

  lemma NextFits(u: nat, n: nat, cnt: nat, base: nat)
    requires Fits(u, n, cnt, base) && n % 2 == 0
    ensures Fits(2 * u, n / 2, cnt, base)
  {
    assert 2 * u * (n / 2) == u * n by { assert n == 2 * (n / 2); }
  }

  lemma SlicesJoin<T>(a: seq<T>, lo: nat, mid: nat, hi: nat)
    requires lo <= mid <= hi <= |a|
    ensures a[lo..hi] == a[lo..mid] + a[mid..hi]
    ensures a[lo..hi][..mid - lo] == a[lo..mid] && a[lo..hi][mid - lo..] == a[mid..hi]
  {
  }

  /** A pair of sorted runs, merged, is one sorted run. */
  lemma PairMerges(rows: seq<Movie>, next: seq<Movie>, deco: seq<Movie>, lo: nat, mid: nat, hi: nat)
    requires |next| == |rows| && RunSorted(rows, deco, lo, mid) && RunSorted(rows, deco, mid, hi)
    requires next[lo..hi] == Merge(rows[lo..mid], rows[mid..hi])
    ensures RunSorted(next, deco, lo, hi)
  {
    hide Merge, SortOf;
    SlicesJoin(deco, lo, mid, hi);
    MergeOfSorts(deco[lo..mid], deco[mid..hi]);
  }

  /** Merging every pair takes the invariant to the next level. */
  lemma NextLevel(rows: seq<Movie>, next: seq<Movie>, deco: seq<Movie>, u: nat, n: nat, base: nat)
    requires Fits(u, n, |rows|, base) && n % 2 == 0 && RunsSorted(rows, deco, u, n) && |next| == |rows|
    requires forall t :: 0 <= t < n / 2 ==> SpanMerged(rows, next, PairSpan(u, n, t, |rows|))
    ensures RunsSorted(next, deco, 2 * u, n / 2)
  {
    hide RunSorted, SpanMerged, PairSpan, RunStart, RunEnd;
    var cnt := |rows|;
    forall t | 0 <= t < n / 2
      ensures RunSorted(next, deco, RunStart(2 * u, t), RunEnd(2 * u, n / 2, t, cnt))
    {
      var p := PairSpan(u, n, t, cnt);
      PairOfRuns(u, n, t, cnt, base);
      assert RunSorted(rows, deco, RunStart(u, 2 * t), RunEnd(u, n, 2 * t, cnt));
      assert RunSorted(rows, deco, RunStart(u, 2 * t + 1), RunEnd(u, n, 2 * t + 1, cnt));
      SpanMergedMeans(rows, next, p);
      PairMerges(rows, next, deco, p.lo, p.mid, p.end);
    }
  }

  ghost predicate SpanMerged(rows: seq<Movie>, next: seq<Movie>, p: Span) {
    p.lo <= p.mid <= p.end <= |rows| == |next| && next[p.lo..p.end] == Merge(rows[p.lo..p.mid], rows[p.mid..p.end])
  }

  lemma SpanMergedMeans(rows: seq<Movie>, next: seq<Movie>, p: Span)
    requires SpanMerged(rows, next, p)
    ensures p.lo <= p.mid <= p.end <= |rows| == |next| && next[p.lo..p.end] == Merge(rows[p.lo..p.mid], rows[p.mid..p.end])
  {
  }

  lemma NewMergerIsFresh(p: Span, rows: seq<Movie>, base: nat)
    requires FitsSpan(p, |rows|, base)
    ensures Fresh(NewMerger(p), rows)
  {
    hide Merge, Merged;
    var part := rows[p.lo..p.end];
    MergeStarts(part[..p.mid - p.lo], part[p.mid - p.lo..]);
  }

  lemma MergersTile(u: nat, n: nat, cnt: nat, base: nat)
    requires Fits(u, n, cnt, base) && n % 2 == 0
    ensures Tiled(Mergers(u, n, cnt), cnt)
  {
    hide PairSpan;
    var ws := Mergers(u, n, cnt);
    forall t | 0 <= t < n / 2
      ensures ws[t].Lo() < ws[t].Hi() <= cnt
      ensures t == 0 ==> ws[t].Lo() == 0
      ensures t + 1 == n / 2 ==> ws[t].Hi() == cnt
      ensures t > 0 ==> ws[t].Lo() == ws[t - 1].Hi()
    {
      PairOfRuns(u, n, t, cnt, base);
      if t > 0 {
        PairOfRuns(u, n, t - 1, cnt, base);
      }
    }
  }

  lemma MergersStart(rows: seq<Movie>, u: nat, n: nat, base: nat)
    requires Fits(u, n, |rows|, base) && n % 2 == 0
    ensures Starts(Level(Mergers(u, n, |rows|), rows))
  {
    hide Fresh, Tiled, RunStart, RunEnd, PairSpan, NewMerger;
    MergersTile(u, n, |rows|, base);
    forall t | 0 <= t < n / 2
      ensures Fresh(Mergers(u, n, |rows|)[t], rows)
    {
      PairOfRuns(u, n, t, |rows|, base);
      NewMergerIsFresh(PairSpan(u, n, t, |rows|), rows, base);
    }
  }

  lemma TargetIsMerge(p: Span, rows: seq<Movie>, next: seq<Movie>, base: nat)
    requires FitsSpan(p, |rows|, base) && IsTarget(NewMerger(p), next, rows)
    ensures SpanMerged(rows, next, p)
  {
    hide Merge;
    SlicesJoin(rows, p.lo, p.mid, p.end);
  }

  /** If every merger has met its target, there are half as many runs, sorted. */
  lemma PairsAreMerged(rows: seq<Movie>, deco: seq<Movie>, u: nat, n: nat, base: nat, next: seq<Movie>)
    requires Fits(u, n, |rows|, base) && n % 2 == 0 && RunsSorted(rows, deco, u, n) && |next| == |rows|
    requires AllMeet(Mergers(u, n, |rows|), next, rows)
    ensures RunsSorted(next, deco, 2 * u, n / 2)
  {
    hide IsTarget, RunStart, RunEnd, PairSpan, SpanMerged, RunsSorted, FitsSpan, NewMerger;
    var cnt := |rows|;
    forall t | 0 <= t < n / 2
      ensures SpanMerged(rows, next, PairSpan(u, n, t, cnt))
    {
      PairOfRuns(u, n, t, cnt, base);
      assert IsTarget(Mergers(u, n, cnt)[t], next, rows);
      TargetIsMerge(PairSpan(u, n, t, cnt), rows, next, base);
    }
    NextLevel(rows, next, deco, u, n, base);
  }

  lemma MergingLevel(rows: seq<Movie>, deco: seq<Movie>, u: nat, n: nat, base: nat, next: seq<Movie>)
    requires Fits(u, n, |rows|, base) && n % 2 == 0 && RunsSorted(rows, deco, u, n)
    requires LevelMay(Mergers(u, n, |rows|), rows, next)
    ensures |next| == |rows| && RunsSorted(next, deco, 2 * u, n / 2)
  {
    hide Starts, Run, Joined, IsTarget, RunsSorted;
    var ws := Mergers(u, n, |rows|);
    MergersStart(rows, u, n, base);
    var schedule :| Joined(Run(Level(ws, rows), schedule)) && Run(Level(ws, rows), schedule).rows == next;
    LevelMeetsTargets(Level(ws, rows), schedule);
    PairsAreMerged(rows, deco, u, n, base, next);
  }

  // ----- all levels -----

  lemma OneRunIsAll(rows: seq<Movie>, deco: seq<Movie>, u: nat)
    requires RunsSorted(rows, deco, u, 1)
    ensures rows == SortOf(deco)
  {
    assert RunSorted(rows, deco, RunStart(u, 0), RunEnd(u, 1, 0, |rows|));
    assert rows[0..|rows|] == rows && deco[0..|deco|] == deco;
  }

  lemma {:induction false} MergesEnd(rows: seq<Movie>, deco: seq<Movie>, u: nat, n: nat, base: nat, result: seq<Movie>)
    requires PowerOfTwo(n) && Fits(u, n, |rows|, base) && RunsSorted(rows, deco, u, n)
    requires MergesMay(rows, u, n, result)
    ensures result == SortOf(deco)
    decreases n
  {
    hide Fits, RunsSorted, LevelMay, SortOf;
    if n == 1 {
      OneRunIsAll(rows, deco, u);
    } else {
      var next :| LevelMay(Mergers(u, n, |rows|), rows, next) && MergesMay(next, 2 * u, n / 2, result);
      MergingLevel(rows, deco, u, n, base, next);
      NextFits(u, n, |rows|, base);
      MergesEnd(next, deco, 2 * u, n / 2, base, result);
    }
  }

  lemma {:induction false} MergesAnswer(rows: seq<Movie>, deco: seq<Movie>, u: nat, n: nat, base: nat) returns (result: seq<Movie>)
    requires PowerOfTwo(n) && Fits(u, n, |rows|, base) && RunsSorted(rows, deco, u, n)
    ensures MergesMay(rows, u, n, result)
    decreases n
  {
    hide Fits, RunsSorted;
    if n == 1 {
      result := rows;
    } else {
      MergersStart(rows, u, n, base);
      var lv := Level(Mergers(u, n, |rows|), rows);
      var schedule := LevelJoins(lv);
      var next := Run(lv, schedule).rows;
      assert LevelMay(Mergers(u, n, |rows|), rows, next);
      MergingLevel(rows, deco, u, n, base, next);
      NextFits(u, n, |rows|, base);
      result := MergesAnswer(next, deco, 2 * u, n / 2, base);
    }
  }

  /** Whatever the number of chunks and the order of the threads, the server ends
      with the one sorted list of the decorated movies, and it does end. */
  lemma ServerSorts(movies: seq<Movie>, base: nat, result: seq<Movie>)
    requires PowerOfTwo(base) && base <= |movies| && AllPlain(movies) && Scored(movies)
    ensures ServerMay(movies, base, result) <==> result == SortOf(DecorateAll(movies))
  {
    var u := |movies| / base;
    ChunksFit(|movies|, base);
    if ServerMay(movies, base, result) {
      ServerIsRight(movies, base, result);
    }
    var answer := ServerAnswers(movies, base);
    ServerIsRight(movies, base, answer);
  }

  lemma ServerIsRight(movies: seq<Movie>, base: nat, result: seq<Movie>)
    requires PowerOfTwo(base) && base <= |movies| && AllPlain(movies)
    requires ServerMay(movies, base, result)
    ensures result == SortOf(DecorateAll(movies))
  {
    hide Fits, RunsSorted, LevelMay, SortOf, MergesMay;
    var u := |movies| / base;
    var sorted :| LevelMay(Sorters(u, base, |movies|), movies, sorted) && MergesMay(sorted, u, base, result);
    SortingLevel(movies, base, sorted);
    ChunksFit(|movies|, base);
    assert |sorted| == |movies| by { SortedSize(sorted, DecorateAll(movies), u, base); }
    MergesEnd(sorted, DecorateAll(movies), u, base, base, result);
  }

  lemma SortedSize(rows: seq<Movie>, deco: seq<Movie>, u: nat, n: nat)
    requires RunsSorted(rows, deco, u, n)
    ensures |rows| == |deco|
  {
  }

  lemma ServerAnswers(movies: seq<Movie>, base: nat) returns (result: seq<Movie>)
    requires PowerOfTwo(base) && base <= |movies| && AllPlain(movies)
    ensures ServerMay(movies, base, result)
  {
    hide Fits, RunsSorted, MergesMay;
    var u := |movies| / base;
    SortersStart(movies, base);
    var lv := Level(Sorters(u, base, |movies|), movies);
    var schedule := LevelJoins(lv);
    var sorted := Run(lv, schedule).rows;
    assert LevelMay(Sorters(u, base, |movies|), movies, sorted);
    SortingLevel(movies, base, sorted);
    ChunksFit(|movies|, base);
    result := MergesAnswer(sorted, DecorateAll(movies), u, base, base);
  }

  /** In particular the server, which picks its number of chunks by the length of
      the list, ends with what one sort of the whole list gives. */
  lemma ServerIsOneSort(movies: seq<Movie>, result: seq<Movie>)
    requires movies != [] && AllPlain(movies) && Scored(movies)
    ensures ServerMay(movies, ChooseBase(|movies|), result) <==> ServerMay(movies, 1, result)
  {
    ServerSorts(movies, ChooseBase(|movies|), result);
    ServerSorts(movies, 1, result);
  }

  /** That list is the one arrangement of the decorated movies by score descending
      and then title ascending. */
  lemma AnswerIsTheOrder(movies: seq<Movie>, base: nat, result: seq<Movie>)
    requires PowerOfTwo(base) && base <= |movies| && AllPlain(movies) && Scored(movies)
    ensures ServerMay(movies, base, result) <==> Ordered(result) && multiset(result) == multiset(DecorateAll(movies))
  {
    ServerSorts(movies, base, result);
    SortOfIsOrdered(DecorateAll(movies));
    if Ordered(result) && multiset(result) == multiset(DecorateAll(movies)) {
      OrderedIsSortOf(result, DecorateAll(movies));
    }
  }

  /** In plain terms: scores never rise along the list, equal ones stand by title, and
      every title is that of a movie with the secret behind it. */
  lemma AnswerInPlainTerms(movies: seq<Movie>, base: nat, result: seq<Movie>)
    requires PowerOfTwo(base) && base <= |movies| && AllPlain(movies) && Scored(movies)
    requires ServerMay(movies, base, result)
    ensures |result| == |movies|
    ensures forall i, j :: 0 <= i < j < |result| ==> result[i].score >= result[j].score
    ensures forall i, j :: 0 <= i < j < |result| && result[i].score == result[j].score ==> Compare(result[i].title, result[j].title) <= 0
    ensures forall i :: 0 <= i < |result| ==> exists m :: m in movies && result[i].title == m.title + SECRET && result[i].score == m.score
  {
    hide ServerMay, PowerOfTwo, Compare;
    AnswerIsTheOrder(movies, base, result);
    var deco := DecorateAll(movies);
    SameSize(result, deco);
    forall i | 0 <= i < |result|
      ensures exists m :: m in movies && result[i].title == m.title + SECRET && result[i].score == m.score
    {
      assert result[i] in multiset(deco);
      var k :| 0 <= k < |deco| && deco[k] == result[i];
      assert movies[k] in movies;
    }
  }
}
