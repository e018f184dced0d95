/** One request as the threaded server works it off: two parallel arrays, changed in
    place by the sort library and the merges. */
module MovieRequest {
  import opened MovieOrder
  import opened MovieSort
  import opened MovieMerge
  import opened MovieWorkers
  import opened MovieLevels
  import opened MovieServer

  /** The jobs still to do have found their part of the list as it was; the others
      have brought theirs to its target. */
  ghost predicate Pending(ws: seq<Worker>, todo: set<nat>, rows: seq<Movie>, rows0: seq<Movie>) {
    |rows| == |rows0| && forall k :: 0 <= k < |ws| ==> JobState(ws[k], k in todo, rows, rows0)
  }

  ghost predicate JobState(w: Worker, waits: bool, rows: seq<Movie>, rows0: seq<Movie>) {
    Within(w, rows) && |rows| == |rows0| && if waits then PartOf(w, rows) == PartOf(w, rows0) else IsTarget(w, rows, rows0)
  }

  /** The rest of the list is as it was. */
  ghost predicate SameOutside(w: Worker, rows: seq<Movie>, rows': seq<Movie>) {
    |rows'| == |rows| && forall k :: 0 <= k < |rows| && (k < w.Lo() || w.Hi() <= k) ==> rows'[k] == rows[k]
  }

  lemma OtherJobWaits(w: Worker, v: Worker, waits: bool, rows: seq<Movie>, rows': seq<Movie>, rows0: seq<Movie>)
    requires JobState(v, waits, rows, rows0) && SameOutside(w, rows, rows')
    requires v.Hi() <= w.Lo() || w.Hi() <= v.Lo()
    ensures JobState(v, waits, rows', rows0)
  {
    hide Target;
    assert PartOf(v, rows') == PartOf(v, rows);
  }

  lemma OwnJobDone(w: Worker, rows: seq<Movie>, rows': seq<Movie>, rows0: seq<Movie>)
    requires JobState(w, true, rows, rows0) && IsTarget(w, rows', rows)
    ensures JobState(w, false, rows', rows0)
  {
    hide Target;
  }

  /** Doing one job, in whatever order, leaves one job less. */
  lemma JobDone(ws: seq<Worker>, todo: set<nat>, k: nat, rows: seq<Movie>, rows': seq<Movie>, rows0: seq<Movie>)
    requires Tiled(ws, |rows|) && Pending(ws, todo, rows, rows0) && k in todo && k < |ws|
    requires IsTarget(ws[k], rows', rows) && SameOutside(ws[k], rows, rows')
    ensures Pending(ws, todo - {k}, rows', rows0)
  {
    hide IsTarget, JobState, SameOutside;
    assert |rows'| == |rows| by { SameSizes(ws[k], rows, rows'); }
    forall i | 0 <= i < |ws|
      ensures JobState(ws[i], i in todo - {k}, rows', rows0)
    {
      assert JobState(ws[i], i in todo, rows, rows0);
      if i == k {
        OwnJobDone(ws[k], rows, rows', rows0);
      } else {
        if i < k { TilesAreApart(ws, |rows|, i, k); } else { TilesAreApart(ws, |rows|, k, i); }
        OtherJobWaits(ws[k], ws[i], i in todo, rows, rows', rows0);
        assert i in todo <==> i in todo - {k};
      }
    }
  }

  lemma SameSizes(w: Worker, rows: seq<Movie>, rows': seq<Movie>)
    requires SameOutside(w, rows, rows')
    ensures |rows'| == |rows|
  {
  }

  lemma AllWait(ws: seq<Worker>, rows: seq<Movie>, todo: set<nat>)
    requires Tiled(ws, |rows|) && forall k: nat :: k < |ws| ==> k in todo
    ensures Pending(ws, todo, rows, rows)
  {
    hide IsTarget;
  }

  lemma NoneWaits(ws: seq<Worker>, rows: seq<Movie>, rows0: seq<Movie>)
    requires Pending(ws, {}, rows, rows0)
    ensures AllMeet(ws, rows, rows0)
  {
    hide IsTarget;
    forall k | 0 <= k < |ws|
      ensures IsTarget(ws[k], rows, rows0)
    {
      assert JobState(ws[k], k in {}, rows, rows0);
    }
  }

  function Below(n: nat): (s: set<nat>)
    ensures forall k: nat :: k in s <==> k < n
  {
    if n == 0 then {} else Below(n - 1) + {n - 1}
  }

  class Request {
    const moviename: array<Title>
    const moviescore: array<real>
    var cnt: nat
    var base: nat
    var size: nat

    /** The movies found for the request. */
    function Movies(): (ms: seq<Movie>)
      requires cnt <= moviename.Length == moviescore.Length
      reads this, moviename, moviescore
      ensures |ms| == cnt
    {
      Part(moviename, moviescore, 0, cnt)
    }

    ghost predicate Divided()
      reads this
    {
      && 1 <= base && cnt <= moviename.Length == moviescore.Length
      && PowerOfTwo(base) && base <= cnt && size == cnt / base
    }

    constructor (name: array<Title>, pts: array<real>, found: nat)
      requires found <= name.Length == pts.Length
      ensures moviename == name && moviescore == pts && cnt == found
    {
      moviename, moviescore, cnt := name, pts, found;
      base, size := 1, found;
    }

    /** The end of the scoring: into how many chunks of which size to cut. */
    method Divide()
      requires 1 <= cnt <= moviename.Length == moviescore.Length
      modifies this`base, this`size
      ensures Divided() && base == ChooseBase(cnt)
    {
      base := ChooseBase(cnt);
      size := cnt / base;
    }

    /** The job of one sorting thread. */
    method SortChunk(k: nat)
      requires Divided() && k < base
      requires var w := Sorters(size, base, cnt)[k];
        Within(w, Movies()) && w.Lo() < w.Hi() && Scored(PartOf(w, Movies())) && AllPlain(PartOf(w, Movies()))
      modifies moviename, moviescore
      ensures var w := Sorters(size, base, cnt)[k];
        IsTarget(w, Movies(), old(Movies())) && SameOutside(w, old(Movies()), Movies())
    {
      hide Scored, AllPlain, SortOf, DecorateAll;
      ghost var w := Sorters(size, base, cnt)[k];
      ghost var rows := Movies();
      var length := if k + 1 == base then size + cnt % base else size;
      assert w.Lo() == size * k && w.Hi() == size * k + length by {
        LengthOfChunk(cnt, base, k);
      }
      PartOfPart(moviename, moviescore, w.Lo(), w.Hi(), cnt);
      Sort(moviename, moviescore, size * k, length);
      PartOfPart(moviename, moviescore, w.Lo(), w.Hi(), cnt);
    }

    /** All sorting threads, served in any order. */
    method SortChunks()
      requires Divided() && Scored(Movies()) && AllPlain(Movies())
      modifies moviename, moviescore
      ensures RunsSorted(Movies(), DecorateAll(old(Movies())), size, base)
    {
      hide IsTarget, SameOutside, Pending, Tiled, RunsSorted, PowerOfTwo;
      ghost var orig := Movies();
      ghost var ws := Sorters(size, base, cnt);
      ChunksFit(cnt, base);
      SortersTile(size, base, cnt, base);
      var todo := Below(base);
      AllWait(ws, orig, todo);
      while todo != {}
        invariant todo <= Below(base)
        invariant Pending(ws, todo, Movies(), orig)
      {
        var k :| k in todo;
        ghost var rows := Movies();
        RawChunk(ws, todo, k, rows, orig);
        SortChunk(k);
        JobDone(ws, todo, k, rows, Movies(), orig);
        todo := todo - {k};
      }
      NoneWaits(ws, Movies(), orig);
      ChunksAreSorted(orig, base, Movies());
    }

    /** One level: the merging threads, served in any order.  u and n are the
        length and the number of the runs. */
    method MergeLevel(u: nat, n: nat, ghost deco: seq<Movie>)
      requires Divided() && Fits(u, n, cnt, base) && n % 2 == 0 && RunsSorted(Movies(), deco, u, n)
      modifies moviename, moviescore
      ensures RunsSorted(Movies(), deco, 2 * u, n / 2)
    {
      hide IsTarget, SameOutside, Pending, Tiled, RunsSorted, PowerOfTwo, NewMerger, PairSpan;
      ghost var orig := Movies();
      ghost var ws := Mergers(u, n, cnt);
      MergersTile(u, n, cnt, base);
      var todo := Below(n / 2);
      AllWait(ws, orig, todo);
      while todo != {}
        invariant todo <= Below(n / 2)
        invariant Pending(ws, todo, Movies(), orig)
      {
        var t :| t in todo;
        ghost var rows := Movies();
        MergePair(u, n, t);
        JobDone(ws, todo, t, rows, Movies(), orig);
        todo := todo - {t};
      }
      NoneWaits(ws, Movies(), orig);
      PairsAreMerged(orig, deco, u, n, base, Movies());
    }

    method MergePair(u: nat, n: nat, t: nat)
      requires Divided() && Fits(u, n, cnt, base) && n % 2 == 0 && t < n / 2
      modifies moviename, moviescore
      ensures var w := Mergers(u, n, cnt)[t];
        IsTarget(w, Movies(), old(Movies())) && SameOutside(w, old(Movies()), Movies())
    {
      hide Merge;
      ghost var p := PairSpan(u, n, t, cnt);
      PairOfRuns(u, n, t, cnt, base);
      ghost var rows := Movies();
      PartOfPart(moviename, moviescore, p.lo, p.mid, cnt);
      PartOfPart(moviename, moviescore, p.mid, p.end, cnt);
      SlicesJoin(rows, p.lo, p.mid, p.end);
      TrueMerge(moviename, moviescore, u, t, t + 1 == n / 2, cnt, base);
      PartOfPart(moviename, moviescore, p.lo, p.end, cnt);
    }

    /** Merge level by level until one run is left. */
    method MergeLevels(ghost deco: seq<Movie>)
      requires Divided() && RunsSorted(Movies(), deco, size, base)
      modifies moviename, moviescore
      ensures Movies() == SortOf(deco)
    {
      hide RunsSorted, SortOf, Fits;
      var n, count: nat := base, 1;
      ChunksFit(cnt, base);
      while n > 1
        invariant PowerOfTwo(n) && Fits(count * size, n, cnt, base)
        invariant RunsSorted(Movies(), deco, count * size, n)
      {
        MergeLevel(count * size, n, deco);
        NextFits(count * size, n, cnt, base);
        assert 2 * (count * size) == (count * 2) * size;
        count := count * 2;
        n := n / 2;
      }
      OneRunIsAll(Movies(), deco, count * size);
    }

    /** The whole request: the arrays end up holding the decorated movies in order,
        exactly as one sort of the whole list would leave them. */
    method Serve()
      requires 1 <= cnt <= moviename.Length == moviescore.Length && Scored(Movies()) && AllPlain(Movies())
      modifies this`base, this`size, moviename, moviescore
      ensures Movies() == SortOf(DecorateAll(old(Movies())))
    {
      ghost var orig := Movies();
      Divide();
      SortChunks();
      MergeLevels(DecorateAll(orig));
    }
  }

  lemma PartOfPart(name: array<Title>, pts: array<real>, lo: nat, hi: nat, cnt: nat)
    requires lo <= hi <= cnt <= name.Length == pts.Length
    ensures Part(name, pts, lo, hi) == Part(name, pts, 0, cnt)[lo..hi]
  {
  }

  lemma LengthOfChunk(cnt: nat, base: nat, k: nat)
    requires k < base
    ensures RunStart(cnt / base, k) == (cnt / base) * k
    ensures RunEnd(cnt / base, base, k, cnt) == (cnt / base) * k + (if k + 1 == base then cnt / base + cnt % base else cnt / base)
  {
    var u := cnt / base;
    assert cnt == u * base + cnt % base;
    assert u * (k + 1) == u * k + u;
  }

  lemma RawChunk(ws: seq<Worker>, todo: set<nat>, k: nat, rows: seq<Movie>, orig: seq<Movie>)
    requires Tiled(ws, |rows|) && Pending(ws, todo, rows, orig) && k in todo && k < |ws|
    requires Scored(orig) && AllPlain(orig)
    ensures Within(ws[k], rows) && ws[k].Lo() < ws[k].Hi()
    ensures Scored(PartOf(ws[k], rows)) && AllPlain(PartOf(ws[k], rows))
  {
    assert JobState(ws[k], true, rows, orig);
  }
}
