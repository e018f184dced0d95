/** One request as the process server works it off: two shared arrays, in each round
    changed by one process per part. */
module MovieProcessRequest {
  import opened MovieOrder
  import opened MovieSort
  import opened MovieMerge
  import opened MovieServer
  import opened MovieProcess
  import opened MovieProcessServer
  import MovieRequest

  /** The runs still to do are as they were; the others hold their pieces. */
  ghost predicate Underway(rows: seq<Movie>, rows0: seq<Movie>, ps: seq<seq<Movie>>, u: nat, todo: set<nat>) {
    |rows| == |rows0| && forall k: nat :: k < |ps| ==> RunOf(rows, u, |ps|, k) == if k in todo then RunOf(rows0, u, |ps|, k) else ps[k]
  }

  /** Run k of the list holds this piece and everything else is as it was. */
  ghost predicate OneRunSet(rows: seq<Movie>, rows': seq<Movie>, u: nat, n: nat, k: nat, piece: seq<Movie>) {
    && |rows'| == |rows| && RunOf(rows', u, n, k) == piece
    && forall x :: 0 <= x < |rows| && (x < RunStart(u, k) || RunEnd(u, n, k, |rows|) <= x) ==> rows'[x] == rows[x]
  }

  lemma OtherRunStays(rows: seq<Movie>, rows': seq<Movie>, u: nat, n: nat, k: nat, j: nat, piece: seq<Movie>, base: nat)
    requires Fits(u, n, |rows|, base) && k < n && j < n && j != k && OneRunSet(rows, rows', u, n, k, piece)
    ensures RunOf(rows', u, n, j) == RunOf(rows, u, n, j)
  {
    hide RunStart, RunEnd;
    RunIsSlice(rows, u, n, k, base);
    RunIsSlice(rows, u, n, j, base);
    RunIsSlice(rows', u, n, j, base);
    if j < k { EndsBefore(rows, u, n, j, k, base); } else { EndsBefore(rows, u, n, k, j, base); }
  }

  lemma EndsBefore(rows: seq<Movie>, u: nat, n: nat, i: nat, j: nat, base: nat)
    requires Fits(u, n, |rows|, base) && i < j < n
    ensures RunEnd(u, n, i, |rows|) <= RunStart(u, j)
  {
    StartsGrow(u, i + 1, j);
  }

  lemma OneDone(rows: seq<Movie>, rows': seq<Movie>, rows0: seq<Movie>, ps: seq<seq<Movie>>, u: nat, todo: set<nat>, k: nat, base: nat)
    requires Fits(u, |ps|, |rows|, base) && Underway(rows, rows0, ps, u, todo) && k < |ps|
    requires OneRunSet(rows, rows', u, |ps|, k, ps[k])
    ensures Underway(rows', rows0, ps, u, todo - {k})
  {
    hide RunOf, Fits, RunStart, RunEnd;
    forall j: nat | j < |ps|
      ensures RunOf(rows', u, |ps|, j) == if j in todo - {k} then RunOf(rows0, u, |ps|, j) else ps[j]
    {
      if j != k {
        OtherRunStays(rows, rows', u, |ps|, k, j, ps[k], base);
      }
    }
  }

  lemma NoneDone(rows: seq<Movie>, ps: seq<seq<Movie>>, u: nat, todo: set<nat>)
    requires forall k: nat :: k < |ps| ==> k in todo
    ensures Underway(rows, rows, ps, u, todo)
  {
  }

  lemma AllDone(rows: seq<Movie>, rows0: seq<Movie>, ps: seq<seq<Movie>>, u: nat, base: nat)
    requires Fits(u, |ps|, |rows|, base) && Underway(rows, rows0, ps, u, {})
    ensures rows == Glue(ps)
  {
    hide RunOf, Fits, Glue;
    forall k | 0 <= k < |ps|
      ensures RunOf(rows, u, |ps|, k) == ps[k]
    {
      var j: nat := k;
      assert RunOf(rows, u, |ps|, j) == ps[j];
    }
    GlueIs(rows, ps, u, base);
  }

  lemma PieceOfPart(name: array<Title>, pts: array<real>, rows: seq<Movie>, lo: nat, hi: nat, cnt: nat)
    requires lo <= hi <= cnt <= name.Length == pts.Length && rows == Part(name, pts, 0, cnt)
    ensures Part(name, pts, lo, hi) == rows[lo..hi]
  {
  }

  /** Copy a part of the arrays. */
  method CopyOut(name: array<Title>, score: array<real>, start: nat, end: nat) returns (sub: array<Title>, pts: array<real>)
    requires start <= end <= name.Length == score.Length
    ensures fresh(sub) && fresh(pts) && sub.Length == pts.Length == end - start
    ensures Part(sub, pts, 0, end - start) == Part(name, score, start, end)
  {
    sub := new Title[end - start];
    pts := new real[end - start];
    var j := start;
    while j < end
      invariant start <= j <= end
      invariant forall k :: 0 <= k < j - start ==> sub[k] == name[start + k] && pts[k] == score[start + k]
    {
      sub[j - start] := name[j];
      pts[j - start] := score[j];
      j := j + 1;
    }
  }

  lemma PartBegins(sub: array<Title>, pts: array<real>)
    requires sub.Length == pts.Length
    ensures Begins(sub, pts, Part(sub, pts, 0, sub.Length))
  {
  }

  class Request {
    const name: array<Title>
    const score: array<real>
    const cnt: nat
    /** base0 and left as set after the scoring; base and size change round by round. */
    const base0: nat
    const left: nat
    var base: nat
    var size: nat

    function Movies(): (ms: seq<Movie>)
      requires cnt <= name.Length == score.Length
      reads name, score
      ensures |ms| == cnt
    {
      Part(name, score, 0, cnt)
    }

    predicate Laid()
      reads name, score
    {
      cnt <= name.Length == score.Length && 1 <= base0 <= cnt && left == cnt % base0
    }

    constructor (name: array<Title>, score: array<real>, cnt: nat)
      requires 1 <= cnt <= name.Length == score.Length
      ensures this.name == name && this.score == score && this.cnt == cnt
      ensures Laid() && base0 == base == ChooseBase(cnt) && size == cnt / base0
    {
      this.name, this.score, this.cnt := name, score, cnt;
      base0, left := ChooseBase(cnt), cnt % ChooseBase(cnt);
      base, size := ChooseBase(cnt), cnt / ChooseBase(cnt);
    }

    /** The process for chunk i: it sorts a copy and writes it back. */
    method SortChunk(i: nat)
      requires Laid() && size == cnt / base0 && i < base0
      requires Scored(RunOf(Movies(), size, base0, i)) && AllPlain(RunOf(Movies(), size, base0, i))
      modifies name, score
      ensures OneRunSet(old(Movies()), Movies(), size, base0, i, SortOf(DecorateAll(RunOf(old(Movies()), size, base0, i))))
    {
      hide Scored, AllPlain, SortOf, DecorateAll, Begins, Fits, Part, OneRunSet, RunOf, RunStart, RunEnd;
      ghost var rows := Movies();
      var start := size * i;
      var end := if i + 1 == base0 then size * (i + 1) + left else size * (i + 1);
      ChunkEnds(i);
      ChunksFit(cnt, base0);
      RunIsSlice(rows, size, base0, i, base0);
      PieceOfPart(name, score, rows, start, end, cnt);
      var sub, pts := CopyOut(name, score, start, end);
      Sort(sub, pts, 0, end - start);
      PartBegins(sub, pts);
      WriteBack(name, score, start, sub, pts, end - start, Part(sub, pts, 0, end - start));
      PieceOfPart(name, score, Movies(), start, end, cnt);
      assert forall x :: 0 <= x < cnt && (x < start || end <= x) ==> Movies()[x] == rows[x];
      SetBySlice(rows, Movies(), size, base0, i, base0);
    }

    lemma SetBySlice(rows: seq<Movie>, rows': seq<Movie>, u: nat, n: nat, k: nat, base: nat)
      requires Fits(u, n, |rows|, base) && k < n && |rows'| == |rows| && RunStart(u, k) <= RunEnd(u, n, k, |rows|) <= |rows|
      requires forall x :: 0 <= x < |rows| && (x < RunStart(u, k) || RunEnd(u, n, k, |rows|) <= x) ==> rows'[x] == rows[x]
      ensures OneRunSet(rows, rows', u, n, k, rows'[RunStart(u, k)..RunEnd(u, n, k, |rows|)])
    {
      hide Fits, RunOf, RunStart, RunEnd;
      RunIsSlice(rows', u, n, k, base);
    }

    lemma ChunkEnds(i: nat)
      requires Laid() && size == cnt / base0 && i < base0
      ensures size * i == RunStart(size, i)
      ensures RunEnd(size, base0, i, cnt) == if i + 1 == base0 then size * (i + 1) + left else size * (i + 1)
    {
      assert cnt == size * base0 + left;
    }

    /** The process for pair i of n runs of length u; size covers both. */
    method MergePair(i: nat, ghost u: nat, ghost n: nat)
      requires Laid() && Fits(u, n, cnt, base0) && n % 2 == 0 && i < n / 2
      requires base == n / 2 && size == 2 * u && RunStart(u, n) + left == cnt
      modifies name, score
      ensures var rows := old(Movies());
        OneRunSet(rows, Movies(), 2 * u, n / 2, i, ProcessMerge(RunOf(rows, u, n, 2 * i), RunOf(rows, u, n, 2 * i + 1)))
    {
      hide ProcessMerge, Fits, RunOf, RunStart, RunEnd, PairSpan, OneRunSet, PowerOfTwo, Part;
      ghost var rows := Movies();
      var l := size * i;
      var r := l + size / 2;
      var end := if i + 1 == base then size * (i + 1) + left else size * (i + 1);
      PairEnds(i, u, n);
      RunsPair(rows, u, n, i, base0);
      PairOfRuns(u, n, i, cnt, base0);
      var p := Span(l, r, end);
      PieceOfPart(name, score, rows, l, r, cnt);
      PieceOfPart(name, score, rows, r, end, cnt);
      MergeAsProcess(name, score, p, size + left);
      PieceOfPart(name, score, Movies(), l, end, cnt);
      assert forall x :: 0 <= x < cnt && (x < l || end <= x) ==> Movies()[x] == rows[x];
      SetBySpan(rows, Movies(), u, n, i, base0);
    }

    lemma SetBySpan(rows: seq<Movie>, rows': seq<Movie>, u: nat, n: nat, i: nat, base: nat)
      requires Fits(u, n, |rows|, base) && n % 2 == 0 && i < n / 2 && |rows'| == |rows|
      requires var p := PairSpan(u, n, i, |rows|); p.lo <= p.end <= |rows| && forall x :: 0 <= x < |rows| && (x < p.lo || p.end <= x) ==> rows'[x] == rows[x]
      ensures var p := PairSpan(u, n, i, |rows|); p.lo <= p.end && OneRunSet(rows, rows', 2 * u, n / 2, i, rows'[p.lo..p.end])
    {
      hide Fits, RunOf, RunStart, RunEnd, PairSpan;
      RunsPair(rows', u, n, i, base);
      PairOfRuns(u, n, i, |rows|, base);
    }

    lemma PairEnds(i: nat, u: nat, n: nat)
      requires n % 2 == 0 && i < n / 2 && base == n / 2 && size == 2 * u && RunStart(u, n) + left == cnt
      ensures PairSpan(u, n, i, cnt) == Span(size * i, size * i + size / 2, if i + 1 == base then size * (i + 1) + left else size * (i + 1))
      ensures (if i + 1 == base then size * (i + 1) + left else size * (i + 1)) <= size * i + size + left
    {
      assert size * i == 2 * u * i && size * (i + 1) == size * i + size;
      if i + 1 == base {
        assert n == 2 * (i + 1) && u * n == u * (2 * (i + 1)) == (2 * u) * (i + 1);
      }
    }

    /** The first round, its processes in any order. */
    method SortRound()
      requires Laid() && size == cnt / base0 && base == base0 && Scored(Movies()) && AllPlain(Movies())
      modifies name, score
      ensures Movies() == Glue(SortedChunks(old(Movies()), size, base0))
    {
      hide Fits, Glue, RunOf, Underway, OneRunSet, SortOf, DecorateAll, Scored, AllPlain;
      ghost var orig := Movies();
      ghost var ps := SortedChunks(orig, size, base0);
      ChunksFit(cnt, base0);
      var todo := MovieRequest.Below(base);
      NoneDone(orig, ps, size, todo);
      while todo != {}
        invariant todo <= MovieRequest.Below(base)
        invariant Underway(Movies(), orig, ps, size, todo)
      {
        var i :| i in todo;
        ghost var rows := Movies();
        RawRun(rows, orig, ps, size, todo, i);
        SortChunk(i);
        OneDone(rows, Movies(), orig, ps, size, todo, i, base0);
        todo := todo - {i};
      }
      AllDone(Movies(), orig, ps, size, base0);
    }

    /** A merging round, its processes in any order. */
    method MergeRound(ghost u: nat, ghost n: nat)
      requires Laid() && Fits(u, n, cnt, base0) && n % 2 == 0
      requires base == n / 2 && size == 2 * u && RunStart(u, n) + left == cnt
      modifies name, score
      ensures Movies() == Glue(MergedPairs(old(Movies()), u, n))
    {
      hide Fits, Glue, RunOf, Underway, OneRunSet, ProcessMerge, RunStart;
      ghost var orig := Movies();
      ghost var ps := MergedPairs(orig, u, n);
      NextFits(u, n, cnt, base0);
      var todo := MovieRequest.Below(base);
      NoneDone(orig, ps, 2 * u, todo);
      while todo != {}
        invariant todo <= MovieRequest.Below(base)
        invariant Underway(Movies(), orig, ps, 2 * u, todo)
      {
        var i :| i in todo;
        ghost var rows := Movies();
        RunOfTodo(rows, orig, ps, 2 * u, todo, i);
        SamePair(rows, orig, u, n, i);
        MergePair(i, u, n);
        OneDone(rows, Movies(), orig, ps, 2 * u, todo, i, base0);
        todo := todo - {i};
      }
      AllDone(Movies(), orig, ps, 2 * u, base0);
    }

    lemma RunOfTodo(rows: seq<Movie>, orig: seq<Movie>, ps: seq<seq<Movie>>, u: nat, todo: set<nat>, i: nat)
      requires Underway(rows, orig, ps, u, todo) && i in todo && i < |ps|
      ensures |rows| == |orig| && RunOf(rows, u, |ps|, i) == RunOf(orig, u, |ps|, i)
    {
    }

    lemma RawRun(rows: seq<Movie>, orig: seq<Movie>, ps: seq<seq<Movie>>, u: nat, todo: set<nat>, i: nat)
      requires Underway(rows, orig, ps, u, todo) && i in todo && i < |ps| && Scored(orig) && AllPlain(orig)
      ensures RunOf(rows, u, |ps|, i) == RunOf(orig, u, |ps|, i)
      ensures Scored(RunOf(rows, u, |ps|, i)) && AllPlain(RunOf(rows, u, |ps|, i))
    {
    }

    /** The two runs of a pair are as they were if the pair is. */
    lemma SamePair(rows: seq<Movie>, orig: seq<Movie>, u: nat, n: nat, i: nat)
      requires |rows| == |orig| == cnt && Fits(u, n, cnt, base0) && n % 2 == 0 && i < n / 2
      requires RunOf(rows, 2 * u, n / 2, i) == RunOf(orig, 2 * u, n / 2, i)
      ensures RunOf(rows, u, n, 2 * i) == RunOf(orig, u, n, 2 * i) && RunOf(rows, u, n, 2 * i + 1) == RunOf(orig, u, n, 2 * i + 1)
    {
      hide Fits, RunOf, PairSpan;
      RunsPair(rows, u, n, i, base0);
      RunsPair(orig, u, n, i, base0);
      var p := PairSpan(u, n, i, cnt);
      SlicesJoin(rows, p.lo, p.mid, p.end);
      SlicesJoin(orig, p.lo, p.mid, p.end);
    }

    /** All rounds: the list ends as the levels of the process server leave it. */
    method Serve()
      requires Laid() && PowerOfTwo(base0) && base == base0 && size == cnt / base0 && Scored(Movies()) && AllPlain(Movies())
      modifies this`base, this`size, name, score
      ensures Movies() == ProcessAnswer(old(Movies()), base0)
    {
      hide Fits, Glue, SortedChunks, MergedPairs, ProcessLevels, Scored, AllPlain;
      ghost var answer := ProcessAnswer(Movies(), base0);
      ghost var u, n := size, base0;
      ChunksFit(cnt, base0);
      WholeLength();
      SortRound();
      ProcessLevelsOnce(Movies(), u, n);
      base := base / 2;
      size := size * 2;
      while base >= 1
        invariant PowerOfTwo(n) && Fits(u, n, cnt, base0) && base == n / 2 && size == 2 * u && RunStart(u, n) + left == cnt
        invariant ProcessLevels(Movies(), u, n) == answer
      {
        ProcessLevelsOnce(Movies(), u, n);
        MergeRound(u, n);
        NextFits(u, n, cnt, base0);
        NextLength(u, n);
        u, n := 2 * u, n / 2;
        base := base / 2;
        size := size * 2;
      }
      ProcessLevelsOnce(Movies(), u, n);
    }

    lemma WholeLength()
      requires Laid() && size == cnt / base0
      ensures RunStart(size, base0) + left == cnt
    {
    }

    lemma NextLength(u: nat, n: nat)
      requires n % 2 == 0
      ensures RunStart(2 * u, n / 2) == RunStart(u, n)
    {
      assert 2 * u * (n / 2) == u * n by { assert n == 2 * (n / 2); }
    }

    lemma ProcessLevelsOnce(rows: seq<Movie>, u: nat, n: nat)
      ensures n <= 1 ==> ProcessLevels(rows, u, n) == rows
      ensures n > 1 ==> ProcessLevels(rows, u, n) == ProcessLevels(Glue(MergedPairs(rows, u, n)), 2 * u, n / 2)
    {
    }
  }
}
