/** What the process server writes for lists of 5001 to 10000 movies, which it cuts
    in four, when each chunk holds few kinds of movies. */
module MovieFourChunks {
  import opened MovieOrder
  import opened MovieSort
  import opened MovieMerge
  import opened MovieServer
  import opened MovieProcess
  import opened MovieProcessServer

  function Rep(m: Movie, n: nat): (ms: seq<Movie>)
    ensures |ms| == n && forall k :: 0 <= k < n ==> ms[k] == m
  {
    seq(n, _ => m)
  }

  // ----- merging blocks -----

  ghost predicate Above(x: seq<Movie>, score: real) { forall k :: 0 <= k < |x| ==> x[k].score > score }

  /** Right movies that all come before the first left one go first. */
  lemma {:induction false} RightBlock(l: seq<Movie>, y: seq<Movie>, ys: seq<Movie>)
    requires l != [] && Above(y, l[0].score)
    ensures Front(l, y + ys) == y + Front(l, ys) && Rest(l, y + ys) == Rest(l, ys)
    decreases |y|
  {
    if y == [] {
      assert y + ys == ys && [] + Front(l, ys) == Front(l, ys);
    } else {
      assert (y + ys)[1..] == y[1..] + ys && y == [y[0]] + y[1..];
      RightBlock(l, y[1..], ys);
      assert [y[0]] + (y[1..] + Front(l, ys)) == y + Front(l, ys);
    }
  }

  /** Left movies that all come before the first right one go first. */
  lemma {:induction false} LeftBlock(x: seq<Movie>, xs: seq<Movie>, r: seq<Movie>)
    requires r != [] && Above(x, r[0].score)
    ensures Front(x + xs, r) == x + Front(xs, r) && Rest(x + xs, r) == Rest(xs, r)
    decreases |x|
  {
    if x == [] {
      assert x + xs == xs && [] + Front(xs, r) == Front(xs, r);
    } else {
      assert (x + xs)[1..] == x[1..] + xs && x == [x[0]] + x[1..];
      LeftBlock(x[1..], xs, r);
      assert [x[0]] + (x[1..] + Front(xs, r)) == x + Front(xs, r);
    }
  }

  lemma AllRight(l: seq<Movie>, r: seq<Movie>)
    requires l != [] && Above(r, l[0].score)
    ensures Front(l, r) == r && Rest(l, r) == (l, [])
    ensures Merge(l, r) == r + l && ProcessMerge(l, r) == r + Flat(l)
  {
    RightBlock(l, r, []);
    assert r + [] == r;
    MergeIsFrontAndRest(l, r);
    assert l + [] == l && Flat(l) + [] == Flat(l);
  }

  lemma AllLeft(l: seq<Movie>, r: seq<Movie>)
    requires r != [] && Above(l, r[0].score)
    ensures Front(l, r) == l && Rest(l, r) == ([], r)
    ensures Merge(l, r) == l + r == ProcessMerge(l, r)
  {
    LeftBlock(l, [], r);
    assert l + [] == l;
    MergeIsFrontAndRest(l, r);
    assert [] + r == r && Flat([]) + r == r;
  }

  // ----- four chunks -----

  /** The merges of four runs. */
  lemma FourRuns(a: seq<Movie>, b: seq<Movie>, c: seq<Movie>, d: seq<Movie>, u: nat)
    requires |a| == |b| == |c| == u > 0 && u <= |d| < u + 4
    ensures var rows := a + b + c + d;
      && Fits(u, 4, |rows|, 4)
      && RunOf(rows, u, 4, 0) == a && RunOf(rows, u, 4, 1) == b && RunOf(rows, u, 4, 2) == c && RunOf(rows, u, 4, 3) == d
      && ProcessLevels(rows, u, 4) == ProcessMerge(ProcessMerge(a, b), ProcessMerge(c, d))
  {
    hide ProcessMerge;
    var rows := a + b + c + d;
    SlicesOfFour(a, b, c, d, u);
    var l, r := ProcessMerge(a, b), ProcessMerge(c, d);
    assert MergedPairs(rows, u, 4) == [l, r];
    GlueTwo(l, r);
    SlicesOfTwo(l, r, 2 * u);
    assert MergedPairs(l + r, 2 * u, 2) == [ProcessMerge(l, r)];
    GlueOne(ProcessMerge(l, r));
    assert ProcessLevels(rows, u, 4) == ProcessLevels(l + r, 2 * u, 2) == ProcessLevels(ProcessMerge(l, r), 2 * (2 * u), 1);
  }

  lemma SlicesOfFour(a: seq<Movie>, b: seq<Movie>, c: seq<Movie>, d: seq<Movie>, u: nat)
    requires |a| == |b| == |c| == u > 0 && u <= |d| < u + 4
    ensures var rows := a + b + c + d;
      && Fits(u, 4, |rows|, 4)
      && RunOf(rows, u, 4, 0) == a && RunOf(rows, u, 4, 1) == b && RunOf(rows, u, 4, 2) == c && RunOf(rows, u, 4, 3) == d
  {
  }

  lemma SlicesOfTwo(l: seq<Movie>, r: seq<Movie>, u: nat)
    requires |l| == u
    ensures RunOf(l + r, u, 2, 0) == l && RunOf(l + r, u, 2, 1) == r
  {
  }

  lemma GlueOne(x: seq<Movie>)
    ensures Glue([x]) == x
  {
    assert [x][..0] == [] && [] + x == x;
  }

  lemma GlueTwo(x: seq<Movie>, y: seq<Movie>)
    ensures Glue([x, y]) == x + y
  {
    assert [x, y][..1] == [x];
    GlueOne(x);
  }

  /** Chunks that are in order already. */
  lemma FourChunks(a: seq<Movie>, b: seq<Movie>, c: seq<Movie>, d: seq<Movie>, u: nat)
    requires |a| == |b| == |c| == u > 0 && u <= |d| < u + 4
    requires Ordered(a) && Ordered(b) && Ordered(c) && Ordered(d) && AllPlain(a) && AllPlain(b) && AllPlain(c) && AllPlain(d)
    ensures var a', b', c', d' := DecorateAll(a), DecorateAll(b), DecorateAll(c), DecorateAll(d); var movies := a + b + c + d;
      && |movies| / 4 == u && DecorateAll(movies) == a' + b' + c' + d'
      && ProcessAnswer(movies, 4) == ProcessMerge(ProcessMerge(a', b'), ProcessMerge(c', d'))
      && SortOf(DecorateAll(movies)) == Merge(Merge(a', b'), Merge(c', d'))
      && RunsSorted(DecorateAll(movies), DecorateAll(movies), u, 4)
  {
    hide ProcessMerge, Merge, SortOf, ProcessLevels, Ordered, AllPlain, RunsSorted, Fits, RunOf, Glue;
    var movies := a + b + c + d;
    var a', b', c', d' := DecorateAll(a), DecorateAll(b), DecorateAll(c), DecorateAll(d);
    DecoratedSort(a, a);
    DecoratedSort(b, b);
    DecoratedSort(c, c);
    DecoratedSort(d, d);
    SlicesOfFour(a, b, c, d, u);
    var deco := DecorateAll(movies);
    assert deco == a' + b' + c' + d';
    assert |movies| == 3 * u + |d| && |movies| / 4 == u;
    var ps := SortedChunks(movies, u, 4);
    assert ps == [a', b', c', d'];
    GlueFour(a', b', c', d');
    FourRuns(a', b', c', d', u);
    ChunksAreRuns(movies, 4);
    MergeOfSorts(a', b');
    MergeOfSorts(c', d');
    MergeOfSorts(a' + b', c' + d');
    SortOfIsOrdered(a'); SortOfIsOrdered(b'); SortOfIsOrdered(c'); SortOfIsOrdered(d');
    OrderedIsSortOf(a', a'); OrderedIsSortOf(b', b'); OrderedIsSortOf(c', c'); OrderedIsSortOf(d', d');
    assert (a' + b') + (c' + d') == a' + b' + c' + d';
  }

  lemma GlueFour(x: seq<Movie>, y: seq<Movie>, z: seq<Movie>, w: seq<Movie>)
    ensures Glue([x, y, z, w]) == x + y + z + w
  {
    assert [x, y, z, w][..3] == [x, y, z] && [x, y, z][..2] == [x, y];
    GlueTwo(x, y);
    assert Glue([x, y, z]) == x + y + z;
  }

  // ----- two lists -----

  const LA := Movie([97], 5.0)
  const LB := Movie([98], 1.0)
  const LC := Movie([99], 9.0)

  function Head(u: nat): seq<Movie>
    requires u > 0
  {
    [LA] + Rep(LB, u - 1)
  }

  /** One movie of score 5 and others of score 1, then movies of score 9, then of the
      scores third and fourth. */
  function Example(cnt: nat, third: real, fourth: real): (movies: seq<Movie>)
    requires cnt >= 4
    ensures |movies| == cnt
  {
    var u := cnt / 4;
    Head(u) + Rep(LC, u) + Rep(Movie([100], third), u) + Rep(Movie([101], fourth), cnt - 3 * u)
  }

  lemma ExampleIsFine(cnt: nat, third: real, fourth: real)
    requires cnt >= 4 && third >= 0.0 && fourth >= 0.0
    ensures AllPlain(Example(cnt, third, fourth)) && Scored(Example(cnt, third, fourth))
  {
  }

  lemma RepIsFine(m: Movie, n: nat)
    requires Plain(m.title)
    ensures Ordered(Rep(m, n)) && AllPlain(Rep(m, n))
  {
    CompareIsOrder(m.title, m.title);
  }

  lemma HeadIsFine(u: nat)
    requires u > 0
    ensures Ordered(Head(u)) && AllPlain(Head(u))
  {
    RepIsFine(LB, u - 1);
  }

  /** The server's answer and the right one for such a list. */
  lemma ExampleAnswers(cnt: nat, third: real, fourth: real)
    requires 5000 < cnt <= 10000 && third > fourth >= 0.0
    ensures var u := cnt / 4; var movies := Example(cnt, third, fourth);
      var a, c := DecorateAll(Head(u)), DecorateAll(Rep(LC, u));
      var d, e := DecorateAll(Rep(Movie([100], third), u)), DecorateAll(Rep(Movie([101], fourth), cnt - 3 * u));
      && ChooseBase(cnt) == 4 && |movies| / 4 == u
      && ProcessAnswer(movies, 4) == ProcessMerge(c + Flat(a), d + e)
      && SortOf(DecorateAll(movies)) == Merge(c + a, d + e)
      && ProcessMerge(a, c) != Merge(a, c)
      && DecorateAll(movies) == a + c + d + e && RunsSorted(DecorateAll(movies), DecorateAll(movies), u, 4)
  {
    hide Merge, ProcessMerge, SortOf, Ordered, AllPlain, ProcessAnswer, RunsSorted;
    var u := cnt / 4;
    var a0, c0, d0, e0 := Head(u), Rep(LC, u), Rep(Movie([100], third), u), Rep(Movie([101], fourth), cnt - 3 * u);
    HeadIsFine(u);
    RepIsFine(LC, u);
    RepIsFine(Movie([100], third), u);
    RepIsFine(Movie([101], fourth), cnt - 3 * u);
    FourChunks(a0, c0, d0, e0, u);
    var a, c, d, e := DecorateAll(a0), DecorateAll(c0), DecorateAll(d0), DecorateAll(e0);
    AllRight(a, c);
    AllLeft(d, e);
    assert Flat(a)[1].score != a[1].score && (c + Flat(a))[u + 1] != (c + a)[u + 1];
  }

  /** For every length that is cut in four there is a list whose titles the process
      server writes in a wrong order. */
  lemma ProcessServerGoesWrong(cnt: nat)
    requires 5000 < cnt <= 10000
    ensures var movies := Example(cnt, 7.0, 3.0);
      && AllPlain(movies) && Scored(movies) && ChooseBase(|movies|) == 4
      && Titles(ProcessAnswer(movies, 4)) != Titles(SortOf(DecorateAll(movies)))
  {
    hide Merge, ProcessMerge, SortOf, AllPlain, ProcessAnswer, Front, Rest;
    ExampleIsFine(cnt, 7.0, 3.0);
    ExampleAnswers(cnt, 7.0, 3.0);
    var u := cnt / 4;
    var a, c := DecorateAll(Head(u)), DecorateAll(Rep(LC, u));
    var d, e := DecorateAll(Rep(Movie([100], 7.0), u)), DecorateAll(Rep(Movie([101], 3.0), cnt - 3 * u));
    WrongOrder(a, c, d, e, u);
    RightOrder(a, c, d, e, u);
    assert Titles(ProcessMerge(c + Flat(a), d + e))[2 * u + 1] == LB.title + SECRET;
    assert Titles(Merge(c + a, d + e))[2 * u + 1] == [101] + SECRET;
    assert (LB.title + SECRET)[0] == 98 && ([101] + SECRET)[0] == 101;
  }

  lemma WrongOrder(a: seq<Movie>, c: seq<Movie>, d: seq<Movie>, e: seq<Movie>, u: nat)
    requires |a| == |c| == |d| == u > 0 && e != []
    requires Above(c, 7.0) && Above(d, a[0].score) && a[0].score > e[0].score && d[0].score == 7.0
    ensures ProcessMerge(c + Flat(a), d + e) == c + (d + (Flat(a) + e))
  {
    hide Front, Rest, Merge;
    LeftBlock(c, Flat(a), d + e);
    RightBlock(Flat(a), d, e);
    AllLeft(Flat(a), e);
    assert Flat([]) + e == e;
    assert c + (d + Flat(a)) + e == c + (d + (Flat(a) + e));
  }

  lemma RightOrder(a: seq<Movie>, c: seq<Movie>, d: seq<Movie>, e: seq<Movie>, u: nat)
    requires |a| == |c| == |d| == u > 1 && e != []
    requires Above(c, 7.0) && Above(d, a[0].score) && a[0].score > e[0].score && d[0].score == 7.0 && Above(e, a[1].score)
    ensures Merge(c + a, d + e) == c + (d + ([a[0]] + (e + a[1..])))
  {
    hide Front, Rest, Merge, Above;
    MergeIsFrontAndRest(c + a, d + e);
    AboveLess(c, 7.0, (d + e)[0].score);
    LeftBlock(c, a, d + e);
    RightBlock(a, d, e);
    HeadMerges(a, e);
    Regroup(c, d, [a[0]] + e, a[1..]);
    assert [a[0]] + e + a[1..] == [a[0]] + (e + a[1..]);
  }

  lemma AboveLess(x: seq<Movie>, score: real, less: real)
    requires Above(x, score) && less <= score
    ensures Above(x, less)
  {
  }

  lemma HeadMerges(a: seq<Movie>, e: seq<Movie>)
    requires |a| > 1 && e != [] && a[0].score > e[0].score && Above(e, a[1].score)
    ensures Front(a, e) == [a[0]] + e && Rest(a, e) == (a[1..], [])
  {
    hide Front, Rest, Merge;
    assert a == [a[0]] + a[1..];
    LeftBlock([a[0]], a[1..], e);
    AllRight(a[1..], e);
  }

  lemma Regroup<T>(c: seq<T>, d: seq<T>, x: seq<T>, y: seq<T>)
    ensures c + (d + x) + (y + []) == c + (d + (x + y))
    ensures y + [] == y
  {
  }

  /** Scores that rise above none in between are not seen in the titles. */
  lemma SameTitles(a: seq<Movie>, c: seq<Movie>, r: seq<Movie>)
    requires r != [] && Above(c, r[0].score) && Above(a, r[0].score)
    ensures Titles(ProcessMerge(c + Flat(a), r)) == Titles(Merge(c + a, r))
  {
    hide Front, Rest, Merge, ProcessMerge;
    AllLeft(c + Flat(a), r);
    AllLeft(c + a, r);
  }

  /** And there is a list for which a merge before the last level changes scores, and
      the titles are right all the same: the scores that rise find no other in
      between. */
  lemma ScoresMayChangeUnseen(cnt: nat)
    requires 5000 < cnt <= 10000
    ensures var movies := Example(cnt, 0.7, 0.3);
      && AllPlain(movies) && Scored(movies) && ChooseBase(|movies|) == 4
      && !TitlesKept(DecorateAll(movies), |movies| / 4, 4)
      && Titles(ProcessAnswer(movies, 4)) == Titles(SortOf(DecorateAll(movies)))
  {
    hide Merge, ProcessMerge, SortOf, AllPlain, ProcessAnswer, RunsSorted, PairAgrees, RunOf, Fits;
    ExampleIsFine(cnt, 0.7, 0.3);
    ExampleAnswers(cnt, 0.7, 0.3);
    var u := cnt / 4;
    var movies := Example(cnt, 0.7, 0.3);
    var a, c := DecorateAll(Head(u)), DecorateAll(Rep(LC, u));
    var d, e := DecorateAll(Rep(Movie([100], 0.7), u)), DecorateAll(Rep(Movie([101], 0.3), cnt - 3 * u));
    SameTitles(a, c, d + e);
    FourRuns(a, c, d, e, u);
    PairExact(DecorateAll(movies), DecorateAll(movies), u, 4, 0, 4);
    assert !PairAgrees(DecorateAll(movies), u, 4, 0);
  }
}
