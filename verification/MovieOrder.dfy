/** Movies as the recommendation server orders them: by score, highest first, and
    by title for equal scores.  Titles are C strings; the sort library appends a
    fixed secret to every title it has placed. */
module MovieOrder {

  /** A byte of a C string; the terminating zero is not part of it. */
  type Byte = b: int | 1 <= b <= 255 witness 1

  type Title = seq<Byte>

  datatype Movie = Movie(title: Title, score: real)

  const TAB: Byte := 9

  /** A tab, then "[It's top secret.]". */
  const SECRET: Title := [9, 91, 73, 116, 39, 115, 32, 116, 111, 112, 32, 115, 101, 99, 114, 101, 116, 46, 93]

  /** The secret in characters. */
  lemma SecretText()
    ensures var text := "\t[It's top secret.]"; |SECRET| == |text| && forall k :: 0 <= k < |text| ==> SECRET[k] as int == text[k] as int
  {
  }

  /** The sign of strcmp: bytes compare as unsigned numbers, and a proper prefix
      comes first. */
  function Compare(s: Title, u: Title): (sign: int)
    ensures -1 <= sign <= 1
  {
    if s == [] && u == [] then 0
    else if s == [] then -1
    else if u == [] then 1
    else if s[0] < u[0] then -1
    else if s[0] > u[0] then 1
    else Compare(s[1..], u[1..])
  }

  lemma {:induction false} CompareIsOrder(s: Title, u: Title)
    ensures Compare(s, u) == -Compare(u, s)
    ensures Compare(s, u) == 0 <==> s == u
  {
    if s != [] && u != [] && s[0] == u[0] {
      CompareIsOrder(s[1..], u[1..]);
      assert s == [s[0]] + s[1..] && u == [u[0]] + u[1..];
    }
  }

  /** The titles agree up to k, where the first ends or has the smaller byte. */
  ghost predicate SmallerAt(s: Title, u: Title, k: nat) {
    k <= |s| && k < |u| && s[..k] == u[..k] && (k == |s| || s[k] < u[k])
  }

  /** A title comes first exactly if at the first difference it ends or has the smaller
      byte. */
  lemma {:induction false} CompareIsLexicographic(s: Title, u: Title)
    ensures Compare(s, u) < 0 <==> exists k: nat :: SmallerAt(s, u, k)
  {
    forall k: nat | SmallerAt(s, u, k)
      ensures u != [] && (s == [] || s[0] <= u[0])
    {
      FirstBytes(s, u, k);
    }
    if s != [] && u != [] && s[0] == u[0] {
      CompareIsLexicographic(s[1..], u[1..]);
      if k: nat :| SmallerAt(s[1..], u[1..], k) {
        SmallerBehind(s, u, k + 1);
        assert SmallerAt(s, u, k + 1);
      }
      if k: nat :| SmallerAt(s, u, k) {
        SmallerBehind(s, u, k);
        assert SmallerAt(s[1..], u[1..], k - 1);
      }
    } else if u != [] && (s == [] || s[0] < u[0]) {
      assert SmallerAt(s, u, 0);
    }
  }

  lemma FirstBytes(s: Title, u: Title, k: nat)
    requires SmallerAt(s, u, k)
    ensures u != [] && (s == [] || s[0] <= u[0])
  {
    if 0 < k {
      assert s[..k][0] == u[..k][0];
    }
  }

  lemma SmallerBehind(s: Title, u: Title, k: nat)
    requires s != [] && u != [] && s[0] == u[0]
    ensures k > 0 ==> (SmallerAt(s, u, k) <==> SmallerAt(s[1..], u[1..], k - 1))
    ensures !SmallerAt(s, u, 0)
  {
    if 0 < k <= |s| && k <= |u| {
      assert s[..k] == [s[0]] + s[1..][..k - 1] && u[..k] == [u[0]] + u[1..][..k - 1];
      assert s[..k][1..] == s[1..][..k - 1] && u[..k][1..] == u[1..][..k - 1];
    }
  }

  lemma {:induction false} CompareIsTransitive(s: Title, u: Title, v: Title)
    requires Compare(s, u) <= 0 && Compare(u, v) <= 0
    ensures Compare(s, v) <= 0
  {
    if s != [] && u != [] && v != [] && s[0] == u[0] == v[0] {
      CompareIsTransitive(s[1..], u[1..], v[1..]);
    }
  }

  function Decorate(m: Movie): Movie { m.(title := m.title + SECRET) }

  function DecorateAll(ms: seq<Movie>): (ds: seq<Movie>)
    ensures |ds| == |ms|
    ensures forall i :: 0 <= i < |ms| ==> ds[i] == Decorate(ms[i])
  {
    seq(|ms|, i requires 0 <= i < |ms| => Decorate(ms[i]))
  }

  /** All bytes of the title come after the tab that opens the secret. */
  predicate Plain(s: Title) { forall i :: 0 <= i < |s| ==> s[i] > TAB }

  /** What follows a prefix of a title comes, with the secret, after the secret. */
  predicate RestComesAfter(s: Title, u: Title)
    requires s < u
  {
    Compare(SECRET, u[|s|..] + SECRET) < 0
  }

  /** Exactly when two titles compare alike with and without the secret: always,
      unless one is a proper prefix of the other and what follows in the longer one
      does not come after the secret. */
  lemma {:induction false} DecorationExact(s: Title, u: Title)
    ensures Compare(s + SECRET, u + SECRET) == Compare(s, u)
      <==> (s < u ==> RestComesAfter(s, u)) && (u < s ==> RestComesAfter(u, s))
  {
    var s', u' := s + SECRET, u + SECRET;
    if s == [] {
      assert s' == SECRET;
      CompareIsOrder(SECRET, u');
    } else if u == [] {
      assert u' == SECRET && s[0..] == s;
      CompareIsOrder(s', SECRET);
    } else if s[0] == u[0] {
      assert s'[1..] == s[1..] + SECRET && u'[1..] == u[1..] + SECRET;
      DecorationExact(s[1..], u[1..]);
      PrefixOfTails(s, u);
      PrefixOfTails(u, s);
    }
  }

  lemma PrefixOfTails(s: Title, u: Title)
    requires s != [] && u != [] && s[0] == u[0]
    ensures s < u <==> s[1..] < u[1..]
    ensures s < u ==> s[1..] < u[1..] && (RestComesAfter(s, u) <==> RestComesAfter(s[1..], u[1..]))
  {
    if s[1..] < u[1..] {
      assert s == [s[0]] + s[1..] && u == [u[0]] + u[1..];
    }
    if s < u {
      assert u[1..][..|s| - 1] == u[..|s|][1..] == s[1..];
      assert u[|s|..] == u[1..][|s| - 1..];
    }
  }

  /** Decoration preserves order: chunks sorted by raw title are sorted for the
      merges, which see decorated titles. */
  lemma DecorationKeepsOrder(s: Title, u: Title)
    requires Plain(s) && Plain(u)
    ensures Compare(s + SECRET, u + SECRET) == Compare(s, u)
  {
    DecorationExact(s, u);
  }

  /** With a tab in a title the order can turn round: the tab that follows the
      prefix meets the tab of the secret, and what decides is the next byte. */
  lemma TabsBreakOrder()
    ensures var s: Title := [97]; var u: Title := [97, 9];
      Compare(s, u) < 0 && Compare(s + SECRET, u + SECRET) > 0
  {
    var s: Title, u: Title := [97], [97, 9];
    var u' := u[1..] + SECRET;
    assert SECRET[1..][0] == 91 && u'[1..][0] == 9;
    assert Compare(SECRET, u') == Compare(SECRET[1..], u'[1..]) == 1;
    assert s < u && u[1..] == [9];
    DecorationExact(s, u);
    assert Compare(s, u) == Compare(s[1..], u[1..]) == -1;
    assert |s + SECRET| < |u + SECRET|;
    CompareIsOrder(s + SECRET, u + SECRET);
  }

  /** The order of the result: score descending, then title ascending. */
  predicate Before(a: Movie, b: Movie) {
    a.score > b.score || (a.score == b.score && Compare(a.title, b.title) <= 0)
  }

  lemma BeforeIsTotal(a: Movie, b: Movie)
    ensures Before(a, b) || Before(b, a)
    ensures Before(a, b) && Before(b, a) ==> a == b
  {
    CompareIsOrder(a.title, b.title);
  }

  lemma BeforeIsTransitive(a: Movie, b: Movie, c: Movie)
    requires Before(a, b) && Before(b, c)
    ensures Before(a, c)
  {
    if a.score == b.score == c.score {
      CompareIsTransitive(a.title, b.title, c.title);
    }
  }

  lemma DecorationKeepsBefore(a: Movie, b: Movie)
    requires Plain(a.title) && Plain(b.title)
    ensures Before(Decorate(a), Decorate(b)) <==> Before(a, b)
  {
    DecorationKeepsOrder(a.title, b.title);
  }

  ghost predicate Ordered(ms: seq<Movie>) {
    forall i, j :: 0 <= i < j < |ms| ==> Before(ms[i], ms[j])
  }

  /** Taking one element out of a list. */
  function Without<T>(s: seq<T>, i: nat): seq<T>
    requires i < |s|
  {
    s[..i] + s[i + 1..]
  }

  lemma WithoutMultiset<T>(s: seq<T>, i: nat)
    requires i < |s|
    ensures multiset(s) == multiset(Without(s, i)) + multiset{s[i]}
  {
    assert s == s[..i] + [s[i]] + s[i + 1..];
  }

  lemma HeadsAgree(a: seq<Movie>, b: seq<Movie>)
    requires Ordered(a) && Ordered(b) && multiset(a) == multiset(b) && a != [] && b != []
    ensures a[0] == b[0]
  {
    assert a[0] in multiset(b) && b[0] in multiset(a);
    var i :| 0 <= i < |b| && b[i] == a[0];
    var j :| 0 <= j < |a| && a[j] == b[0];
    FirstIsBefore(a, j);
    FirstIsBefore(b, i);
    BeforeIsTotal(a[0], b[0]);
  }

  lemma SameSize<T>(a: seq<T>, b: seq<T>)
    requires multiset(a) == multiset(b)
    ensures |a| == |b|
  {
    assert |multiset(a)| == |a| && |multiset(b)| == |b|;
  }

  /** Lists that agree as multisets still do without a common element. */
  lemma RestAgrees<T>(a: seq<T>, b: seq<T>, i: nat, j: nat)
    requires i < |a| && j < |b| && a[i] == b[j] && multiset(a) == multiset(b)
    ensures multiset(Without(a, i)) == multiset(Without(b, j))
  {
    WithoutMultiset(a, i);
    WithoutMultiset(b, j);
    var ma, mb, x := multiset(Without(a, i)), multiset(Without(b, j)), multiset{a[i]};
    assert ma == (ma + x) - x && mb == (mb + x) - x;
  }

  lemma TailIsOrdered(a: seq<Movie>)
    requires Ordered(a) && a != []
    ensures Ordered(a[1..]) && Without(a, 0) == a[1..] && a == [a[0]] + a[1..]
  {
  }

  /** Two ordered arrangements of the same movies are the same list. */
  lemma {:induction false} OrderedIsUnique(a: seq<Movie>, b: seq<Movie>)
    requires Ordered(a) && Ordered(b) && multiset(a) == multiset(b)
    ensures a == b
    decreases |a|
  {
    hide Ordered, Without;
    SameSize(a, b);
    if a != [] {
      HeadsAgree(a, b);
      TailIsOrdered(a);
      TailIsOrdered(b);
      RestAgrees(a, b, 0, 0);
      OrderedIsUnique(a[1..], b[1..]);
    }
  }

  lemma FirstIsBefore(a: seq<Movie>, j: nat)
    requires Ordered(a) && j < |a|
    ensures Before(a[0], a[j])
  {
    if j == 0 {
      CompareIsOrder(a[0].title, a[0].title);
    }
  }

  /** Insert a movie before the first one it may precede. */
  function Insert(m: Movie, ms: seq<Movie>): (r: seq<Movie>)
    ensures |r| == |ms| + 1
  {
    if ms == [] || Before(m, ms[0]) then [m] + ms else [ms[0]] + Insert(m, ms[1..])
  }

  /** The reference result: the movies of a list in order. */
  function SortOf(ms: seq<Movie>): (r: seq<Movie>)
    ensures |r| == |ms|
  {
    if ms == [] then [] else Insert(ms[0], SortOf(ms[1..]))
  }

  lemma {:induction false} InsertIsOrdered(m: Movie, ms: seq<Movie>)
    requires Ordered(ms)
    ensures Ordered(Insert(m, ms))
    ensures multiset(Insert(m, ms)) == multiset(ms) + multiset{m}
  {
    if ms == [] {
    } else if Before(m, ms[0]) {
      forall j | 0 <= j < |ms|
        ensures Before(m, ms[j])
      {
        FirstIsBefore(ms, j);
        BeforeIsTransitive(m, ms[0], ms[j]);
      }
    } else {
      BeforeIsTotal(m, ms[0]);
      var rest := Insert(m, ms[1..]);
      InsertIsOrdered(m, ms[1..]);
      assert ms == [ms[0]] + ms[1..];
      forall j | 0 <= j < |rest|
        ensures Before(ms[0], rest[j])
      {
        assert rest[j] in multiset(rest);
        assert rest[j] == m || rest[j] in ms[1..];
      }
    }
  }

  lemma {:induction false} SortOfIsOrdered(ms: seq<Movie>)
    ensures Ordered(SortOf(ms)) && multiset(SortOf(ms)) == multiset(ms)
  {
    if ms != [] {
      SortOfIsOrdered(ms[1..]);
      InsertIsOrdered(ms[0], SortOf(ms[1..]));
      assert ms == [ms[0]] + ms[1..];
    }
  }

  /** Any ordered arrangement of a list is the reference result. */
  lemma OrderedIsSortOf(r: seq<Movie>, ms: seq<Movie>)
    requires Ordered(r) && multiset(r) == multiset(ms)
    ensures r == SortOf(ms)
  {
    SortOfIsOrdered(ms);
    OrderedIsUnique(r, SortOf(ms));
  }

  ghost predicate AllPlain(ms: seq<Movie>) {
    forall i :: 0 <= i < |ms| ==> Plain(ms[i].title)
  }

  lemma {:induction false} DecorateAllMultiset(a: seq<Movie>, b: seq<Movie>)
    requires multiset(a) == multiset(b)
    ensures multiset(DecorateAll(a)) == multiset(DecorateAll(b))
    decreases |a|
  {
    SameSize(a, b);
    if a != [] {
      assert a[0] in multiset(b);
      var i :| 0 <= i < |b| && b[i] == a[0];
      RestAgrees(a, b, 0, i);
      DecorateAllMultiset(Without(a, 0), Without(b, i));
      PutBack(a, 0);
      PutBack(b, i);
    }
  }

  lemma PutBack(a: seq<Movie>, i: nat)
    requires i < |a|
    ensures multiset(DecorateAll(a)) == multiset(DecorateAll(Without(a, i))) + multiset{Decorate(a[i])}
  {
    WithoutMultiset(DecorateAll(a), i);
    assert Without(DecorateAll(a), i) == DecorateAll(Without(a, i));
  }

  /** Sorting raw titles and then decorating is sorting decorated titles. */
  lemma DecoratedSort(r: seq<Movie>, ms: seq<Movie>)
    requires Ordered(r) && multiset(r) == multiset(ms) && AllPlain(ms)
    ensures DecorateAll(r) == SortOf(DecorateAll(ms))
  {
    forall i, j | 0 <= i < j < |r|
      ensures Before(DecorateAll(r)[i], DecorateAll(r)[j])
    {
      assert r[i] in multiset(ms) && r[j] in multiset(ms);
      DecorationKeepsBefore(r[i], r[j]);
    }
    DecorateAllMultiset(r, ms);
    OrderedIsSortOf(DecorateAll(r), DecorateAll(ms));
  }
}
