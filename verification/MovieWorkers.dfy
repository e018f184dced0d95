/** The worker threads of one level, stepping in any order on one shared list.
    A sorter runs the sort library on its chunk; a merger merges its pair of
    runs.  One step is one iteration of the worker's current loop. */
module MovieWorkers {
  import opened MovieOrder
  import opened MovieSort
  import opened MovieMerge

  datatype Phase = Scanning | Moving | Writing | Finished

  /** A sorter counts the movies it has placed.  A merger has read up to l and r and
      moved up to j; temp is its private copy, partly written back. */
  datatype Worker =
    | Sorter(lo: nat, hi: nat, placed: nat, over: bool)
    | Merger(p: Span, phase: Phase, l: nat, r: nat, j: nat, back: nat, temp: seq<Movie>)
  {
    function Lo(): nat { if Sorter? then lo else p.lo }
    function Hi(): nat { if Sorter? then hi else p.end }
    predicate Over() { if Sorter? then over else phase.Finished? }
  }

  /** The best of the movies from start up to end, found as the library does. */
  function Best(a: seq<Movie>, start: nat, end: nat): (k: nat)
    requires start < end <= |a|
    ensures start <= k < end
    decreases end - start
  {
    if end == start + 1 then start
    else
      var k := Best(a, start, end - 1);
      var m := a[end - 1];
      if m.score > a[k].score || (m.score == a[k].score && Compare(a[k].title, m.title) > 0) then end - 1 else k
  }

  lemma {:induction false} BestIsBest(a: seq<Movie>, start: nat, end: nat)
    requires start < end <= |a|
    ensures forall k :: start <= k < end ==> Before(a[Best(a, start, end)], a[k])
    decreases end - start
  {
    if end == start + 1 {
      CompareIsOrder(a[start].title, a[start].title);
    } else {
      BestIsBest(a, start, end - 1);
      var k, m := Best(a, start, end - 1), end - 1;
      CompareIsOrder(a[k].title, a[m].title);
      CompareIsOrder(a[m].title, a[m].title);
      if Best(a, start, end) == m {
        forall x | start <= x < m
          ensures Before(a[m], a[x])
        {
          BeforeIsTransitive(a[m], a[k], a[x]);
        }
      }
    }
  }

  predicate InBounds(w: Worker, a: seq<Movie>) {
    match w
    case Sorter(lo, hi, placed, over) => lo < hi <= |a| && placed < hi - lo
    case Merger(p, phase, l, r, j, back, temp) =>
      && p.lo < p.mid && p.mid - p.lo <= p.end - p.mid && p.end <= |a|
      && p.lo <= l <= p.mid <= r <= p.end && l <= j <= p.mid && back <= |temp| <= p.end - p.lo
  }

  /** One step of a worker that is not finished. */
  function Step(w: Worker, a: seq<Movie>): (x: (Worker, seq<Movie>))
    requires InBounds(w, a) && !w.Over()
    ensures |x.1| == |a|
  {
    match w
    case Sorter(lo, hi, placed, over) =>
      if placed < hi - lo - 1 then
        var k := Best(a, lo + placed, hi);
        (w.(placed := placed + 1), Swapped(a, lo + placed, k)[lo + placed := Decorate(a[k])])
      else (w.(over := true), a[hi - 1 := Decorate(a[hi - 1])])
    case Merger(p, phase, l, r, j, back, temp) =>
      match phase
      case Scanning =>
        if l < p.mid && r < p.end then
          if LeftFirst(a[l], a[r]) then (w.(l := l + 1, j := l + 1, temp := temp + [a[l]]), a)
          else (w.(r := r + 1, temp := temp + [a[r]]), a)
        else (w.(phase := if l < p.mid then Moving else Writing), a)
      case Moving =>
        if j < p.mid then (w.(j := j + 1), a[p.end - (p.mid - j) := a[j]])
        else (w.(phase := Writing), a)
      case Writing =>
        if back < |temp| then (w.(back := back + 1), a[p.lo + back := temp[back]])
        else (w.(phase := Finished), a)
  }

  /** What a worker makes of the part of the list it works on. */
  function Target(w: Worker, part: seq<Movie>): seq<Movie>
    requires w.Merger? ==> w.p.lo <= w.p.mid <= w.p.end && |part| == w.p.end - w.p.lo
  {
    match w
    case Sorter(lo, hi, placed, over) => SortOf(DecorateAll(part))
    case Merger(p, phase, l, r, j, back, temp) => Merge(part[..p.mid - p.lo], part[p.mid - p.lo..])
  }

  // ----- one worker on its own part; part0 is what it started from -----

  ghost predicate SorterOk(i: nat, over: bool, part: seq<Movie>, part0: seq<Movie>) {
    && AllPlain(part0) && |part| == |part0| && i < |part|
    && if over then part == SortOf(DecorateAll(part0))
       else exists raw: seq<Movie> :: Selected(part, raw, i) && Rearranged(raw, part0)
  }

  /** Positions are relative to the part; n is the length of the left run. */
  ghost predicate MergerOk(phase: Phase, n: nat, l: nat, r: nat, j: nat, i: nat, temp: seq<Movie>, part: seq<Movie>, part0: seq<Movie>) {
    && 0 < n <= |part| - n && |part| == |part0|
    && l <= j <= n <= r <= |part| && i <= |temp| == l + r - n
    && var left, right := part0[..n], part0[n..];
       match phase
       case Scanning => i == 0 && j == l && part == part0 && Merged(temp, left, right, l, r - n)
       case Moving =>
         && i == 0 && l < n && r == |part| && Merged(temp, left, right, l, r - n)
         && part[..n] == part0[..n]
         && part[|part| - (n - l)..|part| - (n - j)] == part0[l..j]
       case Writing =>
         && temp <= Merge(left, right)
         && part[..i] == temp[..i]
         && part[|temp|..] == Merge(left, right)[|temp|..]
       case Finished => part == Merge(left, right)
  }

  lemma SorterStep(i: nat, part: seq<Movie>, part0: seq<Movie>, part': seq<Movie>)
    requires SorterOk(i, false, part, part0) && i < |part| - 1
    requires var k := Best(part, i, |part|); part' == Swapped(part, i, k)[i := Decorate(part[k])]
    ensures SorterOk(i + 1, false, part', part0)
  {
    var raw: seq<Movie> :| Selected(part, raw, i) && Rearranged(raw, part0);
    var k := Best(part, i, |part|);
    BestIsBest(part, i, |part|);
    SelectNext(part, raw, i, k, part');
    SwapKeepsMultiset(raw, i, k);
  }

  lemma SorterLast(part: seq<Movie>, part0: seq<Movie>, part': seq<Movie>)
    requires |part| >= 1 && SorterOk(|part| - 1, false, part, part0)
    requires part' == part[|part| - 1 := Decorate(part[|part| - 1])]
    ensures SorterOk(|part| - 1, true, part', part0)
  {
    var raw: seq<Movie> :| Selected(part, raw, |part| - 1) && Rearranged(raw, part0);
    LastPlaced(part, raw, part0, part');
  }

  lemma ScanStep(n: nat, l: nat, r: nat, temp: seq<Movie>, part: seq<Movie>, part0: seq<Movie>)
    requires MergerOk(Scanning, n, l, r, l, 0, temp, part, part0) && l < n && r < |part|
    ensures LeftFirst(part[l], part[r]) ==> MergerOk(Scanning, n, l + 1, r, l + 1, 0, temp + [part[l]], part, part0)
    ensures !LeftFirst(part[l], part[r]) ==> MergerOk(Scanning, n, l, r + 1, l, 0, temp + [part[r]], part, part0)
  {
    MergeStep(temp, part0[..n], part0[n..], l, r - n);
  }

  lemma ScanEnds(n: nat, l: nat, r: nat, temp: seq<Movie>, part: seq<Movie>, part0: seq<Movie>)
    requires MergerOk(Scanning, n, l, r, l, 0, temp, part, part0) && (l == n || r == |part|)
    ensures MergerOk(if l < n then Moving else Writing, n, l, r, l, 0, temp, part, part0)
  {
    hide Merge, Merged;
    if l == n {
      var left, right := part0[..n], part0[n..];
      MergedEnds(temp, left, right, l, r - n);
      assert left[l..] + right[r - n..] == part0[r..];
      assert Merge(left, right) == temp + part0[r..];
    }
  }

  lemma MoveStep(n: nat, l: nat, r: nat, j: nat, temp: seq<Movie>, part: seq<Movie>, part0: seq<Movie>, part': seq<Movie>)
    requires MergerOk(Moving, n, l, r, j, 0, temp, part, part0) && j < n
    requires part' == part[|part| - (n - j) := part[j]]
    ensures MergerOk(Moving, n, l, r, j + 1, 0, temp, part', part0)
  {
    assert part[j] == part[..n][j] == part0[j];
    assert part'[..n] == part[..n];
    assert part'[|part| - (n - l)..|part| - (n - (j + 1))] == part[|part| - (n - l)..|part| - (n - j)] + [part[j]];
    assert part0[l..j + 1] == part0[l..j] + [part0[j]];
  }

  lemma MoveEnds(n: nat, l: nat, r: nat, temp: seq<Movie>, part: seq<Movie>, part0: seq<Movie>)
    requires MergerOk(Moving, n, l, r, n, 0, temp, part, part0)
    ensures MergerOk(Writing, n, l, r, n, 0, temp, part, part0)
  {
    hide Merge, Merged;
    var left, right := part0[..n], part0[n..];
    MergedEnds(temp, left, right, l, r - n);
    assert left[l..] + right[r - n..] == part0[l..n];
    assert Merge(left, right) == temp + part0[l..n];
    assert part[|temp|..] == part0[l..n];
  }

  lemma WriteStep(n: nat, l: nat, r: nat, j: nat, i: nat, temp: seq<Movie>, part: seq<Movie>, part0: seq<Movie>, part': seq<Movie>)
    requires MergerOk(Writing, n, l, r, j, i, temp, part, part0) && i < |temp|
    requires part' == part[i := temp[i]]
    ensures MergerOk(Writing, n, l, r, j, i + 1, temp, part', part0)
  {
    assert part'[..i + 1] == part[..i] + [temp[i]];
    assert part'[|temp|..] == part[|temp|..];
  }

  lemma WriteEnds(n: nat, l: nat, r: nat, j: nat, temp: seq<Movie>, part: seq<Movie>, part0: seq<Movie>)
    requires MergerOk(Writing, n, l, r, j, |temp|, temp, part, part0)
    ensures MergerOk(Finished, n, l, r, j, |temp|, temp, part, part0)
  {
    var whole := Merge(part0[..n], part0[n..]);
    assert part == part[..|temp|] + part[|temp|..];
    assert whole == whole[..|temp|] + whole[|temp|..];
  }

  // ----- one worker on the shared list -----

  ghost predicate WorkerOk(w: Worker, part: seq<Movie>, part0: seq<Movie>) {
    match w
    case Sorter(lo, hi, placed, over) => lo <= hi && |part| == hi - lo && SorterOk(placed, over, part, part0)
    case Merger(p, phase, l, r, j, back, temp) =>
      && p.lo <= p.mid <= p.end && |part| == p.end - p.lo && p.lo <= l && p.lo <= r && p.lo <= j
      && MergerOk(phase, p.mid - p.lo, l - p.lo, r - p.lo, j - p.lo, back, temp, part, part0)
  }

  predicate Within(w: Worker, a: seq<Movie>) { w.Lo() <= w.Hi() <= |a| }

  function PartOf(w: Worker, a: seq<Movie>): seq<Movie>
    requires Within(w, a)
  {
    a[w.Lo()..w.Hi()]
  }

  lemma OkIsInBounds(w: Worker, a: seq<Movie>, part0: seq<Movie>)
    requires Within(w, a) && WorkerOk(w, PartOf(w, a), part0) && !w.Over()
    ensures InBounds(w, a)
  {
    hide Merged, Merge, SortOf, Selected;
  }

  /** Best looks only at the part it is asked about. */
  lemma {:induction false} BestWithinPart(a: seq<Movie>, lo: nat, hi: nat, start: nat, end: nat)
    requires lo <= start < end <= hi <= |a|
    ensures Best(a, start, end) == lo + Best(a[lo..hi], start - lo, end - lo)
    decreases end - start
  {
    if end > start + 1 {
      BestWithinPart(a, lo, hi, start, end - 1);
    }
  }

  /** A step keeps a worker's own part in order and leaves the rest alone. */
  ghost predicate StepOk(w: Worker, a: seq<Movie>, w': Worker, a': seq<Movie>, part0: seq<Movie>) {
    && w'.Lo() == w.Lo() && w'.Hi() == w.Hi() && w'.Sorter? == w.Sorter? && (w.Merger? ==> w'.p == w.p)
    && |a'| == |a| && Within(w, a) && WorkerOk(w', PartOf(w, a'), part0)
    && (forall k :: (0 <= k < w.Lo() || w.Hi() <= k < |a|) ==> a'[k] == a[k])
  }

  lemma PutInPart(a: seq<Movie>, lo: nat, hi: nat, i: nat, m: Movie)
    requires lo <= hi <= |a| && lo + i < hi
    ensures a[lo + i := m][lo..hi] == a[lo..hi][i := m]
    ensures forall k :: (0 <= k < lo || hi <= k < |a|) ==> a[lo + i := m][k] == a[k]
  {
  }

  lemma SwapInPart(a: seq<Movie>, lo: nat, hi: nat, i: nat, k: nat)
    requires lo <= hi <= |a| && lo + i < hi && lo + k < hi
    ensures Swapped(a, lo + i, lo + k)[lo..hi] == Swapped(a[lo..hi], i, k)
    ensures forall x :: (0 <= x < lo || hi <= x < |a|) ==> Swapped(a, lo + i, lo + k)[x] == a[x]
  {
  }

  lemma PlacingOk(w: Worker, a: seq<Movie>, part0: seq<Movie>)
    requires w.Sorter? && InBounds(w, a) && WorkerOk(w, PartOf(w, a), part0) && !w.over && w.placed < w.hi - w.lo - 1
    ensures var x := Step(w, a); StepOk(w, a, x.0, x.1, part0)
  {
    hide Selected, SortOf, SorterOk, Swapped, Best, Decorate;
    var part := PartOf(w, a);
    BestWithinPart(a, w.lo, w.hi, w.lo + w.placed, w.hi);
    var k := Best(part, w.placed, |part|);
    SwapInPart(a, w.lo, w.hi, w.placed, k);
    var swapped := Swapped(a, w.lo + w.placed, w.lo + k);
    PutInPart(swapped, w.lo, w.hi, w.placed, Decorate(part[k]));
    var part' := Swapped(part, w.placed, k)[w.placed := Decorate(part[k])];
    SorterStep(w.placed, part, part0, part');
  }

  lemma LastPlacingOk(w: Worker, a: seq<Movie>, part0: seq<Movie>)
    requires w.Sorter? && InBounds(w, a) && WorkerOk(w, PartOf(w, a), part0) && !w.over && w.placed == w.hi - w.lo - 1
    ensures var x := Step(w, a); StepOk(w, a, x.0, x.1, part0)
  {
    hide Selected, SortOf, SorterOk, Decorate;
    var part := PartOf(w, a);
    PutInPart(a, w.lo, w.hi, w.placed, Decorate(a[w.hi - 1]));
    SorterLast(part, part0, part[w.placed := Decorate(part[w.placed])]);
  }

  lemma MergerStepOk(w: Worker, a: seq<Movie>, part0: seq<Movie>)
    requires w.Merger? && InBounds(w, a) && WorkerOk(w, PartOf(w, a), part0) && !w.Over()
    ensures var x := Step(w, a); StepOk(w, a, x.0, x.1, part0)
  {
    match w.phase
    case Scanning => ScanningOk(w, a, part0);
    case Moving => MovingOk(w, a, part0);
    case Writing => WritingOk(w, a, part0);
    case Finished =>
  }

  lemma ScanningOk(w: Worker, a: seq<Movie>, part0: seq<Movie>)
    requires w.Merger? && w.phase.Scanning? && InBounds(w, a) && WorkerOk(w, PartOf(w, a), part0)
    ensures var x := Step(w, a); StepOk(w, a, x.0, x.1, part0)
  {
    hide WorkerOk, Step, StepOk;
    if w.l < w.p.mid && w.r < w.p.end {
      ScanGoesOn(w, a, part0);
    } else {
      ScanStops(w, a, part0);
    }
  }

  lemma ScanGoesOn(w: Worker, a: seq<Movie>, part0: seq<Movie>)
    requires w.Merger? && w.phase.Scanning? && InBounds(w, a) && WorkerOk(w, PartOf(w, a), part0)
    requires w.l < w.p.mid && w.r < w.p.end
    ensures var x := Step(w, a); StepOk(w, a, x.0, x.1, part0)
  {
    hide LeftFirst, MergerOk;
    var part := PartOf(w, a);
    var lo := w.p.lo;
    var n, l, r := w.p.mid - lo, w.l - lo, w.r - lo;
    ScanIsFresh(n, l, r, w.j - lo, w.back, w.temp, part, part0);
    assert part[l] == a[w.l] && part[r] == a[w.r];
    ScanStep(n, l, r, w.temp, part, part0);
  }

  lemma ScanStops(w: Worker, a: seq<Movie>, part0: seq<Movie>)
    requires w.Merger? && w.phase.Scanning? && InBounds(w, a) && WorkerOk(w, PartOf(w, a), part0)
    requires w.l == w.p.mid || w.r == w.p.end
    ensures var x := Step(w, a); StepOk(w, a, x.0, x.1, part0)
  {
    hide LeftFirst, MergerOk;
    var part := PartOf(w, a);
    var lo := w.p.lo;
    var n, l, r := w.p.mid - lo, w.l - lo, w.r - lo;
    ScanIsFresh(n, l, r, w.j - lo, w.back, w.temp, part, part0);
    ScanEnds(n, l, r, w.temp, part, part0);
  }

  lemma ScanIsFresh(n: nat, l: nat, r: nat, j: nat, i: nat, temp: seq<Movie>, part: seq<Movie>, part0: seq<Movie>)
    requires MergerOk(Scanning, n, l, r, j, i, temp, part, part0)
    ensures i == 0 && j == l && l <= n <= r <= |part|
  {
  }

  lemma MovingOk(w: Worker, a: seq<Movie>, part0: seq<Movie>)
    requires w.Merger? && w.phase.Moving? && InBounds(w, a) && WorkerOk(w, PartOf(w, a), part0)
    ensures var x := Step(w, a); StepOk(w, a, x.0, x.1, part0)
  {
    hide Merged, Merge, MergerOk;
    var part := PartOf(w, a);
    var lo := w.p.lo;
    var n, l, r, j := w.p.mid - lo, w.l - lo, w.r - lo, w.j - lo;
    var x := Step(w, a);
    MoveIsFresh(n, l, r, j, w.back, w.temp, part, part0);
    if w.j < w.p.mid {
      assert part[j] == a[w.j];
      assert PartOf(w, x.1) == part[|part| - (n - j) := part[j]];
      MoveStep(n, l, r, j, w.temp, part, part0, PartOf(w, x.1));
    } else {
      MoveEnds(n, l, r, w.temp, part, part0);
    }
  }

  lemma MoveIsFresh(n: nat, l: nat, r: nat, j: nat, i: nat, temp: seq<Movie>, part: seq<Movie>, part0: seq<Movie>)
    requires MergerOk(Moving, n, l, r, j, i, temp, part, part0)
    ensures i == 0 && n <= |part| - n
  {
  }

  lemma WritingOk(w: Worker, a: seq<Movie>, part0: seq<Movie>)
    requires w.Merger? && w.phase.Writing? && InBounds(w, a) && WorkerOk(w, PartOf(w, a), part0)
    ensures var x := Step(w, a); StepOk(w, a, x.0, x.1, part0)
  {
    hide Merged, Merge, MergerOk;
    var part := PartOf(w, a);
    var lo := w.p.lo;
    var x := Step(w, a);
    if w.back < |w.temp| {
      assert PartOf(w, x.1) == part[w.back := w.temp[w.back]];
      WriteStep(w.p.mid - lo, w.l - lo, w.r - lo, w.j - lo, w.back, w.temp, part, part0, PartOf(w, x.1));
    } else {
      WriteEnds(w.p.mid - lo, w.l - lo, w.r - lo, w.j - lo, w.temp, part, part0);
    }
  }

  lemma StepKeepsOk(w: Worker, a: seq<Movie>, part0: seq<Movie>)
    requires Within(w, a) && WorkerOk(w, PartOf(w, a), part0) && !w.Over()
    ensures InBounds(w, a)
    ensures var x := Step(w, a); StepOk(w, a, x.0, x.1, part0)
  {
    hide WorkerOk, Step;
    OkIsInBounds(w, a, part0);
    if w.Sorter? {
      if w.placed < w.hi - w.lo - 1 {
        PlacingOk(w, a, part0);
      } else {
        LastPlacingOk(w, a, part0);
      }
    } else {
      MergerStepOk(w, a, part0);
    }
  }

  /** When a worker is over, its part is what it was to make. */
  lemma OverMeansTarget(w: Worker, part: seq<Movie>, part0: seq<Movie>)
    requires WorkerOk(w, part, part0) && w.Over()
    ensures w.Merger? ==> w.p.lo <= w.p.mid <= w.p.end && |part0| == w.p.end - w.p.lo
    ensures part == Target(w, part0)
  {
  }
}
