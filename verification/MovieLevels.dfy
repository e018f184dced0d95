/** One level of the server: several workers share the list, the scheduler decides
    whose step comes next, and the level is joined when all workers are over. */
module MovieLevels {
  import opened MovieOrder
  import opened MovieSort
  import opened MovieMerge
  import opened MovieWorkers

  datatype Level = Level(workers: seq<Worker>, rows: seq<Movie>)

  /** The turn of one worker.  A turn for a worker that is over, or does not exist,
      changes nothing. */
  function Turn(lv: Level, k: nat): (lv': Level)
    ensures |lv'.workers| == |lv.workers| && |lv'.rows| == |lv.rows|
  {
    if k < |lv.workers| && !lv.workers[k].Over() && InBounds(lv.workers[k], lv.rows) then
      var x := Step(lv.workers[k], lv.rows);
      Level(lv.workers[k := x.0], x.1)
    else lv
  }

  function Run(lv: Level, schedule: seq<nat>): (lv': Level)
    ensures |lv'.workers| == |lv.workers| && |lv'.rows| == |lv.rows|
    decreases |schedule|
  {
    if schedule == [] then lv else Run(Turn(lv, schedule[0]), schedule[1..])
  }

  predicate Joined(lv: Level) { forall k :: 0 <= k < |lv.workers| ==> lv.workers[k].Over() }

  /** The workers' parts follow each other from the start of the list to its end. */
  ghost predicate Tiled(ws: seq<Worker>, cnt: nat) {
    && ws != [] && ws[0].Lo() == 0 && ws[|ws| - 1].Hi() == cnt
    && (forall k :: 0 <= k < |ws| ==> ws[k].Lo() < ws[k].Hi() <= cnt)
    && (forall k :: 0 < k < |ws| ==> ws[k].Lo() == ws[k - 1].Hi())
  }

  ghost predicate Apart(ws: seq<Worker>) {
    forall i, j :: 0 <= i < j < |ws| ==> ws[i].Hi() <= ws[j].Lo()
  }

  lemma {:induction false} TilesAreApart(ws: seq<Worker>, cnt: nat, i: nat, j: nat)
    requires Tiled(ws, cnt) && i < j < |ws|
    ensures ws[i].Hi() <= ws[j].Lo()
    decreases j
  {
    if i < j - 1 {
      TilesAreApart(ws, cnt, i, j - 1);
    }
  }

  /** Same worker as far as its part of the list and its purpose go. */
  predicate SameJob(w: Worker, w': Worker) {
    w'.Lo() == w.Lo() && w'.Hi() == w.Hi() && w'.Sorter? == w.Sorter? && (w.Merger? ==> w'.p == w.p)
  }

  ghost predicate OneOk(w: Worker, w0: Worker, rows: seq<Movie>, rows0: seq<Movie>) {
    SameJob(w0, w) && Within(w, rows) && |rows0| == |rows| && WorkerOk(w, PartOf(w, rows), PartOf(w, rows0))
  }

  /** Every worker is on its way from its part of the starting list to its target. */
  ghost predicate LevelOk(lv: Level, lv0: Level) {
    && Apart(lv.workers) && |lv.workers| == |lv0.workers| && |lv.rows| == |lv0.rows|
    && forall k :: 0 <= k < |lv.workers| ==> OneOk(lv.workers[k], lv0.workers[k], lv.rows, lv0.rows)
  }

  /** Another worker's step does not touch this worker's part. */
  lemma OtherStaysOk(w: Worker, w0: Worker, rows: seq<Movie>, rows': seq<Movie>, rows0: seq<Movie>)
    requires OneOk(w, w0, rows, rows0) && |rows'| == |rows|
    requires forall k :: w.Lo() <= k < w.Hi() ==> rows'[k] == rows[k]
    ensures OneOk(w, w0, rows', rows0)
  {
    hide WorkerOk;
    assert PartOf(w, rows') == PartOf(w, rows);
  }

  lemma OwnStaysOk(w: Worker, w0: Worker, rows: seq<Movie>, rows0: seq<Movie>)
    requires OneOk(w, w0, rows, rows0) && !w.Over()
    ensures InBounds(w, rows)
    ensures var x := Step(w, rows);
      OneOk(x.0, w0, x.1, rows0) && SameJob(w, x.0)
      && forall k :: (0 <= k < w.Lo() || w.Hi() <= k < |rows|) ==> x.1[k] == rows[k]
  {
    hide WorkerOk, Step, InBounds;
    StepKeepsOk(w, rows, PartOf(w, rows0));
  }

  lemma OkIsWithin(w: Worker, w0: Worker, rows: seq<Movie>, rows0: seq<Movie>)
    requires OneOk(w, w0, rows, rows0)
    ensures Within(w, rows)
  {
  }

  lemma TurnKeepsLevel(lv: Level, lv0: Level, k: nat)
    requires LevelOk(lv, lv0)
    ensures LevelOk(Turn(lv, k), lv0)
  {
    hide OneOk, Step, InBounds;
    if k < |lv.workers| && !lv.workers[k].Over() {
      var w := lv.workers[k];
      OwnStaysOk(w, lv0.workers[k], lv.rows, lv0.rows);
      var lv' := Turn(lv, k);
      assert SameJob(w, lv'.workers[k]);
      forall i | 0 <= i < |lv.workers|
        ensures OneOk(lv'.workers[i], lv0.workers[i], lv'.rows, lv0.rows)
      {
        if i != k {
          var v := lv.workers[i];
          assert v.Hi() <= w.Lo() || w.Hi() <= v.Lo();
          assert v.Hi() <= |lv.rows| by { OkIsWithin(v, lv0.workers[i], lv.rows, lv0.rows); }
          OtherStaysOk(lv.workers[i], lv0.workers[i], lv.rows, lv'.rows, lv0.rows);
        }
      }
    }
  }

  lemma {:induction false} RunKeepsLevel(lv: Level, lv0: Level, schedule: seq<nat>)
    requires LevelOk(lv, lv0)
    ensures LevelOk(Run(lv, schedule), lv0)
    decreases |schedule|
  {
    if schedule != [] {
      TurnKeepsLevel(lv, lv0, schedule[0]);
      RunKeepsLevel(Turn(lv, schedule[0]), lv0, schedule[1..]);
    }
  }

  /** A worker that has not begun. */
  ghost predicate Fresh(w: Worker, rows: seq<Movie>) {
    Within(w, rows) && WorkerOk(w, PartOf(w, rows), PartOf(w, rows))
  }

  ghost predicate Starts(lv: Level) {
    && Tiled(lv.workers, |lv.rows|)
    && forall k :: 0 <= k < |lv.workers| ==> Fresh(lv.workers[k], lv.rows)
  }

  lemma StartIsOk(lv: Level)
    requires Starts(lv)
    ensures LevelOk(lv, lv)
  {
    hide WorkerOk;
    forall i, j | 0 <= i < j < |lv.workers|
      ensures lv.workers[i].Hi() <= lv.workers[j].Lo()
    {
      TilesAreApart(lv.workers, |lv.rows|, i, j);
    }
  }

  ghost predicate IsTarget(w: Worker, rows: seq<Movie>, rows0: seq<Movie>) {
    && |rows| == |rows0| && Within(w, rows) && (w.Merger? ==> w.p.lo <= w.p.mid <= w.p.end)
    && PartOf(w, rows) == Target(w, PartOf(w, rows0))
  }

  ghost predicate AllMeet(ws: seq<Worker>, rows: seq<Movie>, rows0: seq<Movie>) {
    forall k :: 0 <= k < |ws| ==> IsTarget(ws[k], rows, rows0)
  }

  lemma OneTarget(w: Worker, w0: Worker, rows: seq<Movie>, rows0: seq<Movie>)
    requires OneOk(w, w0, rows, rows0) && w.Over()
    ensures IsTarget(w0, rows, rows0)
  {
    hide WorkerOk;
    OverMeansTarget(w, PartOf(w, rows), PartOf(w, rows0));
  }

  /** Whatever the interleaving of the workers' steps, once all of them are over
      every part holds its target. */
  lemma LevelMeetsTargets(lv: Level, schedule: seq<nat>)
    requires Starts(lv) && Joined(Run(lv, schedule))
    ensures AllMeet(lv.workers, Run(lv, schedule).rows, lv.rows)
  {
    hide OneOk, IsTarget, Fresh;
    StartIsOk(lv);
    RunKeepsLevel(lv, lv, schedule);
    var lv' := Run(lv, schedule);
    forall k | 0 <= k < |lv.workers|
      ensures IsTarget(lv.workers[k], lv'.rows, lv.rows)
    {
      OneTarget(lv'.workers[k], lv.workers[k], lv'.rows, lv.rows);
    }
  }

  /** The position belongs to one of the first n parts. */
  lemma {:induction false} PartHolding(ws: seq<Worker>, cnt: nat, n: nat, x: nat) returns (k: nat)
    requires Tiled(ws, cnt) && 0 < n <= |ws| && x < ws[n - 1].Hi()
    ensures k < n && ws[k].Lo() <= x < ws[k].Hi()
    decreases n
  {
    if ws[n - 1].Lo() <= x {
      k := n - 1;
    } else {
      k := PartHolding(ws, cnt, n - 1, x);
    }
  }

  /** The list after the join does not depend on the interleaving. */
  lemma AnyOrderSameResult(lv: Level, one: seq<nat>, two: seq<nat>)
    requires Starts(lv) && Joined(Run(lv, one)) && Joined(Run(lv, two))
    ensures Run(lv, one).rows == Run(lv, two).rows
  {
    hide Fresh, Run, Joined;
    LevelMeetsTargets(lv, one);
    LevelMeetsTargets(lv, two);
    var a, b := Run(lv, one).rows, Run(lv, two).rows;
    forall x | 0 <= x < |a|
      ensures a[x] == b[x]
    {
      var k := PartHolding(lv.workers, |lv.rows|, |lv.workers|, x);
      var w := lv.workers[k];
      assert IsTarget(w, a, lv.rows) && IsTarget(w, b, lv.rows);
      SamePart(a, b, w.Lo(), w.Hi(), x);
    }
  }

  lemma SamePart(a: seq<Movie>, b: seq<Movie>, lo: nat, hi: nat, x: nat)
    requires lo <= x < hi <= |a| == |b| && a[lo..hi] == b[lo..hi]
    ensures a[x] == b[x]
  {
    assert a[lo..hi][x - lo] == b[lo..hi][x - lo];
  }

  // ----- every level comes to its join -----

  /** At most this many more steps. */
  function Fuel(w: Worker): int {
    match w
    case Sorter(lo, hi, placed, over) => if over then 0 else hi - lo - placed
    case Merger(p, phase, l, r, j, back, temp) =>
      match phase
      case Scanning => 2 * ((p.mid - l) + (p.end - r)) + (p.mid - l) + |temp| + 3
      case Moving => (p.mid - j) + |temp| - back + 2
      case Writing => |temp| - back + 1
      case Finished => 0
  }

  function TurnsOf(schedule: seq<nat>, k: nat): nat {
    if schedule == [] then 0 else (if schedule[0] == k then 1 else 0) + TurnsOf(schedule[1..], k)
  }

  lemma StepUsesFuel(w: Worker, w0: Worker, rows: seq<Movie>, rows0: seq<Movie>)
    requires OneOk(w, w0, rows, rows0) && !w.Over()
    ensures InBounds(w, rows) && Fuel(Step(w, rows).0) < Fuel(w)
  {
    hide WorkerOk;
    OkIsInBounds(w, rows, PartOf(w, rows0));
    if w.Merger? && !w.phase.Writing? {
      StartsWriting(w, PartOf(w, rows), PartOf(w, rows0));
    }
  }

  lemma StartsWriting(w: Worker, part: seq<Movie>, part0: seq<Movie>)
    requires WorkerOk(w, part, part0) && w.Merger? && !w.Over() && !w.phase.Writing?
    ensures w.back == 0 && (w.phase.Scanning? ==> w.j == w.l)
  {
  }

  lemma {:induction false} OverNeedsNoFuel(w: Worker, rows: seq<Movie>)
    requires InBounds(w, rows) && Fuel(w) <= 0
    ensures w.Over()
  {
  }

  /** A worker that gets as many turns as it has fuel is over at the end. */
  lemma {:induction false} EnoughTurns(lv: Level, lv0: Level, schedule: seq<nat>, k: nat)
    requires LevelOk(lv, lv0) && k < |lv.workers|
    requires lv.workers[k].Over() || TurnsOf(schedule, k) >= Fuel(lv.workers[k])
    ensures Run(lv, schedule).workers[k].Over()
    decreases |schedule|
  {
    hide OneOk, Step, InBounds, Fuel;
    var w := lv.workers[k];
    if schedule == [] {
      if !w.Over() {
        OwnStaysOk(w, lv0.workers[k], lv.rows, lv0.rows);
        OverNeedsNoFuel(w, lv.rows);
      }
    } else {
      TurnKeepsLevel(lv, lv0, schedule[0]);
      var lv' := Turn(lv, schedule[0]);
      if schedule[0] == k && !w.Over() {
        StepUsesFuel(w, lv0.workers[k], lv.rows, lv0.rows);
        assert Fuel(lv'.workers[k]) < Fuel(w);
      }
      EnoughTurns(lv', lv0, schedule[1..], k);
    }
  }

  /** A schedule that gives n turns to each of the first m workers. */
  function RoundRobin(m: nat, n: nat): seq<nat> {
    if m == 0 then [] else RoundRobin(m - 1, n) + seq(n, _ => m - 1)
  }

  lemma {:induction false} TurnsAddUp(a: seq<nat>, b: seq<nat>, k: nat)
    ensures TurnsOf(a + b, k) == TurnsOf(a, k) + TurnsOf(b, k)
    decreases |a|
  {
    if a == [] {
      assert a + b == b;
    } else {
      assert (a + b)[1..] == a[1..] + b;
      TurnsAddUp(a[1..], b, k);
    }
  }

  lemma {:induction false} TurnsOfOne(n: nat, k: nat)
    ensures TurnsOf(seq(n, _ => k), k) == n
  {
    if n > 0 {
      assert seq(n, _ => k)[1..] == seq(n - 1, _ => k);
      TurnsOfOne(n - 1, k);
    }
  }

  lemma {:induction false} RoundRobinIsFair(m: nat, n: nat, k: nat)
    requires k < m
    ensures TurnsOf(RoundRobin(m, n), k) >= n
  {
    TurnsAddUp(RoundRobin(m - 1, n), seq(n, _ => m - 1), k);
    if k < m - 1 {
      RoundRobinIsFair(m - 1, n, k);
    } else {
      TurnsOfOne(n, k);
    }
  }

  function MostFuel(ws: seq<Worker>): (n: nat)
    ensures forall k :: 0 <= k < |ws| ==> Fuel(ws[k]) <= n
  {
    if ws == [] then 0
    else
      var n := MostFuel(ws[1..]);
      if Fuel(ws[0]) > n then Fuel(ws[0]) else n
  }

  /** Every level can be brought to its join, and any schedule that keeps serving
      all workers does so. */
  lemma LevelJoins(lv: Level) returns (schedule: seq<nat>)
    requires Starts(lv)
    ensures Joined(Run(lv, schedule))
  {
    hide Fresh, Tiled, Run, Fuel;
    StartIsOk(lv);
    var n := MostFuel(lv.workers);
    schedule := RoundRobin(|lv.workers|, n);
    forall k | 0 <= k < |lv.workers|
      ensures Run(lv, schedule).workers[k].Over()
    {
      RoundRobinIsFair(|lv.workers|, n, k);
      EnoughTurns(lv, lv, schedule, k);
    }
  }
}
