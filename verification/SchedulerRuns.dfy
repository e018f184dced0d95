/** Runs of the scheduler: which threads the queues hold, and how long a ready
    thread waits for the processor. */
module SchedulerRuns {
  import opened SchedulerQueues

  function Threads<T>(s: State<T>): multiset<T> { multiset(s.ready) + multiset(s.waiting) }

  /** Some thread is running. */
  predicate Busy<T>(s: State<T>) { s.cur < |s.ready| }

  /** The scheduler has returned to the main program. */
  predicate Idle<T>(s: State<T>) { s.ready == [] && s.waiting == [] }

  function Running<T>(s: State<T>): T
    requires Busy(s)
  {
    s.ready[s.cur]
  }

  /** The thread an event takes out for good. */
  function Leaver<T(==)>(s: State<T>, e: Event<T>): multiset<T>
    requires Busy(s)
  {
    if e.Exit? then multiset{Running(s)} else multiset{}
  }

  lemma DropKeeps<T>(s: State<T>)
    requires Busy(s)
    ensures multiset(DropCurrent(s).ready) + multiset{Running(s)} == multiset(s.ready)
    ensures |DropCurrent(s).ready| == |s.ready| - 1
    ensures Busy(DropCurrent(s)) || DropCurrent(s) == State([], 0, s.waiting)
  {
    hide DropCurrent;
    DropIs(s);
    var last := |s.ready| - 1;
    if s.cur == last {
      assert s.ready == DropCurrent(s).ready + [s.ready[last]];
    } else {
      Refilled(s.ready[..s.cur], s.ready[s.cur], s.ready[s.cur + 1..last], s.ready[last]);
    }
  }

  lemma DropIs<T>(s: State<T>)
    requires Busy(s)
    ensures var d, last := DropCurrent(s), |s.ready| - 1;
      && d.waiting == s.waiting && d.cur == (if s.cur == last then 0 else s.cur) && |d.ready| == last
      && (s.cur == last ==> d.ready == s.ready[..last])
      && (s.cur < last ==> d.ready == s.ready[..s.cur] + [s.ready[last]] + s.ready[s.cur + 1..last])
      && (s.cur < last ==> s.ready == s.ready[..s.cur] + [s.ready[s.cur]] + s.ready[s.cur + 1..last] + [s.ready[last]])
  {
  }

  lemma Refilled<T>(front: seq<T>, x: T, back: seq<T>, y: T)
    ensures multiset(front + [y] + back) + multiset{x} == multiset(front + [x] + back + [y])
  {
  }

  lemma ReorderKeeps<T>(s: State<T>, awake: set<T>)
    ensures Threads(Reorder(s, awake)) == Threads(s)
    ensures Busy(s) ==> Busy(Reorder(s, awake)) && Running(Reorder(s, awake)) == Running(s)
  {
    ReorderPartitions(s.waiting, awake);
  }

  lemma RefillKeeps<T>(s: State<T>, late: set<T>)
    requires Busy(s) || (s.ready == [] && s.cur == 0)
    requires Comes(s, late)
    ensures Threads(Refill(s, late)) == Threads(s)
    ensures Busy(Refill(s, late)) || Idle(Refill(s, late))
    ensures Idle(Refill(s, late)) <==> Idle(s)
  {
    if s.ready == [] && s.waiting != [] {
      var t :| t in s.waiting && t in late;
      SomeoneComes(s.waiting, late, t);
      ReorderKeeps(State([], 0, s.waiting), late);
      assert [] + Woken(s.waiting, late) == Woken(s.waiting, late);
    }
  }

  lemma InterruptKeeps<T>(s: State<T>, awake: set<T>)
    requires Busy(s)
    ensures Threads(AfterInterrupt(s, awake)) == Threads(s) && Busy(AfterInterrupt(s, awake))
  {
    hide Woken, Still;
    ReorderKeeps(s, awake);
  }

  lemma ParkedKeeps<T>(s: State<T>, awake: set<T>)
    requires Busy(s)
    ensures var d := Parked(s, awake);
      Threads(d) == Threads(s) && (Busy(d) || (d.ready == [] && d.cur == 0)) && !Idle(d)
  {
    hide Woken, Still, DropCurrent;
    ReorderKeeps(s, awake);
    DropKeeps(Reorder(s, awake));
    DropIs(Reorder(s, awake));
  }

  lemma LeftKeeps<T>(s: State<T>, awake: set<T>)
    requires Busy(s)
    ensures var d := Left(s, awake);
      Threads(d) + multiset{Running(s)} == Threads(s) && (Busy(d) || (d.ready == [] && d.cur == 0))
  {
    hide Woken, Still, DropCurrent;
    ReorderKeeps(s, awake);
    DropKeeps(Reorder(s, awake));
    DropIs(Reorder(s, awake));
  }

  /** One event: nothing is lost or doubled, only an exit takes its thread away,
      and either a thread runs afterwards or all of them have left. */
  lemma EventKeepsThreads<T>(s: State<T>, e: Event<T>)
    requires Busy(s) && Possible(s, e)
    ensures Threads(Next(s, e)) + Leaver(s, e) == Threads(s)
    ensures Busy(Next(s, e)) || Idle(Next(s, e))
    ensures Idle(Next(s, e)) ==> e.Exit?
  {
    hide AfterInterrupt, Parked, Left, Refill, Comes, Threads;
    match e
    case Interrupt(awake) => InterruptKeeps(s, awake);
    case Read(awake, late) =>
      ParkedKeeps(s, awake);
      RefillKeeps(Parked(s, awake), late);
    case Exit(awake, late) =>
      LeftKeeps(s, awake);
      RefillKeeps(Left(s, awake), late);
  }

  // ----- runs -----

  function Run<T(==)>(s: State<T>, es: seq<Event<T>>): State<T>
    decreases |es|
  {
    if es == [] || !Busy(s) then s else Run(Next(s, es[0]), es[1..])
  }

  ghost predicate CanRun<T>(s: State<T>, es: seq<Event<T>>)
    decreases |es|
  {
    es != [] ==> Busy(s) && Possible(s, es[0]) && CanRun(Next(s, es[0]), es[1..])
  }

  /** The threads that have exited, in order. */
  function Exited<T(==)>(s: State<T>, es: seq<Event<T>>): seq<T>
    decreases |es|
  {
    if es == [] || !Busy(s) then []
    else (if es[0].Exit? then [Running(s)] else []) + Exited(Next(s, es[0]), es[1..])
  }

  /** Over every run the queues and the exited threads together hold exactly the
      threads created: each one once, if they were different.  Some thread runs
      unless all have exited. */
  lemma {:induction false} RunKeepsThreads<T>(s: State<T>, es: seq<Event<T>>)
    requires (Busy(s) || Idle(s)) && CanRun(s, es)
    ensures Threads(Run(s, es)) + multiset(Exited(s, es)) == Threads(s)
    ensures Busy(Run(s, es)) || Idle(Run(s, es))
    ensures Idle(Run(s, es)) <==> |Exited(s, es)| == |s.ready| + |s.waiting|
    decreases |es|
  {
    hide Next, Possible;
    if es != [] {
      EventKeepsThreads(s, es[0]);
      RunKeepsThreads(Next(s, es[0]), es[1..]);
    }
    Sizes(Run(s, es), Exited(s, es), s);
  }

  lemma Sizes<T>(s: State<T>, gone: seq<T>, s0: State<T>)
    requires Threads(s) + multiset(gone) == Threads(s0)
    ensures |s.ready| + |s.waiting| + |gone| == |s0.ready| + |s0.waiting|
  {
    assert |Threads(s) + multiset(gone)| == |Threads(s0)|;
  }

  ghost predicate Once<T>(m: multiset<T>) { forall t :: t in m ==> m[t] == 1 }

  /** Each thread created and not exited is in exactly one queue, once; the queues
      never hold more threads than were created. */
  lemma EachOnce<T>(s: State<T>, es: seq<Event<T>>, t: T)
    requires (Busy(s) || Idle(s)) && CanRun(s, es) && Once(Threads(s)) && t in Threads(s)
    ensures var s' := Run(s, es);
      && multiset(s'.ready)[t] + multiset(s'.waiting)[t] == (if t in Exited(s, es) then 0 else 1)
      && |s'.ready| + |s'.waiting| <= |s.ready| + |s.waiting|
  {
    RunKeepsThreads(s, es);
    Sizes(Run(s, es), Exited(s, es), s);
    assert (Threads(Run(s, es)) + multiset(Exited(s, es)))[t] == 1;
    assert t in Exited(s, es) <==> multiset(Exited(s, es))[t] > 0;
  }

  // ----- bounded waiting -----

  /** How far the ready thread at position p is from the processor when n threads
      were created. */
  function Distance(p: nat, cur: nat, n: nat): int {
    if p >= cur then p - cur else n - cur + p
  }

  /** Where the ready thread at position p, not the running one, is after an event. */
  function Place<T(==)>(s: State<T>, e: Event<T>, p: nat): nat
    requires Busy(s) && p < |s.ready|
  {
    var r := Reorder(s, e.awake);
    if !e.Interrupt? && p == |r.ready| - 1 then s.cur else p
  }

  /** A thread that is ready stays so until it has run, in spite of the hole being
      filled; interrupts bring it closer, reads and exits never move it away. */
  lemma CloserByInterrupts<T>(s: State<T>, e: Event<T>, p: nat, n: nat)
    requires Busy(s) && Possible(s, e) && p < |s.ready| && p != s.cur && |s.ready| + |s.waiting| <= n
    ensures var s', p' := Next(s, e), Place(s, e, p);
      && Busy(s') && p' < |s'.ready| && s'.ready[p'] == s.ready[p] && |s'.ready| + |s'.waiting| <= n
      && 0 <= Distance(p', s'.cur, n) <= Distance(p, s.cur, n)
      && (e.Interrupt? ==> Distance(p', s'.cur, n) < Distance(p, s.cur, n))
  {
    hide Next, Possible, Place, Distance, Threads;
    EventKeepsThreads(s, e);
    Sizes(Next(s, e), if e.Exit? then [Running(s)] else [], s);
    if e.Interrupt? { InterruptsBringCloser(s, e.awake, p, n); } else { OthersKeepClose(s, e, p, n); }
  }

  lemma InterruptsBringCloser<T>(s: State<T>, awake: set<T>, p: nat, n: nat)
    requires Busy(s) && p < |s.ready| && p != s.cur && |s.ready| + |s.waiting| <= n
    ensures var s' := Next(s, Interrupt(awake));
      && Busy(s') && p < |s'.ready| && s'.ready[p] == s.ready[p] && Place(s, Interrupt(awake), p) == p
      && 0 <= Distance(p, s'.cur, n) < Distance(p, s.cur, n)
  {
    hide Woken, Still, Threads;
    ReorderKeeps(s, awake);
    Sizes(Reorder(s, awake), [], s);
  }

  lemma OthersKeepClose<T>(s: State<T>, e: Event<T>, p: nat, n: nat)
    requires Busy(s) && p < |s.ready| && p != s.cur && |s.ready| + |s.waiting| <= n && !e.Interrupt?
    ensures var s', p' := Next(s, e), Place(s, e, p);
      && Busy(s') && p' < |s'.ready| && s'.ready[p'] == s.ready[p]
      && 0 <= Distance(p', s'.cur, n) <= Distance(p, s.cur, n)
  {
    hide Woken, Still, DropCurrent, Refill, Threads;
    ReorderKeeps(s, e.awake);
    var r := Reorder(s, e.awake);
    Sizes(r, [], s);
    assert r.ready[p] == s.ready[p];
    DropKeeps(r);
    DropMoves(r, p);
    NoRefill(if e.Read? then Parked(s, e.awake) else Left(s, e.awake), e.late);
  }

  lemma DropMoves<T>(r: State<T>, p: nat)
    requires Busy(r) && p < |r.ready| && p != r.cur
    ensures var d, p' := DropCurrent(r), if p == |r.ready| - 1 then r.cur else p;
      && p' < |d.ready| && d.ready[p'] == r.ready[p]
      && d.cur == if r.cur == |r.ready| - 1 then 0 else r.cur
  {
  }

  lemma NoRefill<T>(s: State<T>, late: set<T>)
    requires s.ready != []
    ensures Refill(s, late) == s
  {
  }

  function Interrupts<T(==)>(es: seq<Event<T>>): nat {
    if es == [] then 0 else (if es[0].Interrupt? then 1 else 0) + Interrupts(es[1..])
  }

  /** Bounded waiting: a ready thread at position p gets the processor within
      Distance(p, cur, n) interrupts, which is less than n. */
  lemma {:induction false} BoundedWaiting<T>(s: State<T>, es: seq<Event<T>>, p: nat, n: nat) returns (k: nat)
    requires Busy(s) && CanRun(s, es) && p < |s.ready| && |s.ready| + |s.waiting| <= n
    requires Interrupts(es) >= Distance(p, s.cur, n)
    ensures 0 <= Distance(p, s.cur, n) < n
    ensures k <= |es| && Busy(Run(s, es[..k])) && Running(Run(s, es[..k])) == s.ready[p]
    decreases |es|
  {
    hide Next, Possible, Place;
    if p == s.cur {
      k := 0;
    } else {
      var e := es[0];
      CloserByInterrupts(s, e, p, n);
      var j := BoundedWaiting(Next(s, e), es[1..], Place(s, e, p), n);
      k := j + 1;
      assert es[..k][1..] == es[1..][..j] && es[..k][0] == e;
    }
  }

  // ----- who wakes, who waits, who runs -----

  lemma MoreThan<T>(ready: seq<T>, more: seq<T>, t: T)
    requires t in more
    ensures multiset(ready + more)[t] > multiset(ready)[t]
  {
    assert multiset(ready + more) == multiset(ready) + multiset(more);
    assert t in multiset(more);
  }

  /** Every entry of the scheduler wakes the waiting threads whose input is there. */
  lemma FoundThreadsAreReady<T>(s: State<T>, e: Event<T>, t: T)
    requires Busy(s) && t in s.waiting && t in e.awake
    ensures t in Next(s, e).ready
  {
    hide Woken, Still, DropCurrent;
    PartsByMembership(s.waiting, e.awake, t);
    var r := Reorder(s, e.awake);
    if !e.Interrupt? {
      MoreThan(s.ready, Woken(s.waiting, e.awake), t);
      ReorderKeeps(s, e.awake);
      DropKeeps(r);
      assert multiset(DropCurrent(r).ready)[t] > 0 by {
        assert Running(s) in s.ready;
        assert t == Running(s) ==> multiset(s.ready)[t] > 0;
      }
    }
  }

  /** And a thread so woken has the processor within n - 1 further interrupts, when n
      threads were created. */
  lemma WokenThreadRuns<T>(s: State<T>, e: Event<T>, es: seq<Event<T>>, t: T, n: nat) returns (k: nat)
    requires Busy(s) && CanRun(s, [e] + es) && t in s.waiting && t in e.awake
    requires |s.ready| + |s.waiting| <= n <= Interrupts(es) + 1
    ensures k <= |es| && Busy(Run(s, [e] + es[..k])) && Running(Run(s, [e] + es[..k])) == t
  {
    hide Next, Possible, Threads;
    assert ([e] + es)[1..] == es;
    var s' := Next(s, e);
    EventKeepsThreads(s, e);
    Sizes(s', if e.Exit? then [Running(s)] else [], s) by { LeaverIs(s, e); }
    FoundThreadsAreReady(s, e, t);
    var p: nat :| p < |s'.ready| && s'.ready[p] == t;
    assert Distance(p, s'.cur, n) < n;
    k := BoundedWaiting(s', es, p, n);
    assert ([e] + es[..k])[1..] == es[..k];
  }

  lemma LeaverIs<T>(s: State<T>, e: Event<T>)
    requires Busy(s)
    ensures Leaver(s, e) == multiset(if e.Exit? then [Running(s)] else [])
  {
  }

  lemma DropAddsNone<T>(r: State<T>, t: T)
    requires Busy(r) && t in DropCurrent(r).ready
    ensures t in r.ready
  {
  }

  lemma ReorderAddsFound<T>(s: State<T>, awake: set<T>, t: T)
    requires t in Reorder(s, awake).ready
    ensures t in s.ready || (t in s.waiting && t in awake)
  {
    hide Woken, Still;
    PartsByMembership(s.waiting, awake, t);
  }

  /** Before the blocking select, a ready thread was ready or has been found. */
  lemma RemovalAddsFound<T>(s: State<T>, awake: set<T>, t: T)
    requires Busy(s) && (t in Parked(s, awake).ready || t in Left(s, awake).ready)
    ensures t in s.ready || (t in s.waiting && t in awake)
  {
    hide Woken, Still, DropCurrent;
    DropAddsNone(Reorder(s, awake), t);
    ReorderAddsFound(s, awake, t);
  }

  /** Who waits before the blocking select waited before, or has just read. */
  lemma RemovalWaiters<T>(s: State<T>, awake: set<T>, t: T)
    requires Busy(s)
    ensures t in Parked(s, awake).waiting ==> t in s.waiting || t == Running(s)
    ensures t in Left(s, awake).waiting ==> t in s.waiting
  {
    hide Woken, Still, DropCurrent;
    DropIs(Reorder(s, awake));
    PartsByMembership(s.waiting, awake, t);
  }

  lemma RefillAddsFound<T>(d: State<T>, late: set<T>, t: T)
    requires t in Refill(d, late).ready
    ensures t in d.ready || (t in d.waiting && t in late)
  {
    hide Woken, Still;
    PartsByMembership(d.waiting, late, t);
  }

  /** A thread that was not ready becomes so only if a select has found its input. */
  lemma OnlyFoundThreadsWake<T>(s: State<T>, e: Event<T>, t: T)
    requires Busy(s) && t !in s.ready && t in Next(s, e).ready
    ensures t in s.waiting && (t in e.awake || (!e.Interrupt? && t in e.late))
  {
    hide Parked, Left, Refill, Reorder;
    if e.Interrupt? {
      ReorderAddsFound(s, e.awake, t);
    } else {
      var d := if e.Read? then Parked(s, e.awake) else Left(s, e.awake);
      RefillAddsFound(d, e.late, t);
      RemovalWaiters(s, e.awake, t);
      if t in d.ready {
        RemovalAddsFound(s, e.awake, t);
      }
    }
  }

  /** The thread that reads is in the waiting queue afterwards, behind the others,
      unless nobody else is ready and the blocking select finds its input. */
  lemma ReaderWaits<T>(s: State<T>, e: Event<T>)
    requires Busy(s) && e.Read? && Once(Threads(s))
    ensures var x, s' := Running(s), Next(s, e);
      && (x in s'.waiting <==> x !in s'.ready)
      && (x in s'.ready ==> |s.ready| == 1 && x in e.late)
      && (|s.ready| > 1 ==> s'.waiting == Still(s.waiting, e.awake) + [x])
  {
    hide Woken, Still, DropCurrent, Threads;
    var x := Running(s);
    ParkedIs(s, e.awake);
    var d := Parked(s, e.awake);
    OnceInAll(s, d, x);
    PartsByMembership(d.waiting, e.late, x);
    assert [] + Woken(d.waiting, e.late) == Woken(d.waiting, e.late);
  }

  lemma ParkedIs<T>(s: State<T>, awake: set<T>)
    requires Busy(s)
    ensures var d := Parked(s, awake);
      && d.waiting == Still(s.waiting, awake) + [Running(s)] && |d.ready| >= |s.ready| - 1
      && Threads(d) == Threads(s)
  {
    hide Woken, Still, DropCurrent, Threads;
    ReorderKeeps(s, awake);
    DropIs(Reorder(s, awake));
    ParkedKeeps(s, awake);
  }

  lemma OnceInAll<T>(s: State<T>, d: State<T>, x: T)
    requires Once(Threads(s)) && Threads(d) == Threads(s) && x in d.waiting
    ensures x !in d.ready
  {
    assert Threads(d)[x] == 1;
    assert x in multiset(d.waiting);
    assert x in d.ready <==> x in multiset(d.ready);
  }

  /** What the blocking select would find plays no part while another thread is
      ready. */
  lemma LateOnlyIfNoneReady<T>(s: State<T>, awake: set<T>, late: set<T>, other: set<T>)
    requires Busy(s) && |s.ready| > 1
    ensures Next(s, Read(awake, late)) == Next(s, Read(awake, other))
    ensures Next(s, Exit(awake, late)) == Next(s, Exit(awake, other))
  {
    hide Woken, Still, DropCurrent;
    DropIs(Reorder(s, awake));
  }

  /** After an interrupt the next ready thread runs; behind the last one that is the
      first one woken, or else the first of all. */
  lemma InterruptTurnsTo<T>(s: State<T>, awake: set<T>)
    requires Busy(s)
    ensures var s' := Next(s, Interrupt(awake));
      && Busy(s')
      && (s.cur + 1 < |s.ready| ==> Running(s') == s.ready[s.cur + 1])
      && (s.cur + 1 == |s.ready| && (forall t :: t in s.waiting ==> t !in awake) ==> Running(s') == s.ready[0])
      && (s.cur + 1 == |s.ready| && (exists t :: t in s.waiting && t in awake) ==> Running(s') in s.waiting && Running(s') in awake)
  {
    hide Woken, Still;
    var w := Woken(s.waiting, awake);
    if w == [] {
      assert s.ready + w == s.ready;
      forall t | t in s.waiting
        ensures t !in awake
      {
        PartsByMembership(s.waiting, awake, t);
      }
    } else {
      PartsByMembership(s.waiting, awake, w[0]);
    }
  }

  /** After a read or an exit, with another thread ready, the thread woken last runs;
      if none is woken, the last ready one, or the first if the last was running. */
  lemma RemovalTurnsTo<T>(s: State<T>, e: Event<T>)
    requires Busy(s) && !e.Interrupt? && |s.ready| > 1
    ensures var s' := Next(s, e);
      && Busy(s')
      && ((exists t :: t in s.waiting && t in e.awake) ==> Running(s') in s.waiting && Running(s') in e.awake)
      && ((forall t :: t in s.waiting ==> t !in e.awake) ==>
            Running(s') == if s.cur + 1 == |s.ready| then s.ready[0] else s.ready[|s.ready| - 1])
  {
    hide Woken, Still, DropCurrent;
    var w := Woken(s.waiting, e.awake);
    DropIs(Reorder(s, e.awake));
    if w == [] {
      assert s.ready + w == s.ready;
      forall t | t in s.waiting
        ensures t !in e.awake
      {
        PartsByMembership(s.waiting, e.awake, t);
      }
    } else {
      PartsByMembership(s.waiting, e.awake, w[|w| - 1]);
    }
  }

  // ----- without interrupts there is no bound -----

  /** Two threads that keep reading, each as soon as the other's input is there. */
  function Overtaking<T(==)>(a: T, b: T, n: nat): (es: seq<Event<T>>)
    ensures |es| == n && Interrupts(es) == 0
  {
    if n == 0 then [] else [Read({b}, {})] + Overtaking(b, a, n - 1)
  }

  lemma OneOvertakes<T>(x: T, a: T, b: T)
    requires x != a && x != b && a != b
    ensures var s, e := State([x, a], 1, [b]), Read({b}, {});
      Possible(s, e) && Next(s, e) == State([x, b], 1, [a])
  {
    var s := State([x, a], 1, [b]);
    assert [b][..0] == [] && Woken([b], {b}) == [b] && Still([b], {b}) == [];
    assert Reorder(s, {b}) == State([x, a, b], 1, []);
    assert [x, a, b][1 := b][..2] == [x, b];
    assert [] + [a] == [a];
  }

  /** A ready thread can be passed over by any number of reads: the thread woken
      last always takes the place of the one that reads. */
  lemma {:induction false} ReadsCanOvertake<T>(x: T, a: T, b: T, n: nat)
    requires x != a && x != b && a != b
    ensures var s, es := State([x, a], 1, [b]), Overtaking(a, b, n);
      CanRun(s, es) && forall k :: 0 <= k <= n ==> Busy(Run(s, es[..k])) && Running(Run(s, es[..k])) != x
    decreases n
  {
    hide Next, Possible;
    var s, es := State([x, a], 1, [b]), Overtaking(a, b, n);
    if n > 0 {
      OneOvertakes(x, a, b);
      ReadsCanOvertake(x, b, a, n - 1);
      forall k | 0 <= k <= n
        ensures Busy(Run(s, es[..k])) && Running(Run(s, es[..k])) != x
      {
        if k > 0 {
          assert es[..k][0] == es[0] && es[..k][1..] == es[1..][..k - 1];
        }
      }
    }
  }

  /** Three threads just created come to where that begins: the first one reads, and
      the last one, which has taken its place, is interrupted. */
  lemma OvertakingIsReached<T>(x: T, a: T, b: T)
    requires x != a && x != b && a != b
    ensures var s, es := State([b, a, x], 0, []), [Read({}, {}), Interrupt({})];
      CanRun(s, es) && Run(s, es) == State([x, a], 1, [b])
  {
    var s := State([b, a, x], 0, []);
    assert Reorder(s, {}) == s;
    assert [b, a, x][0 := x][..2] == [x, a] && [] + [b] == [b];
    var parked := State([x, a], 0, [b]);
    assert Next(s, Read({}, {})) == parked;
    assert [b][..0] == [] && Woken([b], {}) == [] && Still([b], {}) == [b];
    assert [x, a] + [] == [x, a];
    assert Next(parked, Interrupt({})) == State([x, a], 1, [b]);
    var es: seq<Event<T>> := [Read({}, {}), Interrupt({})];
    assert es[1..] == [Event<T>.Interrupt({})] && es[1..][1..] == [];
  }
}
