/** The threads under the scheduler: whoever is current runs its next segment and
    then enters the scheduler, by an interrupt if one is pending at a yield. */
module ThreadRuns {
  import opened SchedulerQueues
  import opened SchedulerRuns
  import opened ThreadBodies

  /** Threads are named by their index.  printed is what the program has written. */
  datatype System = System(sched: State<nat>, tasks: seq<Task>, printed: seq<(nat, int)>)

  /** What the outside decides for one segment: whether a signal is pending at the
      yield, and which threads the selects find readable. */
  datatype Choice = Choice(interrupted: bool, awake: set<nat>, late: set<nat>)

  /** Everyone's input, a stream of numbers per thread. */
  type Inputs = nat -> (nat -> int)

  /** The scheduler event an entry leads to; none at a yield without a signal. */
  function EventOf(entry: Entry, c: Choice): seq<Event<nat>> {
    match entry
    case AtYield => if c.interrupted then [Interrupt(c.awake)] else []
    case AtRead => [Read(c.awake, c.late)]
    case AtExit => [Exit(c.awake, c.late)]
  }

  function Labelled(id: nat, out: seq<int>): (ls: seq<(nat, int)>)
    ensures |ls| == |out|
    ensures forall k :: 0 <= k < |out| ==> ls[k] == (id, out[k])
  {
    seq(|out|, k requires 0 <= k < |out| => (id, out[k]))
  }

  predicate Ready(y: System) { Busy(y.sched) && Running(y.sched) < |y.tasks| }

  function Turn(y: System, c: Choice, inputs: Inputs): System
    requires Ready(y)
  {
    var id := Running(y.sched);
    var g := NextSegment(y.tasks[id], inputs(id));
    System(Run(y.sched, EventOf(g.entry, c)), y.tasks[id := g.task], y.printed + Labelled(id, g.out))
  }

  ghost predicate MayTurn(y: System, c: Choice, inputs: Inputs) {
    && Ready(y)
    && CanRun(y.sched, EventOf(NextSegment(y.tasks[Running(y.sched)], inputs(Running(y.sched))).entry, c))
  }

  function RunAll(y: System, cs: seq<Choice>, inputs: Inputs): System
    decreases |cs|
  {
    if cs == [] || !Ready(y) then y else RunAll(Turn(y, cs[0], inputs), cs[1..], inputs)
  }

  ghost predicate MayRun(y: System, cs: seq<Choice>, inputs: Inputs)
    decreases |cs|
  {
    cs != [] ==> MayTurn(y, cs[0], inputs) && MayRun(Turn(y, cs[0], inputs), cs[1..], inputs)
  }

  /** What one thread has printed. */
  function PrintedBy(printed: seq<(nat, int)>, id: nat): seq<int> {
    if printed == [] then []
    else
      var rest := PrintedBy(printed[..|printed| - 1], id);
      var last := printed[|printed| - 1];
      if last.0 == id then rest + [last.1] else rest
  }

  lemma OneMorePrint(a: seq<(nat, int)>, p: (nat, int), id: nat)
    ensures PrintedBy(a + [p], id) == if p.0 == id then PrintedBy(a, id) + [p.1] else PrintedBy(a, id)
  {
    assert (a + [p])[..|a|] == a;
  }

  lemma {:induction false} PrintsAddUp(a: seq<(nat, int)>, id: nat, k: nat, out: seq<int>)
    ensures PrintedBy(a + Labelled(k, out), id) == if k == id then PrintedBy(a, id) + out else PrintedBy(a, id)
    decreases |out|
  {
    hide PrintedBy;
    if out == [] {
      assert a + Labelled(k, out) == a;
    } else {
      var n := |out| - 1;
      PrintsAddUp(a, id, k, out[..n]);
      assert a + Labelled(k, out) == a + Labelled(k, out[..n]) + [(k, out[n])];
      OneMorePrint(a + Labelled(k, out[..n]), (k, out[n]), id);
      assert out == out[..n] + [out[n]];
    }
  }

  // ----- the scheduler does not show in what a thread does -----

  /** After n of its segments the thread is where it would be running alone, has
      printed what it would have, and is in a queue unless it has exited. */
  ghost predicate AsAlone(y: System, y0: System, id: nat, input: nat -> int, n: nat)
    requires id < |y.tasks| && id < |y0.tasks|
  {
    var s := Alone(y0.tasks[id], input, n);
    && y.tasks[id] == s.task && PrintedBy(y.printed, id) == s.out
    && Threads(y.sched)[id] == if s.over then 0 else 1
  }

  ghost predicate AllAsAlone(y: System, y0: System, inputs: Inputs, turns: seq<nat>) {
    && |y.tasks| == |y0.tasks| == |turns|
    && (forall t: nat :: t in Threads(y.sched) ==> t < |y.tasks|)
    && forall id :: 0 <= id < |turns| ==> AsAlone(y, y0, id, inputs(id), turns[id])
  }

  lemma SchedulerPart(s: State<nat>, es: seq<Event<nat>>)
    requires Busy(s) && |es| <= 1 && CanRun(s, es)
    ensures Busy(Run(s, es)) || Idle(Run(s, es))
    ensures Threads(s) == Threads(Run(s, es)) + if es != [] && es[0].Exit? then multiset{Running(s)} else multiset{}
  {
    if es != [] {
      EventKeepsThreads(s, es[0]);
      assert es[1..] == [];
      assert CanRun(s, es) && Run(s, es) == Run(Next(s, es[0]), []);
    }
  }

  lemma OwnTurn(y: System, y0: System, c: Choice, inputs: Inputs, n: nat)
    requires Ready(y) && MayTurn(y, c, inputs) && |y0.tasks| == |y.tasks|
    requires AsAlone(y, y0, Running(y.sched), inputs(Running(y.sched)), n)
    ensures AsAlone(Turn(y, c, inputs), y0, Running(y.sched), inputs(Running(y.sched)), n + 1)
  {
    hide NextSegment;
    var id := Running(y.sched);
    var g := NextSegment(y.tasks[id], inputs(id));
    SchedulerPart(y.sched, EventOf(g.entry, c));
    PrintsAddUp(y.printed, id, id, g.out);
    assert Threads(y.sched)[id] > 0;
  }

  lemma OthersTurn(y: System, y0: System, c: Choice, inputs: Inputs, id: nat, n: nat)
    requires Ready(y) && MayTurn(y, c, inputs) && |y0.tasks| == |y.tasks|
    requires id < |y.tasks| && id != Running(y.sched) && AsAlone(y, y0, id, inputs(id), n)
    ensures AsAlone(Turn(y, c, inputs), y0, id, inputs(id), n)
  {
    hide NextSegment, Alone;
    var g := NextSegment(y.tasks[Running(y.sched)], inputs(Running(y.sched)));
    SchedulerPart(y.sched, EventOf(g.entry, c));
    PrintsAddUp(y.printed, id, Running(y.sched), g.out);
  }

  lemma TurnKeepsNames(y: System, c: Choice, inputs: Inputs)
    requires MayTurn(y, c, inputs)
    ensures Ready(y) && |Turn(y, c, inputs).tasks| == |y.tasks|
    ensures Threads(Turn(y, c, inputs).sched) <= Threads(y.sched)
    ensures Busy(Turn(y, c, inputs).sched) || Idle(Turn(y, c, inputs).sched)
  {
    hide NextSegment;
    var id := Running(y.sched);
    SchedulerPart(y.sched, EventOf(NextSegment(y.tasks[id], inputs(id)).entry, c));
  }

  lemma TurnKeepsAlone(y: System, y0: System, c: Choice, inputs: Inputs, turns: seq<nat>)
    requires AllAsAlone(y, y0, inputs, turns) && MayTurn(y, c, inputs)
    ensures var id := Running(y.sched);
      id < |turns| && AllAsAlone(Turn(y, c, inputs), y0, inputs, turns[id := turns[id] + 1])
    ensures Busy(Turn(y, c, inputs).sched) || Idle(Turn(y, c, inputs).sched)
  {
    hide AsAlone, NextSegment, Turn, MayTurn, Run, CanRun;
    TurnKeepsNames(y, c, inputs);
    var id := Running(y.sched);
    forall k | 0 <= k < |turns|
      ensures AsAlone(Turn(y, c, inputs), y0, k, inputs(k), turns[id := turns[id] + 1][k])
    {
      if k == id { OwnTurn(y, y0, c, inputs, turns[id]); } else { OthersTurn(y, y0, c, inputs, k, turns[k]); }
    }
  }

  lemma {:induction false} RunKeepsAlone(y: System, y0: System, cs: seq<Choice>, inputs: Inputs, turns: seq<nat>) returns (turns': seq<nat>)
    requires AllAsAlone(y, y0, inputs, turns) && MayRun(y, cs, inputs) && (Busy(y.sched) || Idle(y.sched))
    ensures AllAsAlone(RunAll(y, cs, inputs), y0, inputs, turns')
    ensures Busy(RunAll(y, cs, inputs).sched) || Idle(RunAll(y, cs, inputs).sched)
    decreases |cs|
  {
    hide AllAsAlone, Turn, NextSegment;
    if cs == [] {
      turns' := turns;
    } else {
      TurnKeepsAlone(y, y0, cs[0], inputs, turns);
      var id := Running(y.sched);
      turns' := RunKeepsAlone(Turn(y, cs[0], inputs), y0, cs[1..], inputs, turns[id := turns[id] + 1]);
    }
  }

  /** All threads are created, none has run. */
  ghost predicate Starts(y: System) {
    && Busy(y.sched) && y.printed == []
    && (forall t: nat :: t in Threads(y.sched) <==> t < |y.tasks|) && Once(Threads(y.sched))
  }

  /** Any threads can be started. */
  lemma AnyThreadsStart(tasks: seq<Task>) returns (y: System)
    requires tasks != []
    ensures Starts(y) && y.tasks == tasks && y.sched.waiting == []
  {
    var n := |tasks|;
    var ready: seq<nat> := seq(n, i => i);
    y := System(State(ready, 0, []), tasks, []);
    forall t: nat
      ensures Threads(y.sched)[t] == if t < n then 1 else 0
    {
      OfAllNumbers(n, t);
    }
    assert forall t: nat :: t in Threads(y.sched) <==> Threads(y.sched)[t] > 0;
  }

  lemma {:induction false} OfAllNumbers(n: nat, t: nat)
    ensures multiset(seq<nat>(n, i => i))[t] == if t < n then 1 else 0
  {
    if n > 0 {
      OfAllNumbers(n - 1, t);
      assert seq<nat>(n, i => i) == seq<nat>(n - 1, i => i) + [n - 1];
    }
  }

  /** Whatever signal is pending and whatever the first select finds, the turn can be
      made, if the blocking select comes back with somebody. */
  lemma TurnsArePossible(y: System, interrupted: bool, awake: set<nat>, inputs: Inputs) returns (late: set<nat>)
    requires Ready(y)
    ensures MayTurn(y, Choice(interrupted, awake, late), inputs)
  {
    hide NextSegment;
    late := set t | t in y.sched.waiting + [Running(y.sched)];
    var es := EventOf(ThisSegment(y, inputs).entry, Choice(interrupted, awake, late));
    if es != [] {
      assert es[1..] == [] && CanRun(Next(y.sched, es[0]), []);
      AnyoneComes(y.sched, awake, late);
    }
  }

  lemma AnyoneComes(s: State<nat>, awake: set<nat>, late: set<nat>)
    requires Busy(s) && forall t :: t in s.waiting || t == Running(s) ==> t in late
    ensures Comes(Parked(s, awake), late) && Comes(Left(s, awake), late)
  {
    hide Parked, Left;
    var d, e := Parked(s, awake), Left(s, awake);
    if d.waiting != [] {
      RemovalWaiters(s, awake, d.waiting[0]);
      assert d.waiting[0] in d.waiting;
    }
    if e.waiting != [] {
      RemovalWaiters(s, awake, e.waiting[0]);
      assert e.waiting[0] in e.waiting;
    }
  }

  lemma StartIsAlone(y: System, inputs: Inputs) returns (turns: seq<nat>)
    requires Starts(y)
    ensures AllAsAlone(y, y, inputs, turns)
  {
    turns := seq(|y.tasks|, _ => 0);
    forall id | 0 <= id < |turns|
      ensures AsAlone(y, y, id, inputs(id), turns[id])
    {
      assert id in Threads(y.sched);
    }
  }

  // ----- when a thread gives the processor up -----

  /** The segment the running thread is about to make. */
  function ThisSegment(y: System, inputs: Inputs): Segment
    requires Ready(y)
  {
    NextSegment(y.tasks[Running(y.sched)], inputs(Running(y.sched)))
  }

  /** A turn that ends at a read leaves its thread waiting, not ready; only if no other
      is ready can the blocking select have found its input already. */
  lemma ReadGivesUp(y: System, c: Choice, inputs: Inputs)
    requires Ready(y) && Once(Threads(y.sched)) && ThisSegment(y, inputs).entry.AtRead?
    ensures var id, s := Running(y.sched), Turn(y, c, inputs).sched;
      && (id in s.waiting <==> id !in s.ready)
      && (id in s.ready ==> |y.sched.ready| == 1 && id in c.late)
      && (|y.sched.ready| > 1 ==> Busy(s) && Running(s) != id)
  {
    hide NextSegment, Next, Threads;
    var e := Read(c.awake, c.late);
    assert [e][1..] == [] && Run(y.sched, [e]) == Next(y.sched, e);
    ReaderWaits(y.sched, e);
    if |y.sched.ready| > 1 {
      RemovalTurnsTo(y.sched, e);
    }
  }

  /** A turn that ends at a yield with a signal pending passes the processor on. */
  lemma SignalPassesOn(y: System, c: Choice, inputs: Inputs)
    requires Ready(y) && ThisSegment(y, inputs).entry.AtYield? && c.interrupted
    ensures var s, s' := y.sched, Turn(y, c, inputs).sched;
      && Busy(s')
      && (s.cur + 1 < |s.ready| ==> Running(s') == s.ready[s.cur + 1])
      && (s.cur + 1 == |s.ready| && (forall t :: t in s.waiting ==> t !in c.awake) ==> Running(s') == s.ready[0])
      && (s.cur + 1 == |s.ready| && (exists t :: t in s.waiting && t in c.awake) ==> Running(s') in s.waiting && Running(s') in c.awake)
  {
    hide NextSegment, Next;
    var e := Interrupt(c.awake);
    assert [e][1..] == [] && Run(y.sched, [e]) == Next(y.sched, e);
    InterruptTurnsTo(y.sched, c.awake);
  }

  /** Without a signal the thread just goes on. */
  lemma NoSignalGoesOn(y: System, c: Choice, inputs: Inputs)
    requires Ready(y) && ThisSegment(y, inputs).entry.AtYield? && !c.interrupted
    ensures Turn(y, c, inputs).sched == y.sched
  {
    hide NextSegment;
  }

  /** A turn that ends in an exit takes its thread out of both queues. */
  lemma ExitLeaves(y: System, c: Choice, inputs: Inputs)
    requires MayTurn(y, c, inputs) && Once(Threads(y.sched)) && ThisSegment(y, inputs).entry.AtExit?
    ensures var id, s := Running(y.sched), Turn(y, c, inputs).sched;
      id !in s.ready && id !in s.waiting
  {
    hide NextSegment;
    var id := Running(y.sched);
    SchedulerPart(y.sched, EventOf(ThisSegment(y, inputs).entry, c));
    var s := Turn(y, c, inputs).sched;
    assert Threads(y.sched)[id] == 1 && Threads(s)[id] == 0;
    assert id in s.ready ==> id in multiset(s.ready);
    assert id in s.waiting ==> id in multiset(s.waiting);
  }

  /** A waiting thread goes on only when a select has found its input: in a turn that
      does not begin with it ready, it gets ready only through awake or late. */
  lemma OnlyInputWakes(y: System, c: Choice, inputs: Inputs, t: nat)
    requires Ready(y) && t !in y.sched.ready && t in Turn(y, c, inputs).sched.ready
    ensures t in y.sched.waiting && (t in c.awake || t in c.late)
  {
    hide NextSegment, Next;
    var es := EventOf(ThisSegment(y, inputs).entry, c);
    if es != [] {
      assert es[1..] == [] && Run(y.sched, es) == Next(y.sched, es[0]);
      OnlyFoundThreadsWake(y.sched, es[0], t);
    }
  }

  /** Every scheduler entry wakes the waiting threads whose input the first select
      finds. */
  lemma InputWakes(y: System, c: Choice, inputs: Inputs, t: nat)
    requires Ready(y) && t in y.sched.waiting && t in c.awake
    requires ThisSegment(y, inputs).entry.AtYield? ==> c.interrupted
    ensures t in Turn(y, c, inputs).sched.ready
  {
    hide NextSegment, Next;
    var es := EventOf(ThisSegment(y, inputs).entry, c);
    assert es[1..] == [] && Run(y.sched, es) == Next(y.sched, es[0]);
    FoundThreadsAreReady(y.sched, es[0], t);
  }

  // ----- who waits -----

  /** The waiting queue holds only threads that have come to a read. */
  ghost predicate WaitersRead(y: System) {
    forall k :: 0 <= k < |y.sched.waiting| ==> y.sched.waiting[k] < |y.tasks| && y.tasks[y.sched.waiting[k]].reading
  }

  lemma {:induction false} StillAmong(waiting: seq<nat>, awake: set<nat>)
    ensures forall t :: t in Still(waiting, awake) ==> t in waiting
  {
    if waiting != [] {
      StillAmong(waiting[..|waiting| - 1], awake);
    }
  }

  /** Only a thread that reads joins the waiting queue. */
  lemma WaitersAfter(s: State<nat>, e: Event<nat>, t: nat)
    requires Busy(s) && t in Next(s, e).waiting
    ensures t in s.waiting || (e.Read? && t == Running(s))
  {
    StillAmong(s.waiting, e.awake);
    if e.Read? {
      StillAmong(Parked(s, e.awake).waiting, e.late);
    } else if e.Exit? {
      StillAmong(Left(s, e.awake).waiting, e.late);
    }
  }

  lemma WaitersAfterRun(s: State<nat>, es: seq<Event<nat>>, t: nat)
    requires Busy(s) && |es| <= 1 && t in Run(s, es).waiting
    ensures t in s.waiting || (|es| == 1 && es[0].Read? && t == Running(s))
  {
    hide Next;
    if es != [] {
      assert es[1..] == [] && Run(s, es) == Next(s, es[0]);
      WaitersAfter(s, es[0], t);
    }
  }

  lemma RunningDoesNotWait(y: System, y0: System, inputs: Inputs, turns: seq<nat>)
    requires AllAsAlone(y, y0, inputs, turns) && Ready(y)
    ensures Running(y.sched) !in y.sched.waiting
  {
    var id := Running(y.sched);
    assert AsAlone(y, y0, id, inputs(id), turns[id]);
    assert Threads(y.sched)[id] <= 1;
  }

  lemma TurnKeepsWaiters(y: System, y0: System, c: Choice, inputs: Inputs, turns: seq<nat>)
    requires AllAsAlone(y, y0, inputs, turns) && MayTurn(y, c, inputs) && WaitersRead(y)
    ensures WaitersRead(Turn(y, c, inputs))
  {
    hide AllAsAlone, Run, Next;
    RunningDoesNotWait(y, y0, inputs, turns);
    var id := Running(y.sched);
    var g := NextSegment(y.tasks[id], inputs(id));
    var y' := Turn(y, c, inputs);
    forall k | 0 <= k < |y'.sched.waiting|
      ensures y'.sched.waiting[k] < |y'.tasks| && y'.tasks[y'.sched.waiting[k]].reading
    {
      WaitersAfterRun(y.sched, EventOf(g.entry, c), y'.sched.waiting[k]);
    }
  }

  lemma {:induction false} RunKeepsWaiters(y: System, y0: System, cs: seq<Choice>, inputs: Inputs, turns: seq<nat>)
    requires AllAsAlone(y, y0, inputs, turns) && MayRun(y, cs, inputs) && WaitersRead(y)
    ensures WaitersRead(RunAll(y, cs, inputs))
    decreases |cs|
  {
    hide AllAsAlone, Turn, NextSegment, WaitersRead;
    if cs != [] {
      TurnKeepsAlone(y, y0, cs[0], inputs, turns);
      TurnKeepsWaiters(y, y0, cs[0], inputs, turns);
      var id := Running(y.sched);
      RunKeepsWaiters(Turn(y, cs[0], inputs), y0, cs[1..], inputs, turns[id := turns[id] + 1]);
    }
  }

  /** In every run a waiting thread is one in the middle of a read. */
  lemma OnlyReadersWait(y: System, cs: seq<Choice>, inputs: Inputs, k: nat)
    requires Starts(y) && y.sched.waiting == [] && MayRun(y, cs, inputs)
    requires k < |RunAll(y, cs, inputs).sched.waiting|
    ensures var y' := RunAll(y, cs, inputs); var id := y'.sched.waiting[k];
      id < |y'.tasks| && y'.tasks[id].reading
  {
    var turns := StartIsAlone(y, inputs);
    RunKeepsWaiters(y, y, cs, inputs, turns);
  }

  /** Whatever the interrupts and the wake-ups, what a thread has printed is what it
      prints running alone for some number of segments. */
  lemma PreemptionIsInvisible(y: System, cs: seq<Choice>, inputs: Inputs, id: nat) returns (n: nat)
    requires Starts(y) && MayRun(y, cs, inputs) && id < |y.tasks|
    ensures PrintedBy(RunAll(y, cs, inputs).printed, id) == Alone(y.tasks[id], inputs(id), n).out
    ensures Threads(RunAll(y, cs, inputs).sched)[id] == if Alone(y.tasks[id], inputs(id), n).over then 0 else 1
  {
    var turns := StartIsAlone(y, inputs);
    var turns' := RunKeepsAlone(y, y, cs, inputs, turns);
    n := turns'[id];
    assert AsAlone(RunAll(y, cs, inputs), y, id, inputs(id), n);
  }

  /** So two runs on the same inputs never disagree about a thread: what it prints
      in one is a prefix of what it prints in the other. */
  lemma RunsNeverDisagree(y: System, one: seq<Choice>, two: seq<Choice>, inputs: Inputs, id: nat)
    requires Starts(y) && MayRun(y, one, inputs) && MayRun(y, two, inputs) && id < |y.tasks|
    ensures var a, b := PrintedBy(RunAll(y, one, inputs).printed, id), PrintedBy(RunAll(y, two, inputs).printed, id);
      a <= b || b <= a
  {
    var n := PreemptionIsInvisible(y, one, inputs, id);
    var m := PreemptionIsInvisible(y, two, inputs, id);
    if n <= m { AloneGrows(y.tasks[id], inputs(id), n, m); } else { AloneGrows(y.tasks[id], inputs(id), m, n); }
  }

  /** The scheduler returns only when every thread has printed all it prints alone. */
  lemma ReturnsWhenAllAreDone(y: System, cs: seq<Choice>, inputs: Inputs, id: nat) returns (n: nat)
    requires Starts(y) && MayRun(y, cs, inputs) && id < |y.tasks| && Idle(RunAll(y, cs, inputs).sched)
    ensures Alone(y.tasks[id], inputs(id), n).over
    ensures PrintedBy(RunAll(y, cs, inputs).printed, id) == Alone(y.tasks[id], inputs(id), n).out
  {
    n := PreemptionIsInvisible(y, cs, inputs, id);
    assert Threads(RunAll(y, cs, inputs).sched) == multiset{};
  }

  /** In every run the numbers printed by a fibonacci thread are the first Fibonacci
      numbers, arg of them when the scheduler returns. */
  lemma FibonacciUnderScheduler(y: System, cs: seq<Choice>, inputs: Inputs, id: nat, arg: nat)
    requires Starts(y) && MayRun(y, cs, inputs) && id < |y.tasks| && y.tasks[id] == Task(Fibonacci, Fresh(arg), false)
    ensures var out := PrintedBy(RunAll(y, cs, inputs).printed, id);
      out == Fibs(|out|) && (Idle(RunAll(y, cs, inputs).sched) ==> |out| == arg)
  {
    var n := PreemptionIsInvisible(y, cs, inputs, id);
    FibonacciPrints(arg, inputs(id), n);
    if Idle(RunAll(y, cs, inputs).sched) {
      assert Threads(RunAll(y, cs, inputs).sched) == multiset{};
    }
  }

  /** In every run a collatz thread has printed the beginning of the orbit of its
      argument, up to the first 1 when the scheduler returns. */
  lemma CollatzUnderScheduler(y: System, cs: seq<Choice>, inputs: Inputs, id: nat, arg: int)
    requires Starts(y) && MayRun(y, cs, inputs) && id < |y.tasks| && y.tasks[id] == Task(Collatz, Fresh(arg), false)
    ensures var out := PrintedBy(RunAll(y, cs, inputs).printed, id);
      && (forall k :: 0 <= k < |out| ==> out[k] == CollatzOf(arg, k + 1))
      && (forall k :: 0 <= k < |out| - 1 ==> out[k] != 1)
      && (Idle(RunAll(y, cs, inputs).sched) ==> out != [] && out[|out| - 1] == 1)
  {
    var n := PreemptionIsInvisible(y, cs, inputs, id);
    CollatzPrints(arg, inputs(id), n);
    if Idle(RunAll(y, cs, inputs).sched) {
      assert Threads(RunAll(y, cs, inputs).sched) == multiset{};
    }
  }

  /** In every run the k-th number printed by a max_subarray thread is the maximum
      over the first k numbers it has read. */
  lemma MaxSubarrayUnderScheduler(y: System, cs: seq<Choice>, inputs: Inputs, id: nat, arg: nat, k: nat)
    requires Starts(y) && MayRun(y, cs, inputs) && id < |y.tasks| && y.tasks[id] == Task(MaxSubarray, Fresh(arg), false)
    requires k < |PrintedBy(RunAll(y, cs, inputs).printed, id)|
    ensures IsMax(inputs(id), k + 1, PrintedBy(RunAll(y, cs, inputs).printed, id)[k])
  {
    var n := PreemptionIsInvisible(y, cs, inputs, id);
    MaxSubarrayPrints(arg, inputs(id), n);
    AloneGrows(y.tasks[id], inputs(id), n, 2 * n);
  }
}
