/** The three thread functions.  A thread keeps its variables in its control block,
    so one iteration of its loop is a function of that block; between iterations
    the thread enters the scheduler. */
module ThreadBodies {

  datatype Body = Fibonacci | Collatz | MaxSubarray

  /** The variables of a control block.  Set-up leaves all but arg at 0; the loop
      counter goes up as an iteration begins. */
  datatype Locals = Locals(arg: int, i: nat, x: int, y: int, sum: int)

  function Fresh(arg: int): Locals { Locals(arg, 0, 0, 0, 0) }

  function FibonacciStep(l: Locals): Locals {
    var i := l.i + 1;
    if i <= 2 then l.(i := i, x := 1, y := 1) else l.(i := i, x := l.y, y := l.x + l.y)
  }

  function CollatzStep(l: Locals): Locals {
    var i := l.i + 1;
    var x := if i == 1 then l.arg else l.x;
    l.(i := i, x := if x % 2 == 0 then x / 2 else 3 * x + 1)
  }

  /** The part of an iteration after the read; v is the number read. */
  function MaxSubarrayStep(l: Locals, v: int): Locals {
    var y := if v < v + l.y then l.y + v else v;
    l.(x := v, y := y, sum := if y > l.sum then y else l.sum)
  }

  /** A control block as the imperative code changes it. */
  class Tcb {
    const id: int
    const arg: int
    const fd: int
    var i: nat
    var x: int
    var y: int
    var sum: int

    constructor (id: int, arg: int, fd: int)
      ensures this.id == id && this.fd == fd && Saved() == Fresh(arg)
    {
      this.id, this.arg, this.fd := id, arg, fd;
      i, x, y, sum := 0, 0, 0, 0;
    }

    function Saved(): Locals
      reads this
    {
      Locals(arg, i, x, y, sum)
    }

    method FibonacciIteration() returns (printed: int, ends: bool)
      modifies this
      ensures Saved() == FibonacciStep(old(Saved()))
      ensures printed == y && (ends <==> i == arg)
    {
      i := i + 1;
      if i <= 2 {
        y := 1;
        x := y;
      } else {
        var tmp := y;
        y := x + y;
        x := tmp;
      }
      printed := y;
      ends := i == arg;
    }

    method CollatzIteration() returns (printed: int, ends: bool)
      modifies this
      ensures Saved() == CollatzStep(old(Saved()))
      ensures printed == x && (ends <==> x == 1)
    {
      i := i + 1;
      if i == 1 {
        x := arg;
      }
      if x % 2 == 0 {
        x := x / 2;
      } else {
        x := x * 3;
        x := x + 1;
      }
      printed := x;
      ends := x == 1;
    }

    method MaxSubarrayIteration(v: int) returns (printed: int, ends: bool)
      modifies this
      ensures Saved() == MaxSubarrayStep(old(Saved()), v)
      ensures printed == sum && (ends <==> i == arg)
    {
      x := v;
      if x < x + y {
        y := y + x;
      } else {
        y := x;
      }
      if y > sum {
        sum := y;
      }
      printed := sum;
      ends := i == arg;
    }
  }

  // ----- one thread up to its next entry of the scheduler -----

  /** A thread; reading says that it will go on after its read. */
  datatype Task = Task(body: Body, locals: Locals, reading: bool)

  datatype Entry = AtYield | AtRead | AtExit

  datatype Segment = Segment(task: Task, out: seq<int>, entry: Entry)

  function NextSegment(t: Task, input: nat -> int): Segment {
    match t.body
    case Fibonacci =>
      var l := FibonacciStep(t.locals);
      Segment(t.(locals := l), [l.y], if l.i == l.arg then AtExit else AtYield)
    case Collatz =>
      var l := CollatzStep(t.locals);
      Segment(t.(locals := l), [l.x], if l.x == 1 then AtExit else AtYield)
    case MaxSubarray =>
      if t.reading then
        var l := MaxSubarrayStep(t.locals, input(t.locals.i));
        Segment(t.(locals := l, reading := false), [l.sum], if l.i == l.arg then AtExit else AtYield)
      else
        Segment(t.(locals := t.locals.(i := t.locals.i + 1), reading := true), [], AtRead)
  }

  /** Only a max_subarray thread at the top of its loop ends a segment at a read, and
      prints nothing before it; every other segment prints one number. */
  lemma SegmentShape(t: Task, input: nat -> int)
    ensures var g := NextSegment(t, input);
      && (g.entry.AtRead? <==> t.body.MaxSubarray? && !t.reading)
      && (g.entry.AtRead? ==> g.task.reading && g.out == [])
      && (!g.entry.AtRead? ==> |g.out| == 1 && (t.body.MaxSubarray? || t.reading == g.task.reading))
  {
  }

  /** A thread running by itself: what it has printed and whether it has exited. */
  datatype Solo = Solo(task: Task, out: seq<int>, over: bool)

  function SoloStep(s: Solo, input: nat -> int): Solo {
    if s.over then s
    else
      var g := NextSegment(s.task, input);
      Solo(g.task, s.out + g.out, g.entry.AtExit?)
  }

  function Alone(t: Task, input: nat -> int, n: nat): Solo {
    if n == 0 then Solo(t, [], false) else SoloStep(Alone(t, input, n - 1), input)
  }

  /** More segments only add to the output, and none follows an exit. */
  lemma {:induction false} AloneGrows(t: Task, input: nat -> int, n: nat, m: nat)
    requires n <= m
    ensures Alone(t, input, n).out <= Alone(t, input, m).out
    ensures Alone(t, input, n).over ==> Alone(t, input, m) == Alone(t, input, n)
    decreases m
  {
    if n < m {
      AloneGrows(t, input, n, m - 1);
    }
  }

  // ----- fibonacci -----

  function Fib(k: nat): nat {
    if k == 0 then 0 else if k == 1 then 1 else Fib(k - 1) + Fib(k - 2)
  }

  function Fibs(n: nat): (fs: seq<int>)
    ensures |fs| == n && forall k :: 0 <= k < n ==> fs[k] == Fib(k + 1)
  {
    if n == 0 then [] else Fibs(n - 1) + [Fib(n)]
  }

  /** A thread that has printed m Fibonacci numbers. */
  ghost predicate FibonacciAt(s: Solo, arg: nat, m: nat) {
    && s.out == Fibs(m) && s.task.body == Fibonacci && s.task.locals.i == m && s.task.locals.arg == arg
    && s.task.locals.y == Fib(m) && s.task.locals.x == if m <= 1 then m else Fib(m - 1)
  }

  lemma FibonacciIterates(s: Solo, arg: nat, m: nat, input: nat -> int)
    requires FibonacciAt(s, arg, m) && !s.over
    ensures var s' := SoloStep(s, input); FibonacciAt(s', arg, m + 1) && (s'.over <==> m + 1 == arg)
  {
    hide Fib;
    FibAt(m);
  }

  lemma FibAt(m: nat)
    ensures Fib(0) == 0 && Fib(1) == 1 && Fib(2) == 1
    ensures m >= 2 ==> Fib(m + 1) == Fib(m - 1) + Fib(m)
  {
    assert Fib(2) == Fib(1) + Fib(0);
  }

  /** The k-th number printed is the k-th Fibonacci number, and the thread exits
      after arg of them; with arg 0 it never does. */
  lemma {:induction false} FibonacciPrints(arg: nat, input: nat -> int, n: nat)
    ensures var s := Alone(Task(Fibonacci, Fresh(arg), false), input, n);
      FibonacciAt(s, arg, if 1 <= arg < n then arg else n) && (s.over <==> 1 <= arg <= n)
  {
    hide FibonacciAt, SoloStep;
    if n == 0 {
      FibonacciBegins(arg);
    } else {
      FibonacciPrints(arg, input, n - 1);
      var s := Alone(Task(Fibonacci, Fresh(arg), false), input, n - 1);
      if s.over {
        AloneGrows(Task(Fibonacci, Fresh(arg), false), input, n - 1, n);
      } else {
        FibonacciIterates(s, arg, n - 1, input);
      }
    }
  }

  lemma FibonacciBegins(arg: nat)
    ensures FibonacciAt(Solo(Task(Fibonacci, Fresh(arg), false), [], false), arg, 0)
  {
    FibAt(0);
  }

  // ----- collatz -----

  function CollatzOf(arg: int, k: nat): int {
    if k == 0 then arg
    else
      var x := CollatzOf(arg, k - 1);
      if x % 2 == 0 then x / 2 else 3 * x + 1
  }

  /** A thread that has printed m numbers of the orbit, none of them 1 but perhaps the
      last. */
  ghost predicate CollatzAt(s: Solo, arg: int, m: nat) {
    && s.task.body == Collatz && s.task.locals.arg == arg && |s.out| == s.task.locals.i == m
    && (forall k :: 0 <= k < m ==> s.out[k] == CollatzOf(arg, k + 1))
    && (forall k :: 0 <= k < m ==> (s.out[k] == 1 <==> s.over && k == m - 1))
    && (m >= 1 ==> s.task.locals.x == CollatzOf(arg, m))
    && (s.over ==> m >= 1)
  }

  lemma CollatzIterates(s: Solo, arg: int, m: nat, input: nat -> int)
    requires CollatzAt(s, arg, m) && !s.over
    ensures CollatzAt(SoloStep(s, input), arg, m + 1)
  {
    hide CollatzOf;
    CollatzNext(arg, m);
  }

  lemma CollatzNext(arg: int, m: nat)
    ensures CollatzOf(arg, 0) == arg
    ensures var x := CollatzOf(arg, m); CollatzOf(arg, m + 1) == if x % 2 == 0 then x / 2 else 3 * x + 1
  {
  }

  /** Each number of an orbit is half of an even one before it, or three times an odd
      one and one more. */
  lemma OrbitLaw(arg: int, k: nat)
    ensures CollatzOf(arg, 0) == arg
    ensures var x, x' := CollatzOf(arg, k), CollatzOf(arg, k + 1);
      if x % 2 == 0 then x' + x' == x else x' == x + x + x + 1
  {
  }

  /** The thread prints the orbit of arg and exits when it first prints 1. */
  lemma {:induction false} CollatzPrints(arg: int, input: nat -> int, n: nat)
    ensures var s := Alone(Task(Collatz, Fresh(arg), false), input, n);
      CollatzAt(s, arg, |s.out|) && |s.out| <= n && (!s.over ==> |s.out| == n)
  {
    hide CollatzAt, SoloStep;
    var t := Task(Collatz, Fresh(arg), false);
    if n == 0 {
      CollatzBegins(arg);
    } else {
      CollatzPrints(arg, input, n - 1);
      var s := Alone(t, input, n - 1);
      if s.over {
        AloneGrows(t, input, n - 1, n);
      } else {
        CollatzIterates(s, arg, n - 1, input);
        PrintedSoFar(SoloStep(s, input), arg, n);
      }
    }
  }

  lemma PrintedSoFar(s: Solo, arg: int, m: nat)
    requires CollatzAt(s, arg, m)
    ensures |s.out| == m
  {
  }

  lemma CollatzBegins(arg: int)
    ensures CollatzAt(Solo(Task(Collatz, Fresh(arg), false), [], false), arg, 0)
  {
  }

  // ----- maximum subarray -----

  function Sum(input: nat -> int, i: nat, j: nat): int
    requires i <= j
    decreases j
  {
    if i == j then 0 else Sum(input, i, j - 1) + input(j)
  }

  /** m is the largest sum of consecutive numbers among the first k; the numbers
      are counted from 1, and no number at all has sum 0. */
  ghost predicate IsMax(input: nat -> int, k: nat, m: int) {
    && (exists i: nat, j: nat :: i <= j <= k && Sum(input, i, j) == m)
    && (forall i: nat, j: nat :: i <= j <= k ==> Sum(input, i, j) <= m)
  }

  /** y is the largest sum of consecutive numbers that end with the k-th. */
  ghost predicate IsBestEnding(input: nat -> int, k: nat, y: int) {
    if k == 0 then y == 0
    else
      && (exists i: nat :: i < k && Sum(input, i, k) == y)
      && (forall i: nat :: i < k ==> Sum(input, i, k) <= y)
  }

  lemma BestEndingGrows(input: nat -> int, k: nat, y: int)
    requires IsBestEnding(input, k, y)
    ensures var v := input(k + 1); IsBestEnding(input, k + 1, if v < v + y then y + v else v)
  {
    var v := input(k + 1);
    var y' := if v < v + y then y + v else v;
    assert Sum(input, k, k + 1) == Sum(input, k, k) + v == v;
    if y > 0 {
      var i: nat :| i < k && Sum(input, i, k) == y;
      assert Sum(input, i, k + 1) == y + v;
    }
    var end := k + 1;
    forall i: nat | i < end
      ensures Sum(input, i, end) <= y'
    {
      assert i < k ==> Sum(input, i, k) <= y;
    }
  }

  lemma MaxGrows(input: nat -> int, k: nat, y: int, m: int)
    requires IsBestEnding(input, k + 1, y) && IsMax(input, k, m)
    ensures IsMax(input, k + 1, if y > m then y else m)
  {
    var m' := if y > m then y else m;
    if y > m {
      var i: nat :| i < k + 1 && Sum(input, i, k + 1) == y;
    } else {
      var i: nat, j: nat :| i <= j <= k && Sum(input, i, j) == m;
    }
    assert Sum(input, 0, 0) <= m;
    forall i: nat, j: nat | i <= j <= k + 1
      ensures Sum(input, i, j) <= m'
    {
      if j == k + 1 && i == j {
        assert Sum(input, i, j) == 0;
      }
    }
  }

  /** A thread that has read n numbers and printed n maxima. */
  ghost predicate MaxSubarrayAt(s: Solo, arg: nat, n: nat, input: nat -> int) {
    && |s.out| == n && (forall k :: 0 <= k < n ==> IsMax(input, k + 1, s.out[k]))
    && s.task.body == MaxSubarray && !s.task.reading && s.task.locals.i == n && s.task.locals.arg == arg
    && IsBestEnding(input, n, s.task.locals.y) && IsMax(input, n, s.task.locals.sum)
  }

  lemma MaxSubarrayIterates(s: Solo, arg: nat, n: nat, input: nat -> int)
    requires MaxSubarrayAt(s, arg, n, input) && !s.over
    ensures var s' := SoloStep(SoloStep(s, input), input);
      MaxSubarrayAt(s', arg, n + 1, input) && (s'.over <==> n + 1 == arg)
  {
    hide IsMax, IsBestEnding;
    var y, v := s.task.locals.y, input(n + 1);
    BestEndingGrows(input, n, y);
    MaxGrows(input, n, if v < v + y then y + v else v, s.task.locals.sum);
  }

  /** The k-th number printed is the maximum over the first k numbers read, and the
      thread exits after arg of them; with arg 0 it never does.  Each number takes
      two segments, up to the read and from it. */
  lemma {:induction false} MaxSubarrayPrints(arg: nat, input: nat -> int, n: nat)
    ensures var s := Alone(Task(MaxSubarray, Fresh(arg), false), input, 2 * n);
      MaxSubarrayAt(s, arg, if 1 <= arg < n then arg else n, input) && (s.over <==> 1 <= arg <= n)
  {
    hide MaxSubarrayAt, SoloStep, Alone;
    var t := Task(MaxSubarray, Fresh(arg), false);
    if n == 0 {
      MaxSubarrayBegins(arg, input);
    } else {
      MaxSubarrayPrints(arg, input, n - 1);
      var s := Alone(t, input, 2 * (n - 1));
      if s.over {
        AloneGrows(t, input, 2 * (n - 1), 2 * n);
      } else {
        MaxSubarrayIterates(s, arg, n - 1, input);
        TwoSegments(t, input, 2 * (n - 1));
      }
    }
  }

  lemma MaxSubarrayBegins(arg: nat, input: nat -> int)
    ensures MaxSubarrayAt(Alone(Task(MaxSubarray, Fresh(arg), false), input, 0), arg, 0, input)
    ensures !Alone(Task(MaxSubarray, Fresh(arg), false), input, 0).over
  {
    assert Sum(input, 0, 0) == 0;
  }

  lemma TwoSegments(t: Task, input: nat -> int, n: nat)
    ensures Alone(t, input, n + 2) == SoloStep(SoloStep(Alone(t, input, n), input), input)
  {
    assert Alone(t, input, n + 1) == SoloStep(Alone(t, input, n), input);
  }
}
