/** The two queues of the user-level thread library and what the scheduler does to
    them on each of its three entries: an interrupt, a blocking read, an exit. */
module SchedulerQueues {

  /** The ready threads, the index of the running one, and the waiting threads. */
  datatype State<T> = State(ready: seq<T>, cur: nat, waiting: seq<T>)

  /** An entry of the scheduler with the threads that its selects find readable:
      awake by the polling one at the start, late by the blocking one, which is
      reached only when no thread is ready. */
  datatype Event<T> =
    | Interrupt(awake: set<T>)
    | Read(awake: set<T>, late: set<T>)
    | Exit(awake: set<T>, late: set<T>)

  function Woken<T(==)>(waiting: seq<T>, awake: set<T>): seq<T> {
    if waiting == [] then []
    else
      var rest := Woken(waiting[..|waiting| - 1], awake);
      if waiting[|waiting| - 1] in awake then rest + [waiting[|waiting| - 1]] else rest
  }

  function Still<T(==)>(waiting: seq<T>, awake: set<T>): (r: seq<T>)
    ensures |r| <= |waiting|
  {
    if waiting == [] then []
    else
      var rest := Still(waiting[..|waiting| - 1], awake);
      if waiting[|waiting| - 1] in awake then rest else rest + [waiting[|waiting| - 1]]
  }

  /** Woken threads move to the end of the ready queue; the others close ranks. */
  function Reorder<T(==)>(s: State<T>, awake: set<T>): State<T> {
    State(s.ready + Woken(s.waiting, awake), s.cur, Still(s.waiting, awake))
  }

  /** Take the running thread out.  The last ready thread fills its place and runs
      next; if it was the last itself, the first one does. */
  function DropCurrent<T>(s: State<T>): State<T>
    requires s.cur < |s.ready|
  {
    var last := |s.ready| - 1;
    if s.cur == last then State(s.ready[..last], 0, s.waiting)
    else State(s.ready[s.cur := s.ready[last]][..last], s.cur, s.waiting)
  }

  function AfterInterrupt<T(==)>(s: State<T>, awake: set<T>): State<T> {
    var r := Reorder(s, awake);
    State(r.ready, if r.cur + 1 == |r.ready| then 0 else r.cur + 1, r.waiting)
  }

  /** The running thread goes to the end of the waiting queue. */
  function Parked<T(==)>(s: State<T>, awake: set<T>): State<T>
    requires s.cur < |s.ready|
  {
    var r := Reorder(s, awake);
    DropCurrent(r).(waiting := r.waiting + [s.ready[s.cur]])
  }

  function Left<T(==)>(s: State<T>, awake: set<T>): State<T>
    requires s.cur < |s.ready|
  {
    DropCurrent(Reorder(s, awake))
  }

  /** With no thread ready, the scheduler blocks until some waiting thread is. */
  function Refill<T(==)>(s: State<T>, late: set<T>): State<T> {
    if s.ready == [] && s.waiting != [] then Reorder(State([], 0, s.waiting), late) else s
  }

  function Next<T(==)>(s: State<T>, e: Event<T>): State<T>
    requires s.cur < |s.ready|
  {
    match e
    case Interrupt(awake) => AfterInterrupt(s, awake)
    case Read(awake, late) => Refill(Parked(s, awake), late)
    case Exit(awake, late) => Refill(Left(s, awake), late)
  }

  /** A blocking select comes back with at least one thread. */
  ghost predicate Comes<T>(s: State<T>, late: set<T>) {
    s.ready == [] && s.waiting != [] ==> exists t :: t in s.waiting && t in late
  }

  ghost predicate Possible<T>(s: State<T>, e: Event<T>)
    requires s.cur < |s.ready|
  {
    match e
    case Interrupt(awake) => true
    case Read(awake, late) => Comes(Parked(s, awake), late)
    case Exit(awake, late) => Comes(Left(s, awake), late)
  }

  // ----- reordering is a stable partition -----

  ghost predicate Increasing(at: seq<nat>) {
    forall i, j :: 0 <= i < j < |at| ==> at[i] < at[j]
  }

  /** The members of a list at these positions, in that order. */
  ghost predicate PickedAt<T>(part: seq<T>, whole: seq<T>, at: seq<nat>) {
    |part| == |at| && Increasing(at) && forall i :: 0 <= i < |at| ==> at[i] < |whole| && part[i] == whole[at[i]]
  }

  /** Both parts keep the waiting order, and every waiting thread goes to exactly
      the part it belongs to. */
  lemma {:induction false} ReorderIsStable<T>(waiting: seq<T>, awake: set<T>) returns (up: seq<nat>, down: seq<nat>)
    ensures PickedAt(Woken(waiting, awake), waiting, up)
    ensures PickedAt(Still(waiting, awake), waiting, down)
    ensures forall k: nat :: k < |waiting| ==> (k in up <==> waiting[k] in awake) && (k in down <==> waiting[k] !in awake)
  {
    hide PickedAt;
    if waiting == [] {
      up, down := [], [];
      NonePicked(waiting);
    } else {
      var n := |waiting| - 1;
      up, down := ReorderIsStable(waiting[..n], awake);
      Wider(Woken(waiting[..n], awake), waiting, up);
      Wider(Still(waiting[..n], awake), waiting, down);
      if waiting[n] in awake {
        OneMore(Woken(waiting[..n], awake), waiting, up);
        up := up + [n];
      } else {
        OneMore(Still(waiting[..n], awake), waiting, down);
        down := down + [n];
      }
    }
  }

  lemma NonePicked<T>(whole: seq<T>)
    ensures PickedAt([], whole, [])
  {
  }

  lemma Wider<T>(part: seq<T>, whole: seq<T>, at: seq<nat>)
    requires whole != [] && PickedAt(part, whole[..|whole| - 1], at)
    ensures PickedAt(part, whole, at) && forall i :: 0 <= i < |at| ==> at[i] < |whole| - 1
  {
  }

  lemma OneMore<T>(part: seq<T>, whole: seq<T>, at: seq<nat>)
    requires whole != [] && PickedAt(part, whole, at) && forall i :: 0 <= i < |at| ==> at[i] < |whole| - 1
    ensures PickedAt(part + [whole[|whole| - 1]], whole, at + [|whole| - 1])
  {
  }

  lemma {:induction false} ReorderPartitions<T>(waiting: seq<T>, awake: set<T>)
    ensures multiset(Woken(waiting, awake)) + multiset(Still(waiting, awake)) == multiset(waiting)
  {
    if waiting != [] {
      var n := |waiting| - 1;
      ReorderPartitions(waiting[..n], awake);
      assert waiting == waiting[..n] + [waiting[n]];
    }
  }

  lemma {:induction false} SomeoneComes<T>(waiting: seq<T>, awake: set<T>, t: T)
    requires t in waiting && t in awake
    ensures Woken(waiting, awake) != []
  {
    var n := |waiting| - 1;
    if waiting[n] != t {
      assert waiting == waiting[..n] + [waiting[n]];
      SomeoneComes(waiting[..n], awake, t);
    }
  }

  lemma {:induction false} PartsByMembership<T>(waiting: seq<T>, awake: set<T>, t: T)
    ensures t in Woken(waiting, awake) <==> t in waiting && t in awake
    ensures t in Still(waiting, awake) <==> t in waiting && t !in awake
  {
    if waiting != [] {
      var n := |waiting| - 1;
      assert waiting == waiting[..n] + [waiting[n]];
      PartsByMembership(waiting[..n], awake, t);
    }
  }
}
