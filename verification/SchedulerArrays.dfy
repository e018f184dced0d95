/** The scheduler as the library keeps it: two fixed arrays of control blocks with
    their sizes, changed in place on every entry. */
module SchedulerArrays {
  import opened SchedulerQueues
  import opened SchedulerRuns
  import opened ThreadBodies

  /** The waiting threads whose descriptor is readable. */
  ghost function Readable(waiting: seq<Tcb?>, fds: set<int>): set<Tcb?> {
    set k | 0 <= k < |waiting| && waiting[k] != null && waiting[k].fd in fds :: waiting[k]
  }

  lemma ReadableMeans(waiting: seq<Tcb?>, fds: set<int>, k: nat)
    requires k < |waiting| && waiting[k] != null
    ensures waiting[k] in Readable(waiting, fds) <==> waiting[k].fd in fds
  {
  }

  /** The first n waiting threads, with those that have been woken taken out. */
  ghost predicate Holes(now: seq<Tcb?>, waiting: seq<Tcb?>, awake: set<Tcb?>, n: nat) {
    && |now| == |waiting| && n <= |waiting|
    && (forall k :: 0 <= k < n ==> now[k] == if waiting[k] in awake then null else waiting[k])
    && (forall k :: n <= k < |waiting| ==> now[k] == waiting[k])
  }

  lemma WokenNext(waiting: seq<Tcb?>, awake: set<Tcb?>, i: nat)
    requires i < |waiting|
    ensures Woken(waiting[..i + 1], awake) == Woken(waiting[..i], awake) + if waiting[i] in awake then [waiting[i]] else []
    ensures Still(waiting[..i + 1], awake) == Still(waiting[..i], awake) + if waiting[i] in awake then [] else [waiting[i]]
  {
    assert waiting[..i + 1][..i] == waiting[..i];
  }

  lemma {:induction false} WokenIsShort(waiting: seq<Tcb?>, awake: set<Tcb?>)
    ensures |Woken(waiting, awake)| + |Still(waiting, awake)| == |waiting|
  {
    if waiting != [] {
      WokenIsShort(waiting[..|waiting| - 1], awake);
    }
  }

  class Scheduler {
    const readyQueue: array<Tcb?>
    const waitingQueue: array<Tcb?>
    var rqSize: nat
    var rqCurrent: nat
    var wqSize: nat

    /** The live prefixes hold threads, the rest of both arrays is null, and the
        arrays cannot overflow. */
    ghost predicate Valid()
      reads this, readyQueue, waitingQueue
    {
      Holds(0)
    }

    /** Valid, but extra threads may be in both queues. */
    ghost predicate Holds(extra: nat)
      reads this, readyQueue, waitingQueue
    {
      && readyQueue != waitingQueue && readyQueue.Length == waitingQueue.Length
      && rqSize <= readyQueue.Length && wqSize <= waitingQueue.Length && rqSize + wqSize <= readyQueue.Length + extra
      && (forall k :: 0 <= k < readyQueue.Length ==> (readyQueue[k] != null <==> k < rqSize))
      && (forall k :: 0 <= k < waitingQueue.Length ==> (waitingQueue[k] != null <==> k < wqSize))
    }

    ghost function Waiting(): seq<Tcb?>
      requires wqSize <= waitingQueue.Length
      reads this, waitingQueue
    {
      waitingQueue[..wqSize]
    }

    ghost function View(): State<Tcb?>
      requires rqSize <= readyQueue.Length && wqSize <= waitingQueue.Length
      reads this, readyQueue, waitingQueue
    {
      State(readyQueue[..rqSize], rqCurrent, Waiting())
    }

    constructor (capacity: nat)
      ensures Valid() && View() == State([], 0, []) && readyQueue.Length == capacity
      ensures fresh(readyQueue) && fresh(waitingQueue)
    {
      readyQueue := new Tcb?[capacity](_ => null);
      waitingQueue := new Tcb?[capacity](_ => null);
      rqSize, rqCurrent, wqSize := 0, 0, 0;
    }

    /** Thread set-up: the new thread is the last ready one. */
    method Create(id: int, arg: int, fd: int) returns (t: Tcb)
      requires Valid() && rqSize + wqSize < readyQueue.Length
      modifies this`rqSize, readyQueue
      ensures Valid() && fresh(t) && t.id == id && t.fd == fd && t.Saved() == Fresh(arg)
      ensures View() == old(View()).(ready := old(View()).ready + [t])
    {
      t := new Tcb(id, arg, fd);
      readyQueue[rqSize] := t;
      rqSize := rqSize + 1;
    }

    /** Move the waiting threads whose descriptor is readable to the ready queue,
        leaving holes. */
    method WakeReadable(fds: set<int>)
      requires Valid()
      modifies this`rqSize, readyQueue, waitingQueue
      ensures readyQueue != waitingQueue && rqSize + wqSize - |Woken(old(Waiting()), Readable(old(Waiting()), fds))| <= readyQueue.Length == waitingQueue.Length
      ensures rqSize <= readyQueue.Length
      ensures readyQueue[..rqSize] == old(readyQueue[..rqSize]) + Woken(old(Waiting()), Readable(old(Waiting()), fds))
      ensures forall k :: 0 <= k < readyQueue.Length ==> (readyQueue[k] != null <==> k < rqSize)
      ensures Holes(Waiting(), old(Waiting()), Readable(old(Waiting()), fds), wqSize)
      ensures forall k :: wqSize <= k < waitingQueue.Length ==> waitingQueue[k] == null
    {
      hide Woken, Still, Readable;
      ghost var w := Waiting();
      ghost var awake := Readable(w, fds);
      assert w[..0] == [];
      NoneWoken(awake);
      var i := 0;
      while i < wqSize
        invariant 0 <= i <= wqSize
        invariant rqSize <= old(rqSize) + i && rqSize == old(rqSize) + |Woken(w[..i], awake)|
        invariant readyQueue[..rqSize] == old(readyQueue[..rqSize]) + Woken(w[..i], awake)
        invariant forall k :: 0 <= k < readyQueue.Length ==> (readyQueue[k] != null <==> k < rqSize)
        invariant Holes(Waiting(), w, awake, i)
        invariant forall k :: wqSize <= k < waitingQueue.Length ==> waitingQueue[k] == null
      {
        WokenNext(w, awake, i);
        assert waitingQueue[i] == w[i];
        ReadableMeans(w, fds, i);
        if waitingQueue[i].fd in fds {
          readyQueue[rqSize] := waitingQueue[i];
          rqSize := rqSize + 1;
          waitingQueue[i] := null;
        }
        i := i + 1;
      }
      assert w[..wqSize] == w;
    }

    lemma NoneWoken(awake: set<Tcb?>)
      ensures Woken([], awake) == [] && Still([], awake) == []
    {
    }

    /** The threads that still wait close ranks over the holes. */
    method CloseRanks(ghost w: seq<Tcb?>, ghost awake: set<Tcb?>)
      requires wqSize == |w| <= waitingQueue.Length && null !in w
      requires Holes(Waiting(), w, awake, |w|)
      requires forall k :: wqSize <= k < waitingQueue.Length ==> waitingQueue[k] == null
      modifies this`wqSize, waitingQueue
      ensures wqSize <= waitingQueue.Length && Waiting() == Still(w, awake)
      ensures forall k :: 0 <= k < waitingQueue.Length ==> (waitingQueue[k] != null <==> k < wqSize)
    {
      hide Woken, Still;
      NoneWoken(awake);
      assert w[..0] == [];
      var cur := 0;
      var i := 0;
      while i < wqSize
        invariant 0 <= cur <= i <= wqSize == |w|
        invariant waitingQueue[..cur] == Still(w[..i], awake)
        invariant forall k :: 0 <= k < cur ==> waitingQueue[k] != null
        invariant forall k :: cur <= k < i ==> waitingQueue[k] == null
        invariant forall k :: i <= k < |w| ==> waitingQueue[k] == if w[k] in awake then null else w[k]
        invariant forall k :: wqSize <= k < waitingQueue.Length ==> waitingQueue[k] == null
      {
        WokenNext(w, awake, i);
        assert w[i] != null;
        if waitingQueue[i] == null {
        } else {
          waitingQueue[cur] := waitingQueue[i];
          if cur != i {
            waitingQueue[i] := null;
          }
          cur := cur + 1;
        }
        i := i + 1;
      }
      assert w[..wqSize] == w;
      wqSize := cur;
    }

    /** After a select that found these descriptors readable. */
    method ReorderWaiting(fds: set<int>)
      requires Valid()
      modifies this`rqSize, this`wqSize, readyQueue, waitingQueue
      ensures Valid() && View() == Reorder(old(View()), Readable(old(Waiting()), fds))
    {
      hide Woken, Still, Readable;
      ghost var w := Waiting();
      ghost var awake := Readable(w, fds);
      WokenIsShort(w, awake);
      WakeReadable(fds);
      CloseRanks(w, awake);
    }

    /** The current thread is interrupted at a yield: the next ready one runs. */
    method OnInterrupt(fds: set<int>)
      requires Valid() && Busy(View())
      modifies this, readyQueue, waitingQueue
      ensures Valid() && Busy(View())
      ensures View() == Next(old(View()), Interrupt(Readable(old(Waiting()), fds)))
    {
      hide Woken, Still, Readable;
      NothingWaits(Readable(Waiting(), fds));
      if wqSize > 0 {
        ReorderWaiting(fds);
      }
      if rqCurrent == rqSize - 1 {
        rqCurrent := 0;
      } else {
        rqCurrent := rqCurrent + 1;
      }
    }

    lemma NothingWaits(awake: set<Tcb?>)
      requires wqSize <= waitingQueue.Length && rqSize <= readyQueue.Length
      ensures wqSize == 0 ==> Reorder(View(), awake) == View()
    {
    }

    /** Take the current thread out of the ready queue. */
    method DropRunning()
      requires Holds(1) && Busy(View())
      modifies this`rqSize, this`rqCurrent, readyQueue
      ensures Valid() && View() == DropCurrent(old(View()))
    {
      readyQueue[rqCurrent] := null;
      rqSize := rqSize - 1;
      if rqCurrent != rqSize {
        readyQueue[rqCurrent] := readyQueue[rqSize];
        readyQueue[rqSize] := null;
      } else {
        rqCurrent := 0;
      }
    }

    /** The current thread is about to read: it waits, another one runs.  late are
        the descriptors the blocking select finds, when no thread is ready. */
    method OnRead(fds: set<int>, late: set<int>)
      requires Valid() && Busy(View())
      requires var parked := Parked(View(), Readable(Waiting(), fds));
        Comes(parked, Readable(parked.waiting, late))
      modifies this, readyQueue, waitingQueue
      ensures Valid() && Busy(View())
      ensures var awake := Readable(old(Waiting()), fds);
        View() == Next(old(View()), Read(awake, Readable(Parked(old(View()), awake).waiting, late)))
    {
      hide Reorder, Readable, DropCurrent, Comes;
      ghost var s0 := View();
      ghost var awake := Readable(Waiting(), fds);
      ghost var parked := Parked(s0, awake);
      ReorderKeeps(s0, awake);
      ghost var r := Reorder(s0, awake);
      DropKeeps(r);
      DropIgnoresWaiting(r, r.waiting + [Running(s0)]);
      RefillKeeps(parked, Readable(parked.waiting, late));
      NothingWaits(awake);
      if wqSize > 0 {
        ReorderWaiting(fds);
      }
      Park();
      DropRunning();
      assert View() == parked;
      AboutRefill(parked, Readable(parked.waiting, late));
      if rqSize == 0 {
        ReorderWaiting(late);
      }
    }

    /** Put the current thread at the end of the waiting queue. */
    method Park()
      requires Valid() && Busy(View())
      modifies this`wqSize, waitingQueue
      ensures Holds(1) && View() == old(View()).(waiting := old(Waiting()) + [Running(old(View()))])
    {
      waitingQueue[wqSize] := readyQueue[rqCurrent];
      wqSize := wqSize + 1;
    }

    lemma DropIgnoresWaiting(s: State<Tcb?>, w: seq<Tcb?>)
      requires Busy(s)
      ensures DropCurrent(s.(waiting := w)) == DropCurrent(s).(waiting := w)
    {
    }

    lemma AboutRefill(s: State<Tcb?>, late: set<Tcb?>)
      requires Busy(s) || (s.ready == [] && s.cur == 0)
      ensures Refill(s, late) == if |s.ready| == 0 && s.waiting != [] then Reorder(s, late) else s
    {
    }

    /** The current thread exits; done says that the scheduler returns. */
    method OnExit(fds: set<int>, late: set<int>) returns (done: bool)
      requires Valid() && Busy(View())
      requires var left := Left(View(), Readable(Waiting(), fds));
        Comes(left, Readable(left.waiting, late))
      modifies this, readyQueue, waitingQueue
      ensures Valid() && (done <==> Idle(View())) && (!done ==> Busy(View()))
      ensures var awake := Readable(old(Waiting()), fds);
        View() == Next(old(View()), Exit(awake, Readable(Left(old(View()), awake).waiting, late)))
    {
      hide Reorder, Readable, DropCurrent, Comes;
      ghost var s0 := View();
      ghost var awake := Readable(Waiting(), fds);
      ghost var left := Left(s0, awake);
      ReorderKeeps(s0, awake);
      DropKeeps(Reorder(s0, awake));
      RefillKeeps(left, Readable(left.waiting, late));
      NothingWaits(awake);
      if wqSize > 0 {
        ReorderWaiting(fds);
      }
      DropRunning();
      assert View() == left;
      AboutRefill(left, Readable(left.waiting, late));
      if rqSize == 0 && wqSize == 0 {
        done := true;
      } else {
        if rqSize == 0 {
          ReorderWaiting(late);
        }
        done := false;
      }
    }
  }
}
