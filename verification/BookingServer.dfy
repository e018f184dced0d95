/** One server process as it is written: its tables are changed in place, and each
    event is handled to its end before the next one. */
module BookingServer {
  import opened BookingCommand
  import opened BookingProtocol
  import opened BookingInvariant
  import opened BookingInts

  /** How many steps the server is from being free. */
  function StepsLeft(d: Doing): nat {
    match d
    case Free => 0
    case Show(_, _) => 1
    case Unlock(_) => 1
    case Lock(_, _) => 2
    case Report(_, _, _, _) => 2
    case Store(_, _, _, _, _) => 3
    case Check(_, _, _) => 4
  }

  lemma GoesTowardsFree(p: nat, s: Server, k: Kernel)
    requires Tabled(s) && Whole(k) && !s.doing.Free?
    ensures StepsLeft(Go(p, s, k).0.doing) < StepsLeft(s.doing)
    ensures Tabled(Go(p, s, k).0) && Whole(Go(p, s, k).1)
  {
    hide Judge, MayShare, MayExclude;
  }

  /** What comes of the event in hand when no other process gets in between. */
  function Finish(p: nat, s: Server, k: Kernel): (Server, Kernel)
    requires Tabled(s) && Whole(k)
    decreases StepsLeft(s.doing)
  {
    if s.doing.Free? then (s, k)
    else
      GoesTowardsFree(p, s, k);
      var x := Go(p, s, k);
      Finish(p, x.0, x.1)
  }

  lemma FinishGoes(p: nat, s: Server, k: Kernel)
    requires Tabled(s) && Whole(k)
    ensures s.doing.Free? ==> Finish(p, s, k) == (s, k)
    ensures Tabled(Go(p, s, k).0) && Whole(Go(p, s, k).1)
    ensures Finish(p, s, k) == Finish(p, Go(p, s, k).0, Go(p, s, k).1)
  {
    if !s.doing.Free? {
      GoesTowardsFree(p, s, k);
    }
  }

  /** What an id line leads to: the connection is closed, or a session is open on the
      record of that id and shows it. */
  lemma LineOpens(p: nat, s: Server, k: Kernel, fd: nat, line: string)
    requires Tabled(s) && Whole(k) && s.doing.Free? && fd in s.conns && s.conns[fd].AwaitsId?
    ensures var x := Finish(p, Begin(s, Line(fd, line)), k); var conns := x.0.conns;
      && x.1.file == k.file
      && (fd in conns ==> IsId(line) && conns[fd].Session? && 902000 + conns[fd].r == Number(line) && conns[fd].shown == x.1.file[conns[fd].r - 1])
  {
    hide Finish, IsId, Number, MayShare, MayExclude;
    var s1 := Begin(s, Line(fd, line));
    BeginEffects(s, Line(fd, line));
    FinishGoes(p, s1, k);
    if s1.doing.Lock? {
      var x := Go(p, s1, k);
      FinishGoes(p, x.0, x.1);
      if x.0.doing.Show? {
        var x' := Go(p, x.0, x.1);
        FinishGoes(p, x'.0, x'.1);
      }
    }
  }

  /** A command ends its session whatever the verdict, gives the lock up, and changes
      the record only if it is accepted. */
  lemma CommandEnds(p: nat, s: Server, k: Kernel)
    requires Tabled(s) && Whole(k) && s.doing.Check?
    ensures var r := s.doing.r; var x := Finish(p, s, k); var v := Judge(RecordAt(k, r), s.doing.line);
      && Tabled(x.0) && Whole(x.1)
      && s.doing.fd !in x.0.conns && x.0.doing.Free? && x.0.samewr[r] == 0 && ModeOf(x.1, p, r) == Unlocked
      && RecordAt(x.1, r) == (if v.Accepted? then RecordAt(k, r).Plus(v.change) else RecordAt(k, r))
      && forall other: Record :: other != r ==> RecordAt(x.1, other) == RecordAt(k, other)
  {
    hide Finish, Judge, WriterLeaves;
    FinishGoes(p, s, k);
    var fd, r := s.doing.fd, s.doing.r;
    var v := Judge(RecordAt(k, r), s.doing.line);
    if v.Accepted? {
      var a := Go(p, s, k);
      FinishGoes(p, a.0, a.1);
      var b := Go(p, a.0, a.1);
      FinishGoes(p, b.0, b.1);
      WriterIsGone(p, b.0, b.1, fd, r);
    } else {
      WriterIsGone(p, s, k, fd, r);
    }
  }

  lemma WriterIsGone(p: nat, s: Server, k: Kernel, fd: nat, r: Record)
    requires Tabled(s) && Whole(k)
    ensures Tabled(WriterLeaves(s, fd, r))
    ensures var x := Finish(p, WriterLeaves(s, fd, r), k);
      && Tabled(x.0) && x.1.file == k.file && fd !in x.0.conns && x.0.doing.Free? && x.0.samewr[r] == 0 && ModeOf(x.1, p, r) == Unlocked
  {
    hide Finish;
    var s' := WriterLeaves(s, fd, r);
    FinishGoes(p, s', k);
    var x := Go(p, s', k);
    FinishGoes(p, x.0, x.1);
  }

  /** A handler that is left alone does what some run of the system does. */
  lemma {:induction false} FinishIsRun(y: System, p: nat) returns (sts: seq<Step>)
    requires Sound(y) && p < |y.servers|
    ensures var x := Finish(p, y.servers[p], y.kernel);
      Run(y, sts) == System(y.servers[p := x.0], x.1)
    decreases StepsLeft(y.servers[p].doing)
  {
    if y.servers[p].doing.Free? {
      sts := [];
      assert y.servers[p := y.servers[p]] == y.servers;
    } else {
      GoesTowardsFree(p, y.servers[p], y.kernel);
      var next := Next(y, Goes(p));
      var rest := FinishIsRun(next, p);
      sts := [Goes(p)] + rest;
      var x := Finish(p, y.servers[p], y.kernel);
      assert next.servers[p := x.0] == y.servers[p := x.0];
    }
  }

  /** The system calls on the record file, for all processes. */
  class RecordFile {
    var kernel: Kernel

    constructor (file: seq<Booking>)
      requires |file| == RECORDS
      ensures Whole(kernel) && kernel == Kernel(map[], file)
    {
      kernel := Kernel(map[], file);
    }

    /** Ask for a lock without waiting: it is granted unless another process's lock
        conflicts with it, and then no other lock changes.  Exclusive locks stay the
        only ones on their record. */
    method SetLock(p: nat, r: Record, m: Mode) returns (ok: bool)
      requires m == Shared || m == Exclusive
      modifies this
      ensures ok <==> forall q: nat :: q != p ==> if m == Shared then ModeOf(old(kernel), q, r) != Exclusive else ModeOf(old(kernel), q, r) == Unlocked
      ensures kernel == if ok then WithLock(old(kernel), p, r, m) else old(kernel)
      ensures LocksOk(old(kernel)) ==> LocksOk(kernel)
    {
      ConflictsByMode(kernel, p, r);
      ok := if m == Shared then MayShare(kernel, p, r) else MayExclude(kernel, p, r);
      if ok {
        kernel := WithLock(kernel, p, r, m);
      }
    }

    method Release(p: nat, r: Record)
      modifies this
      ensures kernel == WithLock(old(kernel), p, r, Unlocked)
    {
      kernel := WithLock(kernel, p, r, Unlocked);
    }

    method Read(r: Record) returns (b: Booking)
      requires Whole(kernel)
      ensures b == RecordAt(kernel, r)
    {
      b := kernel.file[r - 1];
    }

    method Write(r: Record, b: Booking)
      requires Whole(kernel)
      modifies this
      ensures kernel == old(kernel).(file := old(kernel).file[r - 1 := b])
    {
      kernel := kernel.(file := kernel.file[r - 1 := b]);
    }
  }

  class Process {
    const pid: nat
    const writer: bool
    const os: RecordFile
    const readlc: array<int>
    const samewr: array<int>
    var conns: map<nat, Conn>

    ghost predicate Valid()
      reads this, os
    {
      readlc.Length == TABLE && samewr.Length == TABLE && readlc != samewr && Whole(os.kernel)
    }

    /** The server in the model, busy with this. */
    ghost function View(doing: Doing): (s: Server)
      requires readlc.Length == TABLE && samewr.Length == TABLE
      reads this, readlc, samewr
      ensures Tabled(s)
    {
      Server(writer, conns, readlc[..], samewr[..], doing)
    }

    constructor (pid: nat, writer: bool, os: RecordFile)
      requires Whole(os.kernel)
      ensures Valid() && fresh(readlc) && fresh(samewr)
      ensures this.pid == pid && this.writer == writer && this.os == os
      ensures View(Free) == NewServer(writer)
    {
      this.pid, this.writer, this.os, conns := pid, writer, os, map[];
      readlc := new int[TABLE](_ => 0);
      samewr := new int[TABLE](_ => 0);
    }

    method OnAccept(fd: nat)
      requires Valid() && fd !in conns
      modifies this`conns
      ensures Valid() && View(Free) == Begin(old(View(Free)), Accept(fd))
    {
      conns := conns[fd := AwaitsId];
    }

    /** The read has failed: the connection goes, nothing is given up. */
    method OnFailure(fd: nat)
      requires Valid() && fd in conns
      modifies this`conns
      ensures Valid() && View(Free) == Begin(old(View(Free)), Fail(fd))
    {
      conns := conns - {fd};
    }

    /** One reader less; the last one gives the lock up. */
    method LeaveReading(fd: nat, r: Record)
      requires Valid() && fd in conns
      modifies this`conns, readlc, os
      ensures Valid() && (View(Free), os.kernel) == Finish(pid, ReaderLeaves(old(View(Free)), fd, r), old(os.kernel))
    {
      ghost var s := View(Free);
      conns := conns - {fd};
      readlc[r] := readlc[r] - 1;
      assert readlc[..] == s.readlc[r := s.readlc[r] - 1];
      if readlc[r] == 0 {
        os.Release(pid, r);
      }
    }

    method LeaveWriting(fd: nat, r: Record)
      requires Valid() && fd in conns
      modifies this`conns, samewr, os
      ensures Valid() && (View(Free), os.kernel) == Finish(pid, WriterLeaves(old(View(Free)), fd, r), old(os.kernel))
    {
      ghost var s := View(Free);
      conns := conns - {fd};
      samewr[r] := 0;
      assert samewr[..] == s.samewr[r := 0];
      os.Release(pid, r);
    }

    method OnEof(fd: nat)
      requires Valid() && fd in conns
      modifies this`conns, readlc, samewr, os
      ensures Valid() && (View(Free), os.kernel) == Finish(pid, Begin(old(View(Free)), Eof(fd)), old(os.kernel))
    {
      if conns[fd].AwaitsId? {
        conns := conns - {fd};
      } else if writer {
        LeaveWriting(fd, conns[fd].r);
      } else {
        LeaveReading(fd, conns[fd].r);
      }
    }

    /** A record is asked for on a read server. */
    method OpenForReading(fd: nat, r: Record)
      requires Valid() && fd in conns && !writer
      modifies this`conns, readlc, os
      ensures Valid() && (View(Free), os.kernel) == Finish(pid, old(View(Lock(fd, r))), old(os.kernel))
    {
      hide Finish;
      ghost var s, k := View(Lock(fd, r)), os.kernel;
      FinishGoes(pid, s, k);
      ConflictsByMode(os.kernel, pid, r);
      var ok := os.SetLock(pid, r, Shared);
      if !ok {
        conns := conns - {fd};
        FinishGoes(pid, View(Free), os.kernel);
        return;
      }
      readlc[r] := readlc[r] + 1;
      assert View(Show(fd, r)) == Go(pid, s, k).0;
      FinishGoes(pid, View(Show(fd, r)), os.kernel);
      var input := os.Read(r);
      conns := conns[fd := Session(r, input)];
      FinishGoes(pid, View(Free), os.kernel);
    }

    /** A record is asked for on a write server. */
    method OpenForWriting(fd: nat, r: Record)
      requires Valid() && fd in conns && writer
      modifies this`conns, samewr, os
      ensures Valid() && (View(Free), os.kernel) == Finish(pid, old(View(Lock(fd, r))), old(os.kernel))
    {
      hide Finish;
      ghost var s, k := View(Lock(fd, r)), os.kernel;
      FinishGoes(pid, s, k);
      ConflictsByMode(os.kernel, pid, r);
      var ok := os.SetLock(pid, r, Exclusive);
      if !ok || samewr[r] == 1 {
        conns := conns - {fd};
        FinishGoes(pid, View(Free), os.kernel);
        return;
      }
      samewr[r] := 1;
      assert View(Show(fd, r)) == Go(pid, s, k).0;
      FinishGoes(pid, View(Show(fd, r)), os.kernel);
      var input := os.Read(r);
      conns := conns[fd := Session(r, input)];
      FinishGoes(pid, View(Free), os.kernel);
    }

    /** A command arrives on a write server: it is checked, carried out if it may
        be, and in any case the session ends. */
    method OnCommand(fd: nat, line: string)
      requires Valid() && fd in conns && conns[fd].Session? && writer
      modifies this`conns, samewr, os
      ensures Valid() && (View(Free), os.kernel) == Finish(pid, old(View(Check(fd, conns[fd].r, line))), old(os.kernel))
    {
      hide Judge;
      var r := conns[fd].r;
      ghost var s, k := View(Check(fd, r, line)), os.kernel;
      var now := os.Read(r);
      var verdict := CheckCommand(now, line);
      if verdict.Accepted? {
        os.Write(r, now.Plus(verdict.change));
        var input := os.Read(r);
        ThroughStore(pid, s, k, verdict.change);
      }
      IgnoresDoing(View(Free), s.doing, fd, r);
      LeaveWriting(fd, r);
    }

    lemma IgnoresDoing(s: Server, doing: Doing, fd: nat, r: Record)
      requires Tabled(s)
      ensures WriterLeaves(s.(doing := doing), fd, r) == WriterLeaves(s, fd, r)
    {
    }

    lemma ThroughStore(p: nat, s: Server, k: Kernel, change: Booking)
      requires Tabled(s) && Whole(k) && s.doing.Check? && Judge(RecordAt(k, s.doing.r), s.doing.line) == Accepted(change)
      ensures var now, fd, r := RecordAt(k, s.doing.r), s.doing.fd, s.doing.r;
        var k' := k.(file := k.file[r - 1 := now.Plus(change)]);
        Finish(p, s, k) == Finish(p, WriterLeaves(s.(doing := Report(fd, r, now, change)), fd, r), k')
    {
      hide Judge, Finish;
      var now, fd, r := RecordAt(k, s.doing.r), s.doing.fd, s.doing.r;
      var s1 := s.(doing := Store(fd, r, s.doing.line, now, change));
      FinishGoes(p, s, k);
      assert Go(p, s, k) == (s1, k);
      var s2, k2 := s1.(doing := Report(fd, r, now, change)), k.(file := k.file[r - 1 := now.Plus(change)]);
      FinishGoes(p, s1, k);
      assert Go(p, s1, k) == (s2, k2);
      FinishGoes(p, s2, k2);
    }

    /** A whole line arrives. */
    method OnLine(fd: nat, line: string)
      requires Valid() && fd in conns
      modifies this`conns, readlc, samewr, os
      ensures Valid() && (View(Free), os.kernel) == Finish(pid, Begin(old(View(Free)), Line(fd, line)), old(os.kernel))
      ensures old(conns[fd]).AwaitsId? && fd in conns ==>
        IsId(line) && conns[fd].Session? && 902000 + conns[fd].r == Number(line) && conns[fd].shown == RecordAt(os.kernel, conns[fd].r)
    {
      hide IsId, Number;
      if conns[fd].AwaitsId? {
        LineOpens(pid, View(Free), os.kernel, fd, line);
      }
      if conns[fd].AwaitsId? {
        var ok, id := CheckId(line);
        if !ok {
          conns := conns - {fd};
        } else {
          IdIsInRange(line);
          if writer {
            OpenForWriting(fd, RecordOf(id));
          } else {
            OpenForReading(fd, RecordOf(id));
          }
        }
      } else if writer {
        OnCommand(fd, line);
      } else if line == "Exit" {
        LeaveReading(fd, conns[fd].r);
      }
    }

    lemma IdIsInRange(line: string)
      requires IsId(line)
      ensures (forall k :: 0 <= k < |line| ==> IsDigit(line[k])) && FIRST_ID <= Number(line) <= LAST_ID
    {
    }
  }
}
