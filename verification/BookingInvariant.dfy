/** What every step of every server keeps. */
module BookingInvariant {
  import opened BookingCommand
  import opened BookingProtocol

  // ----- sessions on a record -----

  ghost function SessionsOn(conns: map<nat, Conn>, r: Record): set<nat> {
    set fd | fd in conns && conns[fd].Session? && conns[fd].r == r
  }

  ghost function Count(conns: map<nat, Conn>, r: Record): nat { |SessionsOn(conns, r)| }

  predicate HasSession(conns: map<nat, Conn>, fd: nat, r: Record) {
    fd in conns && conns[fd].Session? && conns[fd].r == r
  }

  lemma SessionCounts(conns: map<nat, Conn>, fd: nat, r: Record)
    requires HasSession(conns, fd, r)
    ensures Count(conns, r) >= 1
  {
    assert fd in SessionsOn(conns, r);
  }

  lemma TwoSessionsCount(conns: map<nat, Conn>, fd: nat, other: nat, r: Record)
    requires HasSession(conns, fd, r) && HasSession(conns, other, r) && fd != other
    ensures Count(conns, r) >= 2
  {
    assert {fd, other} <= SessionsOn(conns, r);
    Subset({fd, other}, SessionsOn(conns, r));
  }

  lemma Subset(a: set<nat>, b: set<nat>)
    requires a <= b
    ensures |a| <= |b|
  {
    assert b == a + (b - a);
  }

  lemma CloseCounts(conns: map<nat, Conn>, fd: nat, r: Record)
    ensures Count(conns - {fd}, r) == Count(conns, r) - if HasSession(conns, fd, r) then 1 else 0
  {
    assert SessionsOn(conns - {fd}, r) == SessionsOn(conns, r) - {fd};
    assert HasSession(conns, fd, r) <==> fd in SessionsOn(conns, r);
  }

  lemma AwaitCounts(conns: map<nat, Conn>, fd: nat, r: Record)
    requires fd !in conns
    ensures Count(conns[fd := AwaitsId], r) == Count(conns, r)
  {
    assert SessionsOn(conns[fd := AwaitsId], r) == SessionsOn(conns, r);
  }

  lemma OpenCounts(conns: map<nat, Conn>, fd: nat, r0: Record, shown: Booking, r: Record)
    requires fd in conns && conns[fd].AwaitsId?
    ensures Count(conns[fd := Session(r0, shown)], r) == Count(conns, r) + if r == r0 then 1 else 0
  {
    var conns' := conns[fd := Session(r0, shown)];
    if r == r0 {
      assert SessionsOn(conns', r) == SessionsOn(conns, r) + {fd};
    } else {
      assert SessionsOn(conns', r) == SessionsOn(conns, r);
    }
  }

  // ----- one server -----

  /** The server's own count for the record. */
  function Tally(s: Server, r: Record): int
    requires Tabled(s)
  {
    if s.writer then s.samewr[r] else s.readlc[r]
  }

  function Pending(s: Server, r: Record): nat { if s.doing.Show? && s.doing.r == r then 1 else 0 }

  /** By how much the count exceeds the sessions there are. */
  ghost function Excess(s: Server, r: Record): int
    requires Tabled(s)
  {
    Tally(s, r) - Count(s.conns, r) - Pending(s, r)
  }

  /** A server's count covers its sessions; it holds the record's lock exactly while
      the count is positive, or until it gets round to giving the lock up. */
  ghost predicate RecordOk(s: Server, m: Mode, r: Record)
    requires Tabled(s)
  {
    && Excess(s, r) >= 0 && (s.writer ==> Tally(s, r) <= 1)
    && (m != Unlocked <==> Tally(s, r) > 0 || s.doing == Unlock(r))
    && m != (if s.writer then Shared else Exclusive)
  }

  /** What a client has been shown is still in the record, until the client's own
      command has changed it. */
  ghost predicate ShownOk(s: Server, k: Kernel)
    requires Whole(k)
  {
    forall fd :: fd in s.conns && s.conns[fd].Session? && !(s.doing.Report? && s.doing.fd == fd)
      ==> s.conns[fd].shown == RecordAt(k, s.conns[fd].r)
  }

  ghost predicate DoingOk(s: Server, k: Kernel)
    requires Tabled(s) && Whole(k)
  {
    match s.doing
    case Free => true
    case Lock(fd, r) => fd in s.conns && s.conns[fd].AwaitsId?
    case Show(fd, r) => fd in s.conns && s.conns[fd].AwaitsId?
    case Check(fd, r, line) => s.writer && HasSession(s.conns, fd, r)
    case Store(fd, r, line, read, change) => s.writer && HasSession(s.conns, fd, r) && read == RecordAt(k, r) && Judge(read, line) == Accepted(change)
    case Report(fd, r, read, change) => s.writer && HasSession(s.conns, fd, r) && read == s.conns[fd].shown && RecordAt(k, r) == read.Plus(change)
    case Unlock(r) => Tally(s, r) == 0
  }

  ghost predicate RecordsOk(p: nat, s: Server, k: Kernel)
    requires Tabled(s)
  {
    forall r: Record :: RecordOk(s, ModeOf(k, p, r), r)
  }

  ghost predicate ServerOk(p: nat, s: Server, k: Kernel) {
    Tabled(s) && Whole(k) && RecordsOk(p, s, k) && ShownOk(s, k) && DoingOk(s, k)
  }

  /** A write lock excludes every other process's locks. */
  ghost predicate LocksOk(k: Kernel) {
    forall p: nat, q: nat, r: nat :: p != q && ModeOf(k, p, r) == Exclusive ==> ModeOf(k, q, r) == Unlocked
  }

  /** The number of sessions a failed read has just dropped on the record. */
  function Dropped(s: Server, e: Event, r: Record): nat {
    if e.Fail? && HasSession(s.conns, e.fd, r) then 1 else 0
  }

  // ----- taking up an event -----

  lemma SessionIsLocked(p: nat, s: Server, k: Kernel, fd: nat, r: Record)
    requires Tabled(s) && RecordsOk(p, s, k) && HasSession(s.conns, fd, r)
    ensures ModeOf(k, p, r) == if s.writer then Exclusive else Shared
    ensures s.writer ==> Tally(s, r) == 1 && Count(s.conns, r) == 1 && Excess(s, r) == 0
  {
    SessionCounts(s.conns, fd, r);
    assert RecordOk(s, ModeOf(k, p, r), r);
  }

  /** The end of a session, on a server of either kind. */
  lemma LeavingCounts(p: nat, s: Server, k: Kernel, fd: nat, r0: Record, r: Record)
    requires Tabled(s) && RecordsOk(p, s, k) && HasSession(s.conns, fd, r0)
    requires s.doing.Free? || s.doing.Check? || s.doing.Report?
    ensures var s' := if s.writer then WriterLeaves(s, fd, r0) else ReaderLeaves(s, fd, r0);
      RecordOk(s', ModeOf(k, p, r), r) && Excess(s', r) == Excess(s, r)
  {
    hide Count, Judge;
    assert RecordOk(s, ModeOf(k, p, r), r);
    CloseCounts(s.conns, fd, r);
    SessionIsLocked(p, s, k, fd, r0);
    SessionCounts(s.conns, fd, r0);
  }

  lemma LeavingIsOk(p: nat, s: Server, k: Kernel, fd: nat, r0: Record)
    requires ServerOk(p, s, k) && HasSession(s.conns, fd, r0)
    requires s.doing.Free? || (s.doing.Check? && s.doing.fd == fd) || (s.doing.Report? && s.doing.fd == fd)
    ensures var s' := if s.writer then WriterLeaves(s, fd, r0) else ReaderLeaves(s, fd, r0);
      ServerOk(p, s', k) && forall r: Record :: Excess(s', r) == Excess(s, r)
  {
    hide Excess, RecordOk;
    var s' := if s.writer then WriterLeaves(s, fd, r0) else ReaderLeaves(s, fd, r0);
    forall r: Record
      ensures RecordOk(s', ModeOf(k, p, r), r)
      ensures Excess(s', r) == Excess(s, r)
    {
      LeavingCounts(p, s, k, fd, r0, r);
    }
  }

  lemma ClosingCounts(p: nat, s: Server, k: Kernel, fd: nat, r: Record)
    requires Tabled(s) && RecordsOk(p, s, k) && s.doing.Free?
    ensures RecordOk(Close(s, fd), ModeOf(k, p, r), r)
    ensures Excess(Close(s, fd), r) == Excess(s, r) + if HasSession(s.conns, fd, r) then 1 else 0
  {
    hide Count, Judge;
    assert RecordOk(s, ModeOf(k, p, r), r);
    CloseCounts(s.conns, fd, r);
  }

  lemma ClosingIsOk(p: nat, s: Server, k: Kernel, fd: nat)
    requires ServerOk(p, s, k) && s.doing.Free?
    ensures ServerOk(p, Close(s, fd), k)
    ensures forall r: Record :: Excess(Close(s, fd), r) == Excess(s, r) + if HasSession(s.conns, fd, r) then 1 else 0
  {
    hide Excess, RecordOk;
    forall r: Record
      ensures RecordOk(Close(s, fd), ModeOf(k, p, r), r)
      ensures Excess(Close(s, fd), r) == Excess(s, r) + if HasSession(s.conns, fd, r) then 1 else 0
    {
      ClosingCounts(p, s, k, fd, r);
    }
  }

  lemma AcceptIsOk(p: nat, s: Server, k: Kernel, fd: nat)
    requires ServerOk(p, s, k) && s.doing.Free? && fd !in s.conns
    ensures var s' := s.(conns := s.conns[fd := AwaitsId]);
      ServerOk(p, s', k) && forall r: Record :: Excess(s', r) == Excess(s, r)
  {
    hide Count, Judge;
    var s' := s.(conns := s.conns[fd := AwaitsId]);
    forall r: Record
      ensures RecordOk(s', ModeOf(k, p, r), r)
      ensures Excess(s', r) == Excess(s, r)
    {
      assert RecordOk(s, ModeOf(k, p, r), r);
      AwaitCounts(s.conns, fd, r);
    }
  }

  /** Turning to something that is neither showing nor unlocking. */
  lemma TurningIsOk(p: nat, s: Server, k: Kernel, doing: Doing)
    requires ServerOk(p, s, k) && !s.doing.Show? && !s.doing.Unlock? && !s.doing.Report?
    requires doing.Free? || doing.Lock? || doing.Check? || doing.Store?
    requires DoingOk(s.(doing := doing), k)
    ensures ServerOk(p, s.(doing := doing), k)
    ensures forall r: Record :: Excess(s.(doing := doing), r) == Excess(s, r)
  {
    hide Count, Judge;
    var s' := s.(doing := doing);
    forall r: Record
      ensures RecordOk(s', ModeOf(k, p, r), r)
      ensures Excess(s', r) == Excess(s, r)
    {
      assert RecordOk(s, ModeOf(k, p, r), r);
    }
  }

  /** Taking up an event keeps a server in order; only a failed read lets the count
      run ahead of the sessions. */
  lemma BeginIsOk(p: nat, s: Server, k: Kernel, e: Event)
    requires ServerOk(p, s, k) && Sensible(s, e)
    ensures ServerOk(p, Begin(s, e), k)
    ensures forall r: Record :: Excess(Begin(s, e), r) == Excess(s, r) + Dropped(s, e, r)
  {
    hide Excess, RecordsOk, ShownOk, DoingOk;
    match e
    case Accept(fd) => AcceptIsOk(p, s, k, fd);
    case Fail(fd) => ClosingIsOk(p, s, k, fd);
    case Eof(fd) =>
      if s.conns[fd].AwaitsId? {
        ClosingIsOk(p, s, k, fd);
      } else {
        LeavingIsOk(p, s, k, fd, s.conns[fd].r);
      }
    case Line(fd, line) => LineIsOk(p, s, k, fd, line);
  }

  lemma LineIsOk(p: nat, s: Server, k: Kernel, fd: nat, line: string)
    requires ServerOk(p, s, k) && Sensible(s, Line(fd, line))
    ensures ServerOk(p, Begin(s, Line(fd, line)), k)
    ensures forall r: Record :: Excess(Begin(s, Line(fd, line)), r) == Excess(s, r)
  {
    hide Excess, RecordsOk, ShownOk;
    if s.conns[fd].AwaitsId? {
      if IsId(line) {
        TurningIsOk(p, s, k, Lock(fd, RecordOf(Number(line))));
      } else {
        ClosingIsOk(p, s, k, fd);
      }
    } else if s.writer {
      TurningIsOk(p, s, k, Check(fd, s.conns[fd].r, line));
    } else if line == "Exit" {
      LeavingIsOk(p, s, k, fd, s.conns[fd].r);
    }
  }

  // ----- going on -----

  /** What a step of process p may do to the rest of the system: only its own locks
      change, and only a record it has locked for writing. */
  ghost predicate Mine(p: nat, k: Kernel, k': Kernel) {
    && Whole(k) && Whole(k')
    && (forall q: nat, r: nat :: q != p ==> ModeOf(k', q, r) == ModeOf(k, q, r))
    && (forall r: Record :: RecordAt(k', r) != RecordAt(k, r) ==> ModeOf(k, p, r) == Exclusive)
  }

  ghost predicate GoesOk(p: nat, s: Server, k: Kernel, s': Server, k': Kernel) {
    && ServerOk(p, s', k') && Mine(p, k, k') && LocksOk(k') && Tabled(s)
    && forall r: Record :: Excess(s', r) == Excess(s, r)
  }

  lemma LockGranted(k: Kernel, p: nat, r: nat, m: Mode)
    requires LocksOk(k) && Whole(k)
    requires m == Shared ==> MayShare(k, p, r)
    requires m == Exclusive ==> MayExclude(k, p, r)
    ensures LocksOk(WithLock(k, p, r, m)) && Mine(p, k, WithLock(k, p, r, m))
  {
    var k' := WithLock(k, p, r, m);
    forall q: nat | q != p
      ensures m == Exclusive ==> ModeOf(k, q, r) == Unlocked
      ensures m == Shared ==> ModeOf(k, q, r) != Exclusive
    {
      if (q, r) in k.locks {
        assert (q, r).1 == r && (q, r).0 != p;
      }
    }
  }

  lemma RefusedIsOk(p: nat, s: Server, k: Kernel, fd: nat, m: Mode)
    requires ServerOk(p, s, k) && s.doing.Lock? && s.doing.fd == fd && LocksOk(k)
    requires m == ModeOf(k, p, s.doing.r)
    ensures var s', k' := Close(s, fd).(doing := Free), WithLock(k, p, s.doing.r, m);
      ServerOk(p, s', k) && ServerOk(p, s', k') && forall r: Record :: Excess(s', r) == Excess(s, r)
  {
    hide Excess, RecordsOk, ShownOk;
    TurningIsOk(p, s, k, Free);
    ClosingIsOk(p, s.(doing := Free), k, fd);
    assert !HasSession(s.conns, fd, s.doing.r);
    SameModes(p, Close(s, fd).(doing := Free), k, WithLock(k, p, s.doing.r, m));
  }

  lemma SameModes(p: nat, s: Server, k: Kernel, k': Kernel)
    requires ServerOk(p, s, k) && k'.file == k.file && forall r: Record :: ModeOf(k', p, r) == ModeOf(k, p, r)
    ensures ServerOk(p, s, k')
  {
    hide RecordOk;
    forall r: Record
      ensures RecordOk(s, ModeOf(k', p, r), r)
    {
      assert RecordOk(s, ModeOf(k, p, r), r);
    }
  }

  lemma GrantedIsOk(p: nat, s: Server, k: Kernel, fd: nat, r0: Record)
    requires ServerOk(p, s, k) && s.doing == Lock(fd, r0) && (s.writer ==> s.samewr[r0] != 1)
    ensures var s' := (if s.writer then s.(samewr := s.samewr[r0 := 1], doing := Show(fd, r0)) else s.(readlc := s.readlc[r0 := s.readlc[r0] + 1], doing := Show(fd, r0)));
      ServerOk(p, s', WithLock(k, p, r0, if s.writer then Exclusive else Shared)) && forall r: Record :: Excess(s', r) == Excess(s, r)
  {
    hide Count, Judge;
    var k' := WithLock(k, p, r0, if s.writer then Exclusive else Shared);
    var s' := if s.writer then s.(samewr := s.samewr[r0 := 1], doing := Show(fd, r0)) else s.(readlc := s.readlc[r0 := s.readlc[r0] + 1], doing := Show(fd, r0));
    forall r: Record
      ensures RecordOk(s', ModeOf(k', p, r), r)
      ensures Excess(s', r) == Excess(s, r)
    {
      assert RecordOk(s, ModeOf(k, p, r), r);
    }
  }

  lemma AskIsOk(p: nat, s: Server, k: Kernel)
    requires ServerOk(p, s, k) && LocksOk(k) && s.doing.Lock?
    ensures var x := Ask(p, s, k, s.doing.fd, s.doing.r); GoesOk(p, s, k, x.0, x.1)
  {
    hide ServerOk, Excess, LocksOk, Mine, MayShare, MayExclude;
    var fd, r := s.doing.fd, s.doing.r;
    TabledAndWhole(p, s, k);
    RefusedIsOk(p, s, k, fd, ModeOf(k, p, r));
    MineIsReflexive(p, k);
    if s.writer {
      if MayExclude(k, p, r) {
        LockGranted(k, p, r, Exclusive);
        if s.samewr[r] == 1 {
          WriterHasLock(p, s, k, r);
        } else {
          GrantedIsOk(p, s, k, fd, r);
        }
      }
    } else if MayShare(k, p, r) {
      LockGranted(k, p, r, Shared);
      GrantedIsOk(p, s, k, fd, r);
    }
  }

  lemma TabledAndWhole(p: nat, s: Server, k: Kernel)
    requires ServerOk(p, s, k)
    ensures Tabled(s) && Whole(k)
  {
  }

  lemma MineIsReflexive(p: nat, k: Kernel)
    requires Whole(k)
    ensures Mine(p, k, k)
  {
  }

  lemma WriterHasLock(p: nat, s: Server, k: Kernel, r: Record)
    requires ServerOk(p, s, k) && s.writer && s.samewr[r] == 1
    ensures ModeOf(k, p, r) == Exclusive
  {
    assert RecordOk(s, ModeOf(k, p, r), r);
  }

  lemma ShowIsOk(p: nat, s: Server, k: Kernel)
    requires ServerOk(p, s, k) && s.doing.Show?
    ensures var x := Go(p, s, k); x.1 == k && ServerOk(p, x.0, k) && forall r: Record :: Excess(x.0, r) == Excess(s, r)
  {
    hide Count, Judge;
    var s' := Go(p, s, k).0;
    forall r: Record
      ensures RecordOk(s', ModeOf(k, p, r), r)
      ensures Excess(s', r) == Excess(s, r)
    {
      assert RecordOk(s, ModeOf(k, p, r), r);
      OpenCounts(s.conns, s.doing.fd, s.doing.r, RecordAt(k, s.doing.r), r);
    }
  }

  lemma CheckIsOk(p: nat, s: Server, k: Kernel)
    requires ServerOk(p, s, k) && s.doing.Check?
    ensures var x := Go(p, s, k); x.1 == k && ServerOk(p, x.0, k) && forall r: Record :: Excess(x.0, r) == Excess(s, r)
  {
    hide Excess, RecordsOk, ShownOk, Judge;
    var now := RecordAt(k, s.doing.r);
    var verdict := Judge(now, s.doing.line);
    if verdict.Accepted? {
      TurningIsOk(p, s, k, Store(s.doing.fd, s.doing.r, s.doing.line, now, verdict.change));
    } else {
      LeavingIsOk(p, s, k, s.doing.fd, s.doing.r);
    }
  }

  /** The one step that changes the file: nobody else has a session on the record,
      so what is overwritten is what the client was shown. */
  lemma StoreIsOk(p: nat, s: Server, k: Kernel)
    requires ServerOk(p, s, k) && s.doing.Store?
    ensures var x := Go(p, s, k); ServerOk(p, x.0, x.1) && Mine(p, k, x.1) && x.1.locks == k.locks && forall r: Record :: Excess(x.0, r) == Excess(s, r)
    ensures s.conns[s.doing.fd].shown == s.doing.read == RecordAt(k, s.doing.r)
  {
    hide Count, Judge;
    var fd, r0 := s.doing.fd, s.doing.r;
    var x := Go(p, s, k);
    SessionIsLocked(p, s, k, fd, r0);
    forall r: Record
      ensures RecordOk(x.0, ModeOf(x.1, p, r), r)
      ensures Excess(x.0, r) == Excess(s, r)
    {
      assert RecordOk(s, ModeOf(k, p, r), r);
    }
    forall other | other in s.conns && s.conns[other].Session? && other != fd
      ensures s.conns[other].r != r0
    {
      if s.conns[other].r == r0 {
        TwoSessionsCount(s.conns, fd, other, r0);
        assert false;
      }
    }
  }

  lemma UnlockIsOk(p: nat, s: Server, k: Kernel)
    requires ServerOk(p, s, k) && LocksOk(k) && s.doing.Unlock?
    ensures var x := Go(p, s, k); GoesOk(p, s, k, x.0, x.1)
  {
    hide Count, Judge;
    LockGranted(k, p, s.doing.r, Unlocked);
    var x := Go(p, s, k);
    forall r: Record
      ensures RecordOk(x.0, ModeOf(x.1, p, r), r)
      ensures Excess(x.0, r) == Excess(s, r)
    {
      assert RecordOk(s, ModeOf(k, p, r), r);
    }
  }

  lemma SameLocks(k: Kernel, k': Kernel)
    requires LocksOk(k) && k'.locks == k.locks
    ensures LocksOk(k')
  {
    assert forall p: nat, r: nat :: ModeOf(k', p, r) == ModeOf(k, p, r);
  }

  lemma GoIsOk(p: nat, s: Server, k: Kernel)
    requires ServerOk(p, s, k) && LocksOk(k)
    ensures var x := Go(p, s, k); GoesOk(p, s, k, x.0, x.1)
  {
    hide Excess, RecordsOk, ShownOk, Judge;
    MineIsReflexive(p, k);
    match s.doing
    case Free =>
    case Lock(fd, r) => AskIsOk(p, s, k);
    case Show(fd, r) => ShowIsOk(p, s, k);
    case Check(fd, r, line) => CheckIsOk(p, s, k);
    case Store(fd, r, line, read, change) =>
      StoreIsOk(p, s, k);
      SameLocks(k, Go(p, s, k).1);
    case Report(fd, r, read, change) => LeavingIsOk(p, s, k, fd, r);
    case Unlock(r) => UnlockIsOk(p, s, k);
  }

  /** The other servers do not notice. */
  lemma OthersStayOk(p: nat, q: nat, t: Server, k: Kernel, k': Kernel)
    requires ServerOk(q, t, k) && Mine(p, k, k') && LocksOk(k) && p != q
    ensures ServerOk(q, t, k')
  {
    hide Excess, RecordOk;
    forall r: Record
      ensures RecordOk(t, ModeOf(k', q, r), r)
    {
      assert RecordOk(t, ModeOf(k, q, r), r);
    }
    forall fd | fd in t.conns && t.conns[fd].Session?
      ensures RecordAt(k', t.conns[fd].r) == RecordAt(k, t.conns[fd].r)
    {
      SessionIsLocked(q, t, k, fd, t.conns[fd].r);
    }
  }

  // ----- the system -----

  ghost predicate SystemOk(y: System) {
    Sound(y) && LocksOk(y.kernel) && forall p :: 0 <= p < |y.servers| ==> ServerOk(p, y.servers[p], y.kernel)
  }

  lemma StartIsOk(y: System)
    requires Starts(y)
    ensures SystemOk(y) && forall p, r: Record :: 0 <= p < |y.servers| ==> Excess(y.servers[p], r) == 0
  {
    forall p, r: Record | 0 <= p < |y.servers|
      ensures RecordOk(y.servers[p], ModeOf(y.kernel, p, r), r) && Excess(y.servers[p], r) == 0
    {
      assert SessionsOn(map[], r) == {};
    }
  }

  /** The sessions the step drops by a failed read. */
  function Drops(y: System, st: Step, p: nat, r: Record): nat
    requires p < |y.servers|
  {
    if Enabled(y, st) && st.Takes? && st.p == p then Dropped(y.servers[p], st.e, r) else 0
  }

  lemma NextIsOk(y: System, st: Step)
    requires SystemOk(y)
    ensures SystemOk(Next(y, st))
    ensures forall p, r: Record :: 0 <= p < |y.servers| ==> Excess(Next(y, st).servers[p], r) == Excess(y.servers[p], r) + Drops(y, st, p, r)
  {
    hide ServerOk, Excess, LocksOk, Mine, Begin, Go, Sensible;
    if Enabled(y, st) {
      var s := y.servers[st.p];
      match st
      case Takes(p, e) =>
        EnabledIsSensible(y, st);
        BeginIsOk(p, s, y.kernel, e);
      case Goes(p) =>
        GoIsOk(p, s, y.kernel);
        var x := Go(p, s, y.kernel);
        forall q | 0 <= q < |y.servers| && q != p
          ensures ServerOk(q, y.servers[q], x.1)
        {
          OthersStayOk(p, q, y.servers[q], y.kernel, x.1);
        }
    }
  }

  lemma EnabledIsSensible(y: System, st: Step)
    requires Enabled(y, st) && st.Takes?
    ensures st.p < |y.servers| && Sensible(y.servers[st.p], st.e)
  {
  }
}
