/** What holds over whole runs of any number of read and write servers. */
module BookingRuns {
  import opened BookingCommand
  import opened BookingProtocol
  import opened BookingInvariant
  import opened BookingInts

  lemma {:induction false} RunIsOk(y: System, sts: seq<Step>)
    requires SystemOk(y)
    ensures SystemOk(Run(y, sts))
    decreases |sts|
  {
    hide SystemOk, Next;
    OkIsSound(y);
    if sts != [] {
      NextIsOk(y, sts[0]);
      RunIsOk(Next(y, sts[0]), sts[1..]);
    }
  }

  lemma OkIsSound(y: System)
    requires SystemOk(y)
    ensures Sound(y)
  {
  }

  /** A state that the servers can get into. */
  ghost predicate Reached(y0: System, sts: seq<Step>, y: System) {
    Starts(y0) && Sound(y0) && y == Run(y0, sts)
  }

  lemma ReachedIsOk(y0: System, sts: seq<Step>, y: System)
    requires Reached(y0, sts, y)
    ensures SystemOk(y)
  {
    StartIsOk(y0);
    RunIsOk(y0, sts);
  }

  predicate InSession(y: System, p: nat, fd: nat, r: Record) {
    p < |y.servers| && HasSession(y.servers[p].conns, fd, r)
  }

  /** An open session always has its lock. */
  lemma SessionHasLock(y0: System, sts: seq<Step>, y: System, p: nat, fd: nat, r: Record)
    requires Reached(y0, sts, y) && InSession(y, p, fd, r)
    ensures ModeOf(y.kernel, p, r) == if y.servers[p].writer then Exclusive else Shared
  {
    ReachedIsOk(y0, sts, y);
    SessionIsLocked(p, y.servers[p], y.kernel, fd, r);
  }

  /** Readers/writer exclusion: a record has at most one session for commands in the
      whole system, and none while any reading session is open. */
  lemma Exclusion(y0: System, sts: seq<Step>, y: System, p: nat, fd: nat, q: nat, other: nat, r: Record)
    requires Reached(y0, sts, y) && InSession(y, p, fd, r) && InSession(y, q, other, r)
    requires y.servers[p].writer
    ensures p == q && fd == other
  {
    hide Run;
    ReachedIsOk(y0, sts, y);
    SessionHasLock(y0, sts, y, p, fd, r);
    SessionHasLock(y0, sts, y, q, other, r);
    if p == q && fd != other {
      SessionIsLocked(p, y.servers[p], y.kernel, fd, r);
      TwoSessionsCount(y.servers[p].conns, fd, other, r);
    }
  }

  /** While a session is open its record stays as the client has been shown it,
      until the client's own command has been carried out. */
  lemma ShownStaysTrue(y0: System, sts: seq<Step>, y: System, p: nat, fd: nat, r: Record)
    requires Reached(y0, sts, y) && InSession(y, p, fd, r)
    requires y.servers[p].doing.Report? ==> y.servers[p].doing.fd != fd
    ensures y.servers[p].conns[fd].shown == RecordAt(y.kernel, r)
  {
    ReachedIsOk(y0, sts, y);
    assert ShownOk(y.servers[p], y.kernel);
  }

  /** What a server that is about to write has in hand. */
  lemma StoreInHand(p: nat, s: Server, k: Kernel)
    requires ServerOk(p, s, k) && s.doing.Store?
    ensures var d := s.doing;
      && HasSession(s.conns, d.fd, d.r) && RecordAt(k, d.r) == d.read == s.conns[d.fd].shown
      && WellFormed(d.line) && d.change == Meaning(d.line)
  {
    hide RecordsOk, Judge, WellFormed, Meaning;
    AcceptedMeans(s.doing.read, s.doing.line);
  }

  lemma StoreWrites(y: System, p: nat)
    requires Sound(y) && p < |y.servers| && y.servers[p].doing.Store?
    ensures var d := y.servers[p].doing; RecordAt(Next(y, Goes(p)).kernel, d.r) == d.read.Plus(d.change)
  {
    hide Judge, Ask, MayShare, MayExclude, Begin, WriterLeaves;
  }

  /** No lost update: when a server writes, the record still holds what it read for
      the check, which is what it showed to that client at the start; what it adds
      is what the client's command asks for. */
  lemma NoLostUpdate(y0: System, sts: seq<Step>, y: System, p: nat)
    requires Reached(y0, sts, y) && p < |y.servers| && y.servers[p].doing.Store?
    ensures var d := y.servers[p].doing;
      && InSession(y, p, d.fd, d.r)
      && RecordAt(y.kernel, d.r) == d.read == y.servers[p].conns[d.fd].shown
      && WellFormed(d.line) && d.change == Meaning(d.line)
      && RecordAt(Next(y, Goes(p)).kernel, d.r) == RecordAt(y.kernel, d.r).Plus(d.change)
  {
    hide Next, ServerOk, Run, WellFormed, Meaning, HasSession;
    ReachedIsOk(y0, sts, y);
    StoreInHand(p, y.servers[p], y.kernel);
    StoreWrites(y, p);
  }

  /** What the server then reports to the client is what it was shown at the start
      plus its change. */
  lemma ReportIsExact(y0: System, sts: seq<Step>, y: System, p: nat)
    requires Reached(y0, sts, y) && p < |y.servers| && y.servers[p].doing.Report?
    ensures var d := y.servers[p].doing;
      InSession(y, p, d.fd, d.r) && RecordAt(y.kernel, d.r) == y.servers[p].conns[d.fd].shown.Plus(d.change)
  {
    ReachedIsOk(y0, sts, y);
    assert DoingOk(y.servers[p], y.kernel);
  }

  // ----- whose record a session is on -----

  /** The number last sent as an id on a connection, after one more step. */
  function IdAfter(y: System, st: Step, p: nat, fd: nat, id: int): int
    requires p < |y.servers|
  {
    if !st.Takes? || st.p != p || st.e.fd != fd || !Enabled(y, st) then id
    else if st.e.Accept? then 0
    else if st.e.Line? && y.servers[p].conns[fd].AwaitsId? && IsId(st.e.line) then Number(st.e.line)
    else id
  }

  function LastId(y: System, sts: seq<Step>, p: nat, fd: nat, id: int): int
    requires Sound(y) && p < |y.servers|
    decreases |sts|
  {
    if sts == [] then id else LastId(Next(y, sts[0]), sts[1..], p, fd, IdAfter(y, sts[0], p, fd, id))
  }

  /** A session on the connection, or one being opened, is on the record of this id. */
  predicate OfId(s: Server, fd: nat, id: int) {
    && (fd in s.conns && s.conns[fd].Session? ==> 902000 + s.conns[fd].r == id)
    && ((s.doing.Lock? || s.doing.Show?) && s.doing.fd == fd ==> 902000 + s.doing.r == id)
  }

  lemma BeginOfId(s: Server, e: Event, fd: nat, id: int)
    requires Tabled(s) && Sensible(s, e) && OfId(s, fd, id)
    ensures OfId(Begin(s, e), fd, if e.fd != fd then id else if e.Accept? then 0 else if e.Line? && s.conns[fd].AwaitsId? && IsId(e.line) then Number(e.line) else id)
  {
    hide IsId, Number;
    BeginEffects(s, e);
    if e.Line? && s.conns[e.fd].AwaitsId? && IsId(e.line) {
      IdMeans(e.line);
    }
  }

  lemma IdMeans(line: string)
    requires IsId(line)
    ensures (forall k :: 0 <= k < |line| ==> IsDigit(line[k])) && FIRST_ID <= Number(line) <= LAST_ID
    ensures 902000 + RecordOf(Number(line)) == Number(line)
  {
    hide Number;
    RecordOfId(Number(line));
  }

  lemma GoOfId(p: nat, s: Server, k: Kernel, fd: nat, id: int)
    requires Tabled(s) && Whole(k) && OfId(s, fd, id)
    ensures OfId(Go(p, s, k).0, fd, id)
  {
    hide Judge, MayShare, MayExclude, WithLock;
  }

  lemma NextOfId(y: System, st: Step, p: nat, fd: nat, id: int)
    requires Sound(y) && p < |y.servers| && OfId(y.servers[p], fd, id)
    ensures OfId(Next(y, st).servers[p], fd, IdAfter(y, st, p, fd, id))
  {
    hide Begin, Go, OfId, IsId, Number, Sensible;
    if Enabled(y, st) && st.p == p {
      match st
      case Takes(_, e) =>
        EnabledIsSensible(y, st);
        BeginOfId(y.servers[p], e, fd, id);
      case Goes(_) => GoOfId(p, y.servers[p], y.kernel, fd, id);
    }
  }

  lemma {:induction false} RunOfId(y: System, sts: seq<Step>, p: nat, fd: nat, id: int)
    requires Sound(y) && p < |y.servers| && OfId(y.servers[p], fd, id)
    ensures OfId(Run(y, sts).servers[p], fd, LastId(y, sts, p, fd, id))
    decreases |sts|
  {
    hide OfId, Next, IdAfter;
    if sts != [] {
      NextOfId(y, sts[0], p, fd, id);
      RunOfId(Next(y, sts[0]), sts[1..], p, fd, IdAfter(y, sts[0], p, fd, id));
    }
  }

  /** Whatever the interleaving, a session is on the record of the id that was last
      sent on its connection. */
  lemma SessionIsOfItsId(y0: System, sts: seq<Step>, y: System, p: nat, fd: nat, r: Record)
    requires Reached(y0, sts, y) && InSession(y, p, fd, r)
    ensures LastId(y0, sts, p, fd, 0) == 902000 + r
  {
    hide LastId, Run;
    RunOfId(y0, sts, p, fd, 0);
  }

  // ----- locks that outlive their sessions -----

  /** The sessions on a record that failed reads have dropped on server p. */
  function DroppedBy(y: System, sts: seq<Step>, p: nat, r: Record): nat
    requires Sound(y) && p < |y.servers|
    decreases |sts|
  {
    if sts == [] then 0 else Drops(y, sts[0], p, r) + DroppedBy(Next(y, sts[0]), sts[1..], p, r)
  }

  lemma {:induction false} ExcessGrows(y: System, sts: seq<Step>, p: nat, r: Record)
    requires SystemOk(y) && p < |y.servers|
    ensures SystemOk(Run(y, sts))
    ensures Excess(Run(y, sts).servers[p], r) == Excess(y.servers[p], r) + DroppedBy(y, sts, p, r)
    decreases |sts|
  {
    hide SystemOk, Next, Excess, Drops;
    OkIsSound(y);
    if sts != [] {
      NextIsOk(y, sts[0]);
      ExcessGrows(Next(y, sts[0]), sts[1..], p, r);
    }
  }

  /** What makes a server hold a record: a session on it, one that is just being
      opened, one that a failed read has dropped, or a lock it has not got round to
      giving up. */
  ghost predicate Holds(y0: System, sts: seq<Step>, y: System, p: nat, r: Record)
    requires Sound(y0) && p < |y.servers| == |y0.servers|
  {
    var s := y.servers[p];
    (exists fd :: InSession(y, p, fd, r)) || Pending(s, r) > 0 || DroppedBy(y0, sts, p, r) > 0 || s.doing == Unlock(r)
  }

  lemma HoldsByCount(y0: System, sts: seq<Step>, y: System, p: nat, r: Record)
    requires Reached(y0, sts, y) && p < |y.servers|
    ensures Tabled(y.servers[p])
    ensures Holds(y0, sts, y, p, r) <==> Tally(y.servers[p], r) > 0 || y.servers[p].doing == Unlock(r)
    ensures ModeOf(y.kernel, p, r) != Unlocked <==> Holds(y0, sts, y, p, r)
    ensures y.servers[p].writer ==> Tally(y.servers[p], r) <= 1
    ensures ModeOf(y.kernel, p, r) != if y.servers[p].writer then Shared else Exclusive
  {
    hide Run;
    StartIsOk(y0);
    ExcessGrows(y0, sts, p, r);
    var s := y.servers[p];
    assert RecordOk(s, ModeOf(y.kernel, p, r), r);
    assert Excess(y0.servers[p], r) == 0;
    assert Tally(s, r) == Count(s.conns, r) + Pending(s, r) + DroppedBy(y0, sts, p, r);
    if Count(s.conns, r) > 0 {
      var fd :| fd in SessionsOn(s.conns, r);
      assert InSession(y, p, fd, r);
    }
    if fd :| InSession(y, p, fd, r) {
      SessionCounts(s.conns, fd, r);
    }
  }

  /** Between two events a server holds the lock on a record exactly if it has a
      session on it, or a failed read has dropped one: such a lock is never given
      up again. */
  lemma LockMeansSession(y0: System, sts: seq<Step>, y: System, p: nat, r: Record)
    requires Reached(y0, sts, y) && p < |y.servers| && y.servers[p].doing.Free?
    ensures ModeOf(y.kernel, p, r) != Unlocked
      <==> (exists fd :: InSession(y, p, fd, r)) || DroppedBy(y0, sts, p, r) > 0
  {
    hide Run;
    HoldsByCount(y0, sts, y, p, r);
  }

  /** Only the servers have locks. */
  ghost predicate NoStrangers(y: System) {
    forall q: nat, r: nat :: q >= |y.servers| ==> ModeOf(y.kernel, q, r) == Unlocked
  }

  lemma {:induction false} StrangersStayOut(y: System, sts: seq<Step>)
    requires SystemOk(y) && NoStrangers(y)
    ensures NoStrangers(Run(y, sts))
    decreases |sts|
  {
    hide SystemOk, Next, NoStrangers;
    OkIsSound(y);
    if sts != [] {
      NextIsOk(y, sts[0]);
      NoNewStrangers(y, sts[0]);
      StrangersStayOut(Next(y, sts[0]), sts[1..]);
    }
  }

  lemma NoNewStrangers(y: System, st: Step)
    requires SystemOk(y) && NoStrangers(y)
    ensures NoStrangers(Next(y, st))
  {
    hide ServerOk, Excess, LocksOk, Begin, Go, Sensible;
    if Enabled(y, st) && st.Goes? {
      GoIsOk(st.p, y.servers[st.p], y.kernel);
    }
  }

  /** The answer "Locked.": the request for a record is refused exactly if some server
      holds the record and it or the one that asks is a write server. */
  lemma LockedExactly(y0: System, sts: seq<Step>, y: System, p: nat)
    requires Reached(y0, sts, y) && p < |y.servers| && y.servers[p].doing.Lock?
    ensures var s, r := y.servers[p], y.servers[p].doing.r;
      s.doing.fd !in Next(y, Goes(p)).servers[p].conns
      <==> exists q: nat :: q < |y.servers| && Holds(y0, sts, y, q, r) && (s.writer || y.servers[q].writer)
  {
    hide Run, SystemOk, Holds, Next, ServerOk;
    ReachedIsOk(y0, sts, y);
    var s, k := y.servers[p], y.kernel;
    var fd, r := s.doing.fd, s.doing.r;
    AskerIsOpen(y, p);
    RefusedMeans(y, p);
    HoldsByCount(y0, sts, y, p, r);
    if q: nat :| q < |y.servers| && Holds(y0, sts, y, q, r) && (s.writer || y.servers[q].writer) {
      HoldsByCount(y0, sts, y, q, r);
    }
    if q: nat :| q != p && ModeOf(k, q, r) != Unlocked && (s.writer || ModeOf(k, q, r) == Exclusive) {
      StartIsOk(y0);
      StrangersStayOut(y0, sts);
      assert q < |y.servers|;
      HoldsByCount(y0, sts, y, q, r);
      assert Holds(y0, sts, y, q, r);
    }
  }

  lemma AskerIsOpen(y: System, p: nat)
    requires SystemOk(y) && p < |y.servers| && y.servers[p].doing.Lock?
    ensures Sound(y) && y.servers[p].doing.fd in y.servers[p].conns
  {
    hide RecordsOk, ShownOk;
    assert ServerOk(p, y.servers[p], y.kernel);
  }

  /** A request is refused over another process's lock, or a writer of one's own. */
  lemma RefusedMeans(y: System, p: nat)
    requires Sound(y) && p < |y.servers| && y.servers[p].doing.Lock? && y.servers[p].doing.fd in y.servers[p].conns
    ensures var s, k, r := y.servers[p], y.kernel, y.servers[p].doing.r;
      s.doing.fd !in Next(y, Goes(p)).servers[p].conns
      <==> ((s.writer && s.samewr[r] == 1)
            || exists q: nat :: q != p && ModeOf(k, q, r) != Unlocked && (s.writer || ModeOf(k, q, r) == Exclusive))
  {
    var s, k, r := y.servers[p], y.kernel, y.servers[p].doing.r;
    ConflictsByMode(k, p, r);
    assert Next(y, Goes(p)).servers[p] == Ask(p, s, k, s.doing.fd, r).0;
  }

  // ----- the record file -----

  /** What the commands carried out on a record in a run ask for, added up. */
  function Changes(y: System, sts: seq<Step>, r: Record): Booking
    requires Sound(y)
    decreases |sts|
  {
    if sts == [] then ZERO else ChangeOf(y, sts[0], r).Plus(Changes(Next(y, sts[0]), sts[1..], r))
  }

  /** What the command asks for whose change the step writes to the record. */
  function ChangeOf(y: System, st: Step, r: Record): Booking {
    if Enabled(y, st) && st.Goes? && y.servers[st.p].doing.Store? && y.servers[st.p].doing.r == r then Asked(y.servers[st.p].doing.line)
    else ZERO
  }

  function Asked(line: string): Booking { if WellFormed(line) then Meaning(line) else ZERO }

  lemma StepChanges(y: System, st: Step, r: Record)
    requires SystemOk(y)
    ensures RecordAt(Next(y, st).kernel, r) == RecordAt(y.kernel, r).Plus(ChangeOf(y, st, r))
    ensures RecordAt(y.kernel, r).Allowed() ==> RecordAt(Next(y, st).kernel, r).Allowed()
  {
    hide RecordsOk, ShownOk, LocksOk, Begin, Asked;
    if Enabled(y, st) && st.Goes? {
      assert ServerOk(st.p, y.servers[st.p], y.kernel);
      GoChanges(st.p, y.servers[st.p], y.kernel, r);
    }
  }

  lemma GoChanges(p: nat, s: Server, k: Kernel, r: Record)
    requires ServerOk(p, s, k)
    ensures var k' := Go(p, s, k).1;
      Whole(k') && RecordAt(k', r) == if s.doing.Store? && s.doing.r == r then RecordAt(k, r).Plus(Asked(s.doing.line)) else RecordAt(k, r)
    ensures s.doing.Store? && s.doing.r == r ==> RecordAt(k, r).Plus(Asked(s.doing.line)).Allowed()
  {
    hide RecordsOk, ShownOk, MayShare, MayExclude, Judge, WellFormed, Meaning;
    if s.doing.Store? {
      AcceptedMeans(s.doing.read, s.doing.line);
    }
  }

  /** Conservation: over every run a record is its first contents plus what all
      commands carried out on it asked for, and it never leaves its limits. */
  lemma {:induction false} Conservation(y: System, sts: seq<Step>, r: Record)
    requires SystemOk(y)
    ensures RecordAt(Run(y, sts).kernel, r) == RecordAt(y.kernel, r).Plus(Changes(y, sts, r))
    ensures RecordAt(y.kernel, r).Allowed() ==> RecordAt(Run(y, sts).kernel, r).Allowed()
    decreases |sts|
  {
    hide SystemOk, Next, ChangeOf;
    OkIsSound(y);
    if sts != [] {
      StepChanges(y, sts[0], r);
      NextIsOk(y, sts[0]);
      Conservation(Next(y, sts[0]), sts[1..], r);
    }
  }

  /** As long as the file starts within its limits, 32-bit ints do not change the
      verdict on any command of short pieces, in whatever state it is checked. */
  lemma ShortCommandsFitInts(y0: System, sts: seq<Step>, y: System, p: nat)
    requires Reached(y0, sts, y) && p < |y.servers| && y.servers[p].doing.Check?
    requires RecordAt(y0.kernel, y.servers[p].doing.r).Allowed()
    requires ShortTokens(y.servers[p].doing.line, 8)
    ensures var d := y.servers[p].doing;
      JudgeInInts(RecordAt(y.kernel, d.r), d.line) == Judge(RecordAt(y.kernel, d.r), d.line)
  {
    hide Run, ShortTokens;
    StartIsOk(y0);
    var d := y.servers[p].doing;
    Conservation(y0, sts, d.r);
    if WellFormed(d.line) {
      ShortLinesAreSafe(RecordAt(y.kernel, d.r), d.line);
    }
  }

  /** Conservation item by item. */
  lemma ConservationByItem(y: System, sts: seq<Step>, r: Record)
    requires SystemOk(y)
    ensures var now, old', sum := RecordAt(Run(y, sts).kernel, r), RecordAt(y.kernel, r), Changes(y, sts, r);
      && now.food == old'.food + sum.food && now.concert == old'.concert + sum.concert && now.electronics == old'.electronics + sum.electronics
      && (old'.food >= 0 && old'.concert >= 0 && old'.electronics >= 0 && old'.food + old'.concert + old'.electronics <= 15 ==>
            now.food >= 0 && now.concert >= 0 && now.electronics >= 0 && now.food + now.concert + now.electronics <= 15)
  {
    hide SystemOk, Run, Changes;
    Conservation(y, sts, r);
  }
}
