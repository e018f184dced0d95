/** Any number of read and write servers on one record file.  A server works off one
    connection event at a time, but the system calls of different servers
    interleave freely; each step below makes at most one of them. */
module BookingProtocol {
  import opened BookingCommand

  const RECORDS: nat := 20

  /** A record: the last two digits of a user's id. */
  type Record = r: nat | 1 <= r <= RECORDS witness 1

  function RecordOf(id: int): Record
    requires FIRST_ID <= id <= LAST_ID
  {
    id % 100
  }

  /** The records are numbered as the users are. */
  lemma RecordOfId(id: int)
    requires FIRST_ID <= id <= LAST_ID
    ensures 902000 + RecordOf(id) == id
  {
  }

  // ----- the system: record locks and the record file -----

  datatype Mode = Unlocked | Shared | Exclusive

  /** locks[(p, r)] is the lock of process p on record r; record r is file[r - 1]. */
  datatype Kernel = Kernel(locks: map<(nat, nat), Mode>, file: seq<Booking>)

  predicate Whole(k: Kernel) { |k.file| == RECORDS }

  function ModeOf(k: Kernel, p: nat, r: nat): Mode {
    if (p, r) in k.locks then k.locks[(p, r)] else Unlocked
  }

  function WithLock(k: Kernel, p: nat, r: nat, m: Mode): (k': Kernel)
    ensures k'.file == k.file && ModeOf(k', p, r) == m
    ensures forall q, x :: q != p || x != r ==> ModeOf(k', q, x) == ModeOf(k, q, x)
  {
    k.(locks := k.locks[(p, r) := m])
  }

  /** A process never conflicts with its own locks. */
  predicate MayShare(k: Kernel, p: nat, r: nat) {
    forall key :: key in k.locks && key.1 == r && key.0 != p ==> k.locks[key] != Exclusive
  }

  predicate MayExclude(k: Kernel, p: nat, r: nat) {
    forall key :: key in k.locks && key.1 == r && key.0 != p ==> k.locks[key] == Unlocked
  }

  /** A shared lock is refused over another process's exclusive one, an exclusive lock
      over any lock of another process. */
  lemma ConflictsByMode(k: Kernel, p: nat, r: nat)
    ensures MayShare(k, p, r) <==> forall q: nat :: q != p ==> ModeOf(k, q, r) != Exclusive
    ensures MayExclude(k, p, r) <==> forall q: nat :: q != p ==> ModeOf(k, q, r) == Unlocked
  {
    forall q: nat | q != p && (q, r) in k.locks
      ensures MayShare(k, p, r) ==> ModeOf(k, q, r) != Exclusive
      ensures MayExclude(k, p, r) ==> ModeOf(k, q, r) == Unlocked
    {
      assert (q, r).1 == r && (q, r).0 != p;
    }
    forall key | key in k.locks && key.1 == r && key.0 != p
      ensures k.locks[key] == ModeOf(k, key.0, r)
    {
      assert key == (key.0, key.1);
    }
  }

  function RecordAt(k: Kernel, r: Record): Booking
    requires Whole(k)
  {
    k.file[r - 1]
  }

  // ----- one server -----

  /** An open connection: its id is awaited, or a session on a record is open, of
      which the client has been shown the contents.  A session waits for Exit on a
      read server and for a command on a write server. */
  datatype Conn = AwaitsId | Session(r: Record, shown: Booking)

  /** What the server is in the middle of. */
  datatype Doing =
    | Free
    | Lock(fd: nat, r: Record)
    | Show(fd: nat, r: Record)
    | Check(fd: nat, r: Record, line: string)
    | Store(fd: nat, r: Record, line: string, read: Booking, change: Booking)
    | Report(fd: nat, r: Record, read: Booking, change: Booking)
    | Unlock(r: Record)

  const TABLE: nat := 30

  /** conns are the open connections, readlc and samewr the server's own counts of
      readers and writers per record. */
  datatype Server = Server(writer: bool, conns: map<nat, Conn>, readlc: seq<int>, samewr: seq<int>, doing: Doing)

  predicate Tabled(s: Server) { |s.readlc| == TABLE && |s.samewr| == TABLE }

  function NewServer(writer: bool): Server {
    Server(writer, map[], seq(TABLE, _ => 0), seq(TABLE, _ => 0), Free)
  }

  /** A connection is made, a whole line arrives, the client closes, or the read
      fails. */
  datatype Event = Accept(fd: nat) | Line(fd: nat, line: string) | Eof(fd: nat) | Fail(fd: nat)

  predicate Sensible(s: Server, e: Event) { s.doing.Free? && (e.Accept? <==> e.fd !in s.conns) }

  function Close(s: Server, fd: nat): Server { s.(conns := s.conns - {fd}) }

  /** The end of a reader's session: the last one gives the lock up. */
  function ReaderLeaves(s: Server, fd: nat, r: Record): Server
    requires Tabled(s)
  {
    var left := s.readlc[r] - 1;
    Close(s, fd).(readlc := s.readlc[r := left], doing := if left == 0 then Unlock(r) else Free)
  }

  /** The end of a writer's session. */
  function WriterLeaves(s: Server, fd: nat, r: Record): Server
    requires Tabled(s)
  {
    Close(s, fd).(samewr := s.samewr[r := 0], doing := Unlock(r))
  }

  /** The server takes up an event.  A failed read closes the connection and does
      nothing else, even if a session is open on it. */
  function Begin(s: Server, e: Event): Server
    requires Tabled(s) && Sensible(s, e)
  {
    match e
    case Accept(fd) => s.(conns := s.conns[fd := AwaitsId])
    case Fail(fd) => Close(s, fd)
    case Eof(fd) =>
      if s.conns[fd].AwaitsId? then Close(s, fd)
      else if s.writer then WriterLeaves(s, fd, s.conns[fd].r)
      else ReaderLeaves(s, fd, s.conns[fd].r)
    case Line(fd, line) =>
      if s.conns[fd].AwaitsId? then
        if IsId(line) then s.(doing := Lock(fd, RecordOf(Number(line)))) else Close(s, fd)
      else if s.writer then s.(doing := Check(fd, s.conns[fd].r, line))
      else if line == "Exit" then ReaderLeaves(s, fd, s.conns[fd].r)
      else s
  }

  /** What an event does to the connections: a new one awaits an id; a line that is no
      id closes it, one that is makes the server ask for a lock; on a read server
      "Exit" and nothing else ends a session, on a write server a line is a command;
      the client's leaving and a failed read end the connection; no other connection
      is touched. */
  lemma BeginEffects(s: Server, e: Event)
    requires Tabled(s) && Sensible(s, e)
    ensures var s' := Begin(s, e);
      && (forall fd :: fd != e.fd ==> (fd in s'.conns <==> fd in s.conns) && (fd in s.conns ==> s'.conns[fd] == s.conns[fd]))
      && (e.Accept? ==> e.fd in s'.conns && s'.conns[e.fd].AwaitsId? && s'.doing.Free?)
      && (e.Fail? || e.Eof? ==> e.fd !in s'.conns)
      && (e.Line? && s.conns[e.fd].AwaitsId? ==>
            (e.fd in s'.conns <==> IsId(e.line)) && (s'.doing.Lock? <==> IsId(e.line)) && (s'.doing.Lock? ==> s'.doing.fd == e.fd && 902000 + s'.doing.r == Number(e.line)))
      && (e.Line? && s.conns[e.fd].Session? && !s.writer ==> (e.fd in s'.conns <==> e.line != "Exit") && (e.line != "Exit" ==> s' == s))
      && (e.Line? && s.conns[e.fd].Session? && s.writer ==> s' == s.(doing := Check(e.fd, s.conns[e.fd].r, e.line)))
  {
    hide Number;
  }

  /** The request for a lock.  A write server also looks whether it has a writer on
      the record itself, for its own lock would not stop it. */
  function Ask(p: nat, s: Server, k: Kernel, fd: nat, r: Record): (Server, Kernel)
    requires Tabled(s)
  {
    var refused := Close(s, fd).(doing := Free);
    if s.writer then
      if !MayExclude(k, p, r) then (refused, k)
      else if s.samewr[r] == 1 then (refused, WithLock(k, p, r, Exclusive))
      else (s.(samewr := s.samewr[r := 1], doing := Show(fd, r)), WithLock(k, p, r, Exclusive))
    else
      if !MayShare(k, p, r) then (refused, k)
      else (s.(readlc := s.readlc[r := s.readlc[r] + 1], doing := Show(fd, r)), WithLock(k, p, r, Shared))
  }

  /** The next system call of what the server is doing, and what follows from it. */
  function Go(p: nat, s: Server, k: Kernel): (Server, Kernel)
    requires Tabled(s) && Whole(k)
  {
    match s.doing
    case Free => (s, k)
    case Lock(fd, r) => Ask(p, s, k, fd, r)
    case Show(fd, r) => (s.(conns := s.conns[fd := Session(r, RecordAt(k, r))], doing := Free), k)
    case Check(fd, r, line) =>
      var verdict := Judge(RecordAt(k, r), line);
      if verdict.Accepted? then (s.(doing := Store(fd, r, line, RecordAt(k, r), verdict.change)), k)
      else (WriterLeaves(s, fd, r), k)
    case Store(fd, r, line, read, change) => (s.(doing := Report(fd, r, read, change)), k.(file := k.file[r - 1 := read.Plus(change)]))
    case Report(fd, r, read, change) => (WriterLeaves(s, fd, r), k)
    case Unlock(r) => (s.(doing := Free), WithLock(k, p, r, Unlocked))
  }

  // ----- all servers -----

  datatype System = System(servers: seq<Server>, kernel: Kernel)

  datatype Step = Takes(p: nat, e: Event) | Goes(p: nat)

  predicate Enabled(y: System, st: Step) {
    st.p < |y.servers| && match st case Takes(p, e) => Sensible(y.servers[p], e) case Goes(p) => !y.servers[p].doing.Free?
  }

  predicate Sound(y: System) { Whole(y.kernel) && forall p :: 0 <= p < |y.servers| ==> Tabled(y.servers[p]) }

  /** A step that is not enabled does not happen. */
  function Next(y: System, st: Step): (y': System)
    requires Sound(y)
    ensures Sound(y') && |y'.servers| == |y.servers|
  {
    if !Enabled(y, st) then y
    else
      match st
      case Takes(p, e) => y.(servers := y.servers[p := Begin(y.servers[p], e)])
      case Goes(p) =>
        var x := Go(p, y.servers[p], y.kernel);
        System(y.servers[p := x.0], x.1)
  }

  function Run(y: System, sts: seq<Step>): (y': System)
    requires Sound(y)
    ensures Sound(y') && |y'.servers| == |y.servers|
    decreases |sts|
  {
    if sts == [] then y else Run(Next(y, sts[0]), sts[1..])
  }

  /** The servers have just been started; kinds says which ones are write servers. */
  ghost predicate Starts(y: System) {
    && Whole(y.kernel) && y.kernel.locks == map[]
    && forall p :: 0 <= p < |y.servers| ==> y.servers[p] == NewServer(y.servers[p].writer)
  }

  /** Servers of any kinds can be started on any record file. */
  lemma AnyStart(kinds: seq<bool>, file: seq<Booking>) returns (y: System)
    requires |file| == RECORDS
    ensures Starts(y) && Sound(y) && |y.servers| == |kinds| && y.kernel.file == file
    ensures forall p :: 0 <= p < |kinds| ==> y.servers[p].writer == kinds[p]
  {
    y := System(seq(|kinds|, p requires 0 <= p < |kinds| => NewServer(kinds[p])), Kernel(map[], file));
  }

  /** Between two events a server takes up any event of a connection it has, and any
      new connection; in the middle of one it can always go on. */
  lemma StepsHappen(y: System, p: nat, e: Event)
    requires Sound(y) && p < |y.servers|
    ensures y.servers[p].doing.Free? && (e.Accept? <==> e.fd !in y.servers[p].conns) ==>
      Sensible(y.servers[p], e) && Next(y, Takes(p, e)) == y.(servers := y.servers[p := Begin(y.servers[p], e)])
    ensures !y.servers[p].doing.Free? ==>
      Next(y, Goes(p)) == System(y.servers[p := Go(p, y.servers[p], y.kernel).0], Go(p, y.servers[p], y.kernel).1)
  {
    hide Begin, Go;
  }
}
