/** The processes of the championship and the pipes between them.  A state of
    the network is the local state of the fourteen battle processes and the
    fifteen player processes and the contents of all pipes and FIFOs.  A run
    lets the processes take steps in any order. */
module TournamentNetwork {
  import opened TournamentBracket
  import opened TournamentBout
  import opened TournamentEvaluator

  /** A pipe or FIFO: everything written to it so far, and how much of that has
      been read.  A write appends, a read waits for an unread message. */
  datatype Pipe = Pipe(sent: seq<Status>, taken: nat) {
    predicate HasMessage() { taken < |sent| }
    function Front(): Status
      requires HasMessage()
    {
      sent[taken]
    }
    function Take(): Pipe { Pipe(sent, taken + 1) }
    function Put(s: Status): Pipe { Pipe(sent + [s], taken) }
  }

  const EMPTY := Pipe([], 0)

  /** Where a battle process is: the four transfers of a round, the wait for the
      loser's process, the four transfers of the relay loop, the final waits. */
  datatype BattlePc =
    | ReadLeft | ReadRight | WriteLeft | WriteRight
    | AwaitLoser
    | RelayRead | RelaySend | RelayReply | RelayReturn
    | AwaitWinner | AwaitRest | Finished

  datatype BattleProc = BattleProc(pc: BattlePc, left: Status, right: Status, rightLost: bool)

  /** Where a player process is: an agent opens its FIFO and reads its player
      from it; a player exchanges statuses with its parent; a loser of zone A
      opens an agent's FIFO and writes itself to it. */
  datatype PlayerPc = OpenRead | TakeFifo | Send | Receive | OpenWrite | PutFifo | Gone

  datatype PlayerProc = PlayerProc(pc: PlayerPc, st: Status, full: int)

  datatype Net = Net(
    battle: Battle -> BattleProc,
    player: PlayerId -> PlayerProc,
    up: Node -> Pipe,
    down: Node -> Pipe,
    fifo: PlayerId -> Pipe,
    announced: seq<int>)

  function Set<K(==, !new), V>(f: K -> V, k: K, v: V): (g: K -> V)
    ensures g(k) == v
    ensures forall x :: x != k ==> g(x) == f(x)
  {
    x => if x == k then v else f(x)
  }

  /** The head of the player's loops: go on sending while the battle lasts;
      once it has ended, leave, hand over to an agent, or recover and go on. */
  function Arrive(s: Status, full: int): PlayerProc {
    if !s.ended then PlayerProc(Send, s, full)
    else if s.hp <= 0 then
      if Upper(s.cur) then PlayerProc(OpenWrite, Revived(Entrant(s, full)).st, full)
      else PlayerProc(Gone, s.(ended := false), full)
    else if s.cur == A then PlayerProc(Gone, s.(ended := false), full)
    else PlayerProc(Send, Recovered(Entrant(s, full)).st, full)
  }

  /** The test at the head of a relay loop. */
  function RelayHead(b: Battle, q: BattleProc): BattleProc {
    var w := if q.rightLost then q.left else q.right;
    if w.hp > 0 && !(w.cur == A && w.ended) then q.(pc := RelayRead) else q.(pc := AwaitWinner)
  }

  function Mine(b: Battle, q: BattleProc): Node { if q.rightLost then Left(b) else Right(b) }

  function Lost(b: Battle, q: BattleProc): Node { if q.rightLost then Right(b) else Left(b) }

  function MyStatus(q: BattleProc): Status { if q.rightLost then q.left else q.right }

  function WithMyStatus(q: BattleProc, s: Status): BattleProc {
    if q.rightLost then q.(left := s) else q.(right := s)
  }

  predicate Exited(s: Net, n: Node) {
    match n
    case Fight(b) => s.battle(b).pc == Finished
    case Seat(p) => s.player(p).pc == Gone
  }

  /** The process can take its next step; otherwise it waits or has exited. */
  predicate Enabled(s: Net, n: Node) {
    match n
    case Fight(b) => BattleEnabled(s, b)
    case Seat(p) => PlayerEnabled(s, p)
  }

  predicate BattleEnabled(s: Net, b: Battle) {
    var q := s.battle(b);
    match q.pc
    case ReadLeft => s.up(Left(b)).HasMessage()
    case ReadRight => s.up(Right(b)).HasMessage()
    case WriteLeft => true
    case WriteRight => true
    case AwaitLoser => Exited(s, Lost(b, q))
    case RelayRead => s.up(Mine(b, q)).HasMessage()
    case RelaySend => true
    case RelayReply => s.down(Fight(b)).HasMessage()
    case RelayReturn => true
    case AwaitWinner => Exited(s, Mine(b, q))
    case AwaitRest => Exited(s, Lost(b, q))
    case Finished => false
  }

  /** Opening a FIFO waits for the other side: both ends open together, and that
      step is counted as the writer's. */
  predicate PlayerEnabled(s: Net, p: PlayerId) {
    var q := s.player(p);
    match q.pc
    case OpenRead => false
    case TakeFifo => s.fifo(p).HasMessage()
    case Send => true
    case Receive => s.down(Seat(p)).HasMessage()
    case OpenWrite => Upper(q.st.cur) && s.player(AgentFor(q.st.cur)).pc == OpenRead
    case PutFifo => Upper(q.st.cur)
    case Gone => false
  }

  // The moves a battle process makes; q is its next local state.

  function Become(s: Net, b: Battle, q: BattleProc): Net {
    s.(battle := Set(s.battle, b, q))
  }

  function ReadChild(s: Net, b: Battle, n: Node, q: BattleProc): Net {
    s.(battle := Set(s.battle, b, q), up := Set(s.up, n, s.up(n).Take()))
  }

  function WriteChild(s: Net, b: Battle, n: Node, x: Status, q: BattleProc): Net {
    s.(battle := Set(s.battle, b, q), down := Set(s.down, n, s.down(n).Put(x)))
  }

  function WriteParent(s: Net, b: Battle, x: Status, q: BattleProc): Net {
    s.(battle := Set(s.battle, b, q), up := Set(s.up, Fight(b), s.up(Fight(b)).Put(x)))
  }

  function ReadParent(s: Net, b: Battle, q: BattleProc): Net {
    s.(battle := Set(s.battle, b, q), down := Set(s.down, Fight(b), s.down(Fight(b)).Take()))
  }

  /** After the last write of a round: go on with the next round, or stop. */
  function RoundDone(b: Battle, q: BattleProc): BattleProc {
    if q.right.hp <= 0 || q.left.hp <= 0 then
      q.(rightLost := q.right.hp <= 0, pc := if b == A then AwaitWinner else AwaitLoser)
    else q.(pc := ReadLeft)
  }

  /** The champion the root prints when its battle stops. */
  function Announcement(b: Battle, q: BattleProc): seq<int> {
    if b == A && (q.right.hp <= 0 || q.left.hp <= 0) then [if q.right.hp > 0 then q.right.id else q.left.id] else []
  }

  function StepBattle(s: Net, b: Battle): Net
    requires BattleEnabled(s, b)
  {
    var q := s.battle(b);
    match q.pc
    case ReadLeft => ReadChild(s, b, Left(b), q.(pc := ReadRight, left := s.up(Left(b)).Front()))
    case ReadRight =>
      var r := Round(b, Pair(q.left, s.up(Right(b)).Front()));
      ReadChild(s, b, Right(b), q.(pc := WriteLeft, left := r.left, right := r.right))
    case WriteLeft => WriteChild(s, b, Left(b), q.left, q.(pc := WriteRight))
    case WriteRight =>
      WriteChild(s, b, Right(b), q.right, RoundDone(b, q)).(announced := s.announced + Announcement(b, q))
    case AwaitLoser => Become(s, b, RelayHead(b, q))
    case RelayRead => ReadChild(s, b, Mine(b, q), WithMyStatus(q, s.up(Mine(b, q)).Front()).(pc := RelaySend))
    case RelaySend => WriteParent(s, b, MyStatus(q), q.(pc := RelayReply))
    case RelayReply => ReadParent(s, b, WithMyStatus(q, s.down(Fight(b)).Front()).(pc := RelayReturn))
    case RelayReturn => WriteChild(s, b, Mine(b, q), MyStatus(q), RelayHead(b, q))
    case AwaitWinner => Become(s, b, q.(pc := if b == A then AwaitRest else Finished))
    case AwaitRest => Become(s, b, q.(pc := Finished))
  }

  function StepPlayer(s: Net, p: PlayerId): Net
    requires PlayerEnabled(s, p)
  {
    var q := s.player(p);
    match q.pc
    case TakeFifo =>
      var m := s.fifo(p).Front();
      s.(player := Set<PlayerId, PlayerProc>(s.player, p, Arrive(m, m.hp)), fifo := Set<PlayerId, Pipe>(s.fifo, p, s.fifo(p).Take()))
    case Send =>
      s.(player := Set<PlayerId, PlayerProc>(s.player, p, q.(pc := Receive)), up := Set(s.up, Seat(p), s.up(Seat(p)).Put(q.st)))
    case Receive =>
      s.(player := Set<PlayerId, PlayerProc>(s.player, p, Arrive(s.down(Seat(p)).Front(), q.full)),
         down := Set(s.down, Seat(p), s.down(Seat(p)).Take()))
    case OpenWrite =>
      var k := AgentFor(q.st.cur);
      s.(player := Set<PlayerId, PlayerProc>(Set<PlayerId, PlayerProc>(s.player, p, q.(pc := PutFifo)), k, s.player(k).(pc := TakeFifo)))
    case PutFifo =>
      var k := AgentFor(q.st.cur);
      s.(player := Set<PlayerId, PlayerProc>(s.player, p, q.(pc := Gone)), fifo := Set<PlayerId, Pipe>(s.fifo, k, s.fifo(k).Put(q.st)))
  }

  /** One step of the process at n. */
  function Step(s: Net, n: Node): Net
    requires Enabled(s, n)
  {
    match n
    case Fight(b) => StepBattle(s, b)
    case Seat(p) => StepPlayer(s, p)
  }

  /** All processes are running and nothing has been written yet. */
  function Init(t: Roster): Net
    requires ValidRoster(t)
  {
    Net(
      _ => BattleProc(ReadLeft, t[0], t[0], false),
      (p: PlayerId) => if p < 8 then Arrive(t[p], t[p].hp) else PlayerProc(OpenRead, t[0], 0),
      _ => EMPTY,
      _ => EMPTY,
      _ => EMPTY,
      [])
  }

  /** The state after scheduling the processes in the given order; a process
      that has to wait, or has exited, leaves the state as it is. */
  function Run(s: Net, schedule: seq<Node>): Net
    decreases |schedule|
  {
    if schedule == [] then s
    else
      var before := Run(s, schedule[..|schedule| - 1]);
      var n := schedule[|schedule| - 1];
      if Enabled(before, n) then Step(before, n) else before
  }

  /** How many of the scheduled turns were steps. */
  function StepsTaken(s: Net, schedule: seq<Node>): nat
    decreases |schedule|
  {
    if schedule == [] then 0
    else
      var n := schedule[|schedule| - 1];
      StepsTaken(s, schedule[..|schedule| - 1]) + if Enabled(Run(s, schedule[..|schedule| - 1]), n) then 1 else 0
  }
}
