/** What holds in every reachable state of the championship: every pipe has
    carried a prefix of the stream the plan gives for it, and every process
    stands exactly where its own reads and writes say it stands. */
module TournamentInvariant {
  import opened TournamentBracket
  import opened TournamentBout
  import opened TournamentEvaluator
  import opened TournamentStreams
  import opened TournamentNetwork
  import opened TournamentPlan

  ghost predicate PipeOk(stream: seq<Status>, p: Pipe) {
    p.sent <= stream && p.taken <= |p.sent|
  }

  /** How far a battle process has come: its reads from and writes to both
      children, its writes to and reads from its parent. */
  datatype Tally = Tally(ul: nat, ur: nat, dl: nat, dr: nat, us: nat, ds: nat)

  function TallyOf(s: Net, b: Battle): Tally {
    Tally(s.up(Left(b)).taken, s.up(Right(b)).taken, |s.down(Left(b)).sent|, |s.down(Right(b)).sent|,
          |s.up(Fight(b)).sent|, s.down(Fight(b)).taken)
  }

  /** The tally of a relay: the loser's side stands still after the last round. */
  function RelayTally(rightLost: bool, rounds: nat, uw: nat, dw: nat, us: nat, ds: nat): Tally {
    if rightLost then Tally(uw, rounds, dw, rounds, us, ds) else Tally(rounds, uw, rounds, dw, us, ds)
  }

  predicate RightDown(rs: seq<Pair>)
    requires |rs| >= 1
  {
    Last(rs).right.hp <= 0
  }

  /** A battle process in its rounds: lu is the stream of its left child. */
  ghost predicate FightingOk(q: BattleProc, c: Tally, rs: seq<Pair>, lu: seq<Status>) {
    match q.pc
    case ReadLeft => c.dl < |rs| && c == Tally(c.dl, c.dl, c.dl, c.dl, 0, 0)
    case ReadRight => c.dl < |rs| <= |lu| && c == Tally(c.dl + 1, c.dl, c.dl, c.dl, 0, 0) && q.left == lu[c.dl]
    case WriteLeft => c.dl < |rs| && c == Tally(c.dl + 1, c.dl + 1, c.dl, c.dl, 0, 0) && Pair(q.left, q.right) == rs[c.dl]
    case WriteRight => c.dr < |rs| && c == Tally(c.dr + 1, c.dr + 1, c.dr + 1, c.dr, 0, 0) && Pair(q.left, q.right) == rs[c.dr]
    case _ => false
  }

  /** A battle process after its rounds, other than the root's: nu and nd are its
      own streams to and from its parent. */
  ghost predicate RelayingOk(q: BattleProc, c: Tally, rs: seq<Pair>, nu: seq<Status>, nd: seq<Status>)
    requires |rs| >= 1
  {
    && q.rightLost == RightDown(rs)
    && |nu| == |nd|
    && match q.pc
       case AwaitLoser => c == RelayTally(q.rightLost, |rs|, |rs|, |rs|, 0, 0) && Pair(q.left, q.right) == Last(rs)
       case RelayRead => c == RelayTally(q.rightLost, |rs|, |rs| + c.us, |rs| + c.us, c.us, c.us) && c.us < |nu|
       case RelaySend =>
         && c == RelayTally(q.rightLost, |rs|, |rs| + c.us + 1, |rs| + c.us, c.us, c.us)
         && c.us < |nu| && MyStatus(q) == nu[c.us]
       case RelayReply => c == RelayTally(q.rightLost, |rs|, |rs| + c.ds + 1, |rs| + c.ds, c.ds + 1, c.ds) && c.ds < |nu|
       case RelayReturn =>
         && 1 <= c.ds <= |nu|
         && c == RelayTally(q.rightLost, |rs|, |rs| + c.ds, |rs| + c.ds - 1, c.ds, c.ds)
         && MyStatus(q) == nd[c.ds - 1]
       case AwaitWinner => c == RelayTally(q.rightLost, |rs|, |rs| + |nu|, |rs| + |nu|, |nu|, |nu|)
       case Finished => c == RelayTally(q.rightLost, |rs|, |rs| + |nu|, |rs| + |nu|, |nu|, |nu|)
       case _ => false
  }

  /** The root after its rounds. */
  ghost predicate ClosingOk(q: BattleProc, c: Tally, rs: seq<Pair>)
    requires |rs| >= 1
  {
    && q.rightLost == RightDown(rs)
    && Closing(q.pc)
    && c == Tally(|rs|, |rs|, |rs|, |rs|, 0, 0)
  }

  ghost predicate BattleOk(m: Plan, b: Battle, q: BattleProc, c: Tally) {
    && |m.rounds(b)| >= 1
    && (FightingOk(q, c, m.rounds(b), m.up(Left(b)))
        || if b == A then ClosingOk(q, c, m.rounds(b)) else RelayingOk(q, c, m.rounds(b), m.up(Fight(b)), m.down(Fight(b))))
  }

  /** A battle process waits for its children in this order. */
  ghost predicate ExitOk(s: Net, b: Battle, q: BattleProc) {
    && (b != A && (q.pc.RelayRead? || q.pc.RelaySend? || q.pc.RelayReply? || q.pc.RelayReturn? || q.pc.AwaitWinner?)
        ==> Exited(s, Lost(b, q)))
    && (q.pc.AwaitRest? ==> Exited(s, Mine(b, q)))
    && (q.pc.Finished? ==> Exited(s, Left(b)) && Exited(s, Right(b)))
  }

  /** A player process that has sent out so many statuses and got back so many
      replies. */
  ghost predicate PlayerOk(m: Plan, p: PlayerId, q: PlayerProc, out: nat, back: nat) {
    var n := Seat(p);
    var u := m.up(n);
    match q.pc
    case OpenRead => p >= 8 && out == back == 0
    case TakeFifo => p >= 8 && out == back == 0
    case Send => out == back < |u| && q.st == u[back] && q.full == m.full(n)
    case Receive => out == back + 1 <= |u| && q.st == u[back] && q.full == m.full(n)
    case OpenWrite => out == back == |u| && p < 8 && HandsOver(m, p, q)
    case PutFifo => out == back == |u| && p < 8 && HandsOver(m, p, q)
    case Gone => out == back == |u|
  }

  predicate HasFed(pc: PlayerPc) { pc.PutFifo? || pc.Gone? }

  predicate Unfed(pc: PlayerPc) { pc.OpenRead? || pc.TakeFifo? }

  /** An agent, its FIFO and the process that feeds it move in step. */
  ghost predicate FifoOk(agent: PlayerPc, feeder: PlayerPc, f: Pipe, u: seq<Status>) {
    && |u| >= 1
    && (agent.OpenRead? <==> !HasFed(feeder))
    && f.sent == (if feeder.Gone? then u[..1] else [])
    && f.taken == (if Unfed(agent) then 0 else 1)
    && (!Unfed(agent) ==> feeder.Gone?)
  }

  predicate Closing(pc: BattlePc) { pc.AwaitWinner? || pc.AwaitRest? || pc.Finished? }

  ghost predicate AnnouncedOk(m: Plan, s: Net) {
    var rs := m.rounds(A);
    && |rs| >= 1
    && s.announced == (if Closing(s.battle(A).pc) then [if RightDown(rs) then Last(rs).left.id else Last(rs).right.id] else [])
  }

  ghost predicate PipesOk(m: Plan, s: Net) {
    forall n: Node :: PipeOk(m.up(n), s.up(n)) && PipeOk(m.down(n), s.down(n))
  }

  ghost predicate BattlesOk(m: Plan, s: Net) {
    forall b: Battle :: BattleOk(m, b, s.battle(b), TallyOf(s, b)) && ExitOk(s, b, s.battle(b))
  }

  ghost predicate PlayersOk(m: Plan, s: Net) {
    forall p: PlayerId :: PlayerOk(m, p, s.player(p), |s.up(Seat(p)).sent|, s.down(Seat(p)).taken)
  }

  ghost predicate FifosOk(m: Plan, s: Net) {
    forall k: PlayerId :: k >= 8 ==> FifoOk(s.player(k).pc, s.player(m.Feeder(k)).pc, s.fifo(k), m.up(Seat(k)))
  }

  ghost predicate Inv(m: Plan, s: Net) {
    PipesOk(m, s) && BattlesOk(m, s) && PlayersOk(m, s) && FifosOk(m, s) && AnnouncedOk(m, s)
  }
}
