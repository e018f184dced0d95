/** Every step is work done, and the plan says how much work there is: runs of
    the championship end. */
module TournamentTermination {
  import opened TournamentBracket
  import opened TournamentBout
  import opened TournamentEvaluator
  import opened TournamentStreams
  import opened TournamentNetwork
  import opened TournamentPlan
  import opened TournamentInvariant
  import opened TournamentBattleSteps
  import opened TournamentPlayerSteps
  import opened TournamentRuns

  const NODES: seq<Node> := [
    Fight(A), Fight(B), Fight(C), Fight(D), Fight(E), Fight(F), Fight(G),
    Fight(H), Fight(I), Fight(J), Fight(K), Fight(L), Fight(M), Fight(N),
    Seat(0), Seat(1), Seat(2), Seat(3), Seat(4), Seat(5), Seat(6), Seat(7),
    Seat(8), Seat(9), Seat(10), Seat(11), Seat(12), Seat(13), Seat(14)]

  function BattleStage(pc: BattlePc): nat {
    match pc
    case ReadLeft => 0 case ReadRight => 0 case WriteLeft => 0 case WriteRight => 0
    case AwaitLoser => 1
    case RelayRead => 2 case RelaySend => 2 case RelayReply => 2 case RelayReturn => 2
    case AwaitWinner => 3
    case AwaitRest => 4
    case Finished => 5
  }

  function PlayerStage(pc: PlayerPc): nat {
    match pc
    case OpenRead => 0 case TakeFifo => 1 case Send => 2 case Receive => 2
    case OpenWrite => 3 case PutFifo => 4 case Gone => 5
  }

  /** All transfers of a process so far, and the stage it has reached. */
  function Work(s: Net, n: Node): nat {
    match n
    case Fight(b) => var c := TallyOf(s, b); c.ul + c.ur + c.dl + c.dr + c.us + c.ds + BattleStage(s.battle(b).pc)
    case Seat(p) => |s.up(n).sent| + s.down(n).taken + PlayerStage(s.player(p).pc)
  }

  /** All transfers the plan has in store for a process. */
  function Limit(m: Plan, n: Node): nat {
    match n
    case Fight(b) =>
      |m.up(Left(b))| + |m.up(Right(b))| + |m.down(Left(b))| + |m.down(Right(b))| + |m.up(n)| + |m.down(n)| + 5
    case Seat(p) => |m.up(n)| + |m.down(n)| + 5
  }

  function Sum(f: Node -> nat, ns: seq<Node>): nat {
    if ns == [] then 0 else f(ns[0]) + Sum(f, ns[1..])
  }

  function Done(s: Net): Node -> nat { n => Work(s, n) }

  function Total(m: Plan): nat { Sum(n => Limit(m, n), NODES) }

  lemma {:induction false} SumGrows(f: Node -> nat, g: Node -> nat, ns: seq<Node>, n: Node)
    requires forall x :: f(x) <= g(x)
    ensures Sum(f, ns) <= Sum(g, ns)
    ensures n in ns && f(n) < g(n) ==> Sum(f, ns) < Sum(g, ns)
  {
    if ns != [] {
      SumGrows(f, g, ns[1..], n);
    }
  }

  lemma Listed(n: Node)
    ensures n in NODES
  {
    match n
    case Fight(b) => ListedBattle(b);
    case Seat(p) => assert NODES[14 + p] == Seat(p);
  }

  lemma ListedBattle(b: Battle)
    ensures Fight(b) in NODES
  {
    match b
    case A => assert NODES[0] == Fight(b);
    case B => assert NODES[1] == Fight(b);
    case C => assert NODES[2] == Fight(b);
    case D => assert NODES[3] == Fight(b);
    case E => assert NODES[4] == Fight(b);
    case F => assert NODES[5] == Fight(b);
    case G => assert NODES[6] == Fight(b);
    case H => assert NODES[7] == Fight(b);
    case I => assert NODES[8] == Fight(b);
    case J => assert NODES[9] == Fight(b);
    case K => assert NODES[10] == Fight(b);
    case L => assert NODES[11] == Fight(b);
    case M => assert NODES[12] == Fight(b);
    case N => assert NODES[13] == Fight(b);
  }

  lemma WorkIsLimited(m: Plan, s: Net, n: Node)
    requires PipesOk(m, s)
    ensures Work(s, n) <= Limit(m, n)
  {
    hide Left, Right;
    assert PipeOk(m.up(n), s.up(n)) && PipeOk(m.down(n), s.down(n));
    match n
    case Fight(b) =>
      TallyIs(s, b);
      assert PipeOk(m.up(Left(b)), s.up(Left(b))) && PipeOk(m.down(Left(b)), s.down(Left(b)));
      assert PipeOk(m.up(Right(b)), s.up(Right(b))) && PipeOk(m.down(Right(b)), s.down(Right(b)));
    case Seat(p) =>
  }

  ghost predicate MoreWork(s: Net, s': Net, n: Node) {
    (forall x: Node :: Work(s, x) <= Work(s', x)) && Work(s, n) < Work(s', n)
  }

  lemma OthersKeepWork(s: Net, s': Net, b: Battle)
    requires OnlyBattle(s, s', b) && Work(s, Fight(b)) < Work(s', Fight(b))
    ensures MoreWork(s, s', Fight(b))
  {
    hide Left, Right, TallyOf;
    forall x: Node
      ensures Work(s, x) <= Work(s', x)
    {
      match x
      case Fight(c) =>
      case Seat(p) =>
    }
  }

  lemma RoundWorks(s: Net, b: Battle)
    requires BattleEnabled(s, b)
    requires s.battle(b).pc.ReadLeft? || s.battle(b).pc.ReadRight? || s.battle(b).pc.WriteLeft?
    ensures MoreWork(s, StepBattle(s, b), Fight(b))
  {
    hide Left, Right, TallyOf, Round, MoreWork, ReadChild, WriteChild;
    var q := s.battle(b);
    match q.pc
    case ReadLeft => BattleReads(s, b, Left(b), q.(pc := ReadRight, left := s.up(Left(b)).Front()));
    case ReadRight =>
      var r := Round(b, Pair(q.left, s.up(Right(b)).Front()));
      BattleReads(s, b, Right(b), q.(pc := WriteLeft, left := r.left, right := r.right));
    case WriteLeft => BattleWrites(s, b, Left(b), q.left, q.(pc := WriteRight));
  }

  lemma RelayWorks(s: Net, b: Battle)
    requires BattleEnabled(s, b)
    requires s.battle(b).pc.RelayRead? || s.battle(b).pc.RelayReturn?
    ensures MoreWork(s, StepBattle(s, b), Fight(b))
  {
    hide Left, Right, TallyOf, MoreWork, ReadChild, WriteChild;
    var q := s.battle(b);
    match q.pc
    case RelayRead => BattleReads(s, b, Mine(b, q), WithMyStatus(q, s.up(Mine(b, q)).Front()).(pc := RelaySend));
    case RelayReturn => BattleWrites(s, b, Mine(b, q), MyStatus(q), RelayHead(b, q));
  }

  lemma ParentWorks(s: Net, b: Battle)
    requires BattleEnabled(s, b) && b != A
    requires s.battle(b).pc.RelaySend? || s.battle(b).pc.RelayReply?
    ensures MoreWork(s, StepBattle(s, b), Fight(b))
  {
    hide Left, Right, TallyOf, MoreWork;
    var q := s.battle(b);
    match q.pc
    case RelaySend =>
      WriteParentMove(s, b, MyStatus(q), q.(pc := RelayReply));
      OthersKeepWork(s, StepBattle(s, b), b);
    case RelayReply =>
      ReadParentMove(s, b, WithMyStatus(q, s.down(Fight(b)).Front()).(pc := RelayReturn));
      OthersKeepWork(s, StepBattle(s, b), b);
  }

  lemma WaitWorks(s: Net, b: Battle)
    requires BattleEnabled(s, b)
    requires s.battle(b).pc.AwaitLoser? || s.battle(b).pc.AwaitWinner? || s.battle(b).pc.AwaitRest?
    ensures MoreWork(s, StepBattle(s, b), Fight(b))
  {
    hide Left, Right, TallyOf, MoreWork;
    NoPipe(s, StepBattle(s, b), b);
    OthersKeepWork(s, StepBattle(s, b), b);
  }

  lemma BattleWorks(m: Plan, s: Net, b: Battle)
    requires Premise(m, s, b)
    ensures MoreWork(s, StepBattle(s, b), Fight(b))
  {
    hide Inv, RoundsFit, RelayFits, MoreWork, StepBattle;
    match s.battle(b).pc
    case ReadLeft => RoundWorks(s, b);
    case ReadRight => RoundWorks(s, b);
    case WriteLeft => RoundWorks(s, b);
    case WriteRight => WriteRightWorks(m, s, b);
    case AwaitLoser => WaitWorks(s, b);
    case RelayRead => RelayWorks(s, b);
    case RelaySend => NotRoot(m, s, b); ParentWorks(s, b);
    case RelayReply => NotRoot(m, s, b); ParentWorks(s, b);
    case RelayReturn => RelayWorks(s, b);
    case AwaitWinner => WaitWorks(s, b);
    case AwaitRest => WaitWorks(s, b);
    case Finished =>
  }

  lemma NotRoot(m: Plan, s: Net, b: Battle)
    requires Inv(m, s) && (s.battle(b).pc.RelaySend? || s.battle(b).pc.RelayReply?)
    ensures b != A
  {
    hide Left, Right, TallyOf, PipesOk, PlayersOk, FifosOk;
    assert BattleOk(m, b, s.battle(b), TallyOf(s, b));
  }

  lemma BattleReads(s: Net, b: Battle, n: Node, q: BattleProc)
    requires IsChild(n, b) && BattleStage(s.battle(b).pc) <= BattleStage(q.pc)
    ensures MoreWork(s, ReadChild(s, b, n, q), Fight(b))
  {
    hide Left, Right, TallyOf;
    ReadChildMove(s, b, n, q);
    OthersKeepWork(s, ReadChild(s, b, n, q), b);
  }

  lemma BattleWrites(s: Net, b: Battle, n: Node, x: Status, q: BattleProc)
    requires IsChild(n, b) && BattleStage(s.battle(b).pc) <= BattleStage(q.pc)
    ensures MoreWork(s, WriteChild(s, b, n, x, q), Fight(b))
  {
    hide Left, Right, TallyOf;
    WriteChildMove(s, b, n, x, q);
    OthersKeepWork(s, WriteChild(s, b, n, x, q), b);
  }

  lemma WriteRightWorks(m: Plan, s: Net, b: Battle)
    requires Premise(m, s, b) && s.battle(b).pc.WriteRight?
    ensures MoreWork(s, StepBattle(s, b), Fight(b))
  {
    hide Left, Right, TallyOf, RoundsFit, RelayFits, PlayersOk, FifosOk, BattlesOk;
    var q := s.battle(b);
    var s1 := WriteChild(s, b, Right(b), q.right, RoundDone(b, q));
    var s' := StepBattle(s, b);
    ChildrenOf(b);
    WriteChildMove(s, b, Right(b), q.right, RoundDone(b, q));
    AnnouncingIsNoMove(s, s1, s', b);
    OthersKeepWork(s, s', b);
  }

  lemma AnnouncingIsNoMove(s: Net, s1: Net, s': Net, b: Battle)
    requires OnlyBattle(s, s1, b) && s' == s1.(announced := s'.announced)
    ensures OnlyBattle(s, s', b) && TallyOf(s', b) == TallyOf(s1, b) && s'.battle == s1.battle
  {
    hide Left, Right;
  }

  lemma PlayerWorks(m: Plan, t: Roster, s: Net, p: PlayerId)
    requires |t| == 8 && StepReady(m, t, s, p)
    ensures MoreWork(s, StepPlayer(s, p), Seat(p))
  {
    hide Left, Right, PlayerFits, StartFits, BattlesOk, PipesOk, FifosOk, PlayersOk, Revived, Recovered;
    var s' := StepPlayer(s, p);
    forall x: Node
      ensures Work(s, x) <= Work(s', x)
    {
      match x
      case Fight(b) =>
      case Seat(k) =>
    }
  }

  /** Each step adds to the work done. */
  lemma StepWorks(m: Plan, t: Roster, s: Net, n: Node)
    requires ValidRoster(t) && Coherent(m, t) && Inv(m, s) && Enabled(s, n)
    ensures Sum(Done(s), NODES) < Sum(Done(Step(s, n)), NODES)
  {
    hide RoundsFit, RelayFits, PlayerFits, StartFits, StepBattle, StepPlayer, Work, BattleEnabled, PlayerEnabled, Inv;
    match n {
      case Fight(b) =>
        assert RoundsFit(m, b) && RelayFits(m, b);
        ParentStreams(m, t, b);
        BattleWorks(m, s, b);
      case Seat(p) =>
        assert PlayerFits(m, p) && StartFits(m, t, p);
        PlayerWorks(m, t, s, p);
    }
    Listed(n);
    SumGrows(Done(s), Done(Step(s, n)), NODES, n);
  }

  lemma ParentStreams(m: Plan, t: Roster, b: Battle)
    requires |t| == 8 && Coherent(m, t)
    ensures |m.up(Fight(b))| == |m.down(Fight(b))|
  {
    assert RelayFits(m, b);
  }

  lemma TotalIsLimit(m: Plan, s: Net)
    requires PipesOk(m, s)
    ensures Sum(Done(s), NODES) <= Total(m)
  {
    var limit: Node -> nat := n => Limit(m, n);
    forall x: Node
      ensures Done(s)(x) <= limit(x)
    {
      WorkIsLimited(m, s, x);
    }
    SumGrows(Done(s), limit, NODES, ROOT);
  }

  /** No run takes more steps than the plan has transfers. */
  lemma {:induction false} StepsAreBounded(m: Plan, t: Roster, schedule: seq<Node>)
    requires ValidRoster(t) && Coherent(m, t)
    ensures StepsTaken(Init(t), schedule) <= Sum(Done(Run(Init(t), schedule)), NODES) <= Total(m)
    decreases |schedule|
  {
    hide Coherent, Inv, Init, Enabled, Step, Sum, Done, Total;
    RunHolds(m, t, schedule);
    TotalOfRun(m, Run(Init(t), schedule));
    if schedule != [] {
      var front := schedule[..|schedule| - 1];
      StepsAreBounded(m, t, front);
      RunHolds(m, t, front);
      if Enabled(Run(Init(t), front), schedule[|schedule| - 1]) {
        StepWorks(m, t, Run(Init(t), front), schedule[|schedule| - 1]);
      }
    }
  }

  lemma TotalOfRun(m: Plan, s: Net)
    requires Inv(m, s)
    ensures Sum(Done(s), NODES) <= Total(m)
  {
    hide BattlesOk, PlayersOk, FifosOk, PipesOk, Sum, Done, Total;
    TotalIsLimit(m, s);
  }
}
