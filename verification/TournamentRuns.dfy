/** Runs of the championship: the invariant holds throughout, some process can
    always move until all have exited, and only so many steps are possible. */
module TournamentRuns {
  import opened TournamentBracket
  import opened TournamentBout
  import opened TournamentEvaluator
  import opened TournamentStreams
  import opened TournamentNetwork
  import opened TournamentPlan
  import opened TournamentInvariant
  import opened TournamentBattleSteps
  import opened TournamentPlayerSteps

  lemma SeatStarts(m: Plan, t: Roster, p: PlayerId)
    requires ValidRoster(t) && StartFits(m, t, p)
    ensures PlayerOk(m, p, Init(t).player(p), 0, 0)
    ensures Init(t).player(p).pc == if p < 8 then Send else OpenRead
  {
    hide Arrive;
  }

  lemma BattleStarts(m: Plan, t: Roster, b: Battle)
    requires ValidRoster(t) && RoundsFit(m, b)
    ensures BattleOk(m, b, Init(t).battle(b), TallyOf(Init(t), b)) && ExitOk(Init(t), b, Init(t).battle(b))
  {
    hide Left, Right, Arrive;
  }

  lemma InitHolds(m: Plan, t: Roster)
    requires ValidRoster(t) && Coherent(m, t)
    ensures Inv(m, Init(t))
  {
    var s := Init(t);
    hide RoundsFit, RelayFits, PlayerFits, StartFits, BattleOk, ExitOk, PlayerOk, TallyOf, Arrive;
    forall b: Battle
      ensures BattleOk(m, b, s.battle(b), TallyOf(s, b)) && ExitOk(s, b, s.battle(b))
    {
      assert RoundsFit(m, b);
      BattleStarts(m, t, b);
    }
    forall p: PlayerId
      ensures PlayerOk(m, p, s.player(p), |s.up(Seat(p)).sent|, s.down(Seat(p)).taken)
      ensures s.player(p).pc == if p < 8 then Send else OpenRead
    {
      assert StartFits(m, t, p);
      SeatStarts(m, t, p);
    }
    forall k: PlayerId | k >= 8
      ensures FifoOk(s.player(k).pc, s.player(m.Feeder(k)).pc, s.fifo(k), m.up(Seat(k)))
    {
      assert StartFits(m, t, k);
      StreamsNotEmpty(m, t, k);
    }
    assert RoundsFit(m, A);
    RoundsNotEmpty(m, A);
  }

  lemma StreamsNotEmpty(m: Plan, t: Roster, p: PlayerId)
    requires |t| == 8 && StartFits(m, t, p)
    ensures |m.up(Seat(p))| >= 1
  {
  }

  lemma RoundsNotEmpty(m: Plan, b: Battle)
    requires RoundsFit(m, b)
    ensures |m.rounds(b)| >= 1
  {
  }

  /** One step of any process. */
  lemma StepHolds(m: Plan, t: Roster, s: Net, n: Node)
    requires ValidRoster(t) && Coherent(m, t) && Inv(m, s) && Enabled(s, n)
    ensures Inv(m, Step(s, n))
  {
    hide RoundsFit, PlayerFits, StartFits, StepBattle, StepPlayer, PlayerEnabled, BattleEnabled;
    match n
    case Fight(b) =>
      assert RoundsFit(m, b) && RelayFits(m, b);
      KeepBattleStep(m, s, b);
    case Seat(p) =>
      assert PlayerFits(m, p) && StartFits(m, t, p);
      KeepPlayerStep(m, t, s, p);
  }

  /** In every state of every run all pipes have carried prefixes of the plan. */
  lemma {:induction false} RunHolds(m: Plan, t: Roster, schedule: seq<Node>)
    requires ValidRoster(t) && Coherent(m, t)
    ensures Inv(m, Run(Init(t), schedule))
    decreases |schedule|
  {
    hide Coherent, Inv, Init, Enabled, Step;
    if schedule == [] {
      InitHolds(m, t);
    } else {
      var front := schedule[..|schedule| - 1];
      RunHolds(m, t, front);
      if Enabled(Run(Init(t), front), schedule[|schedule| - 1]) {
        StepHolds(m, t, Run(Init(t), front), schedule[|schedule| - 1]);
      }
    }
  }

  // ----- some process can always move -----

  /** The process has sent a status and waits for the reply. */
  predicate AwaitsParent(s: Net, n: Node) {
    match n
    case Fight(b) => s.battle(b).pc.RelayReply?
    case Seat(p) => s.player(p).pc.Receive?
  }

  /** The process does not wait for its parent. */
  predicate NotHeldUp(s: Net, n: Node) {
    AwaitsParent(s, n) ==> s.down(n).HasMessage()
  }

  /** What both kinds of child have in common. */
  lemma ChildState(m: Plan, s: Net, n: Node)
    requires Inv(m, s) && (n.Fight? ==> n != ROOT)
    ensures Exited(s, n) ==> |s.up(n).sent| == |m.up(n)|
    ensures AwaitsParent(s, n) ==> |s.up(n).sent| == s.down(n).taken + 1 <= |m.up(n)|
  {
    hide Left, Right, PipesOk, FifosOk, HandsOver;
    match n
    case Seat(p) =>
      assert PlayerOk(m, p, s.player(p), |s.up(n).sent|, s.down(n).taken);
    case Fight(b) =>
      assert BattleOk(m, b, s.battle(b), TallyOf(s, b));
  }

  /** A child whose last status has been answered, and that has more to send,
      has not exited and is not held up. */
  lemma AnsweredChild(m: Plan, s: Net, n: Node)
    requires Inv(m, s) && n != ROOT
    requires |s.up(n).sent| <= |s.down(n).sent| && |s.up(n).sent| < |m.up(n)|
    ensures !Exited(s, n) && NotHeldUp(s, n)
  {
    ChildState(m, s, n);
  }

  /** A child that has been sent all its replies is not held up. */
  lemma DismissedChild(m: Plan, s: Net, n: Node)
    requires Inv(m, s) && n != ROOT && |s.down(n).sent| == |m.up(n)|
    ensures NotHeldUp(s, n)
  {
    ChildState(m, s, n);
  }

  /** Once a node has exited, so has the player process at its end. */
  lemma {:induction false} ExitedLeaf(m: Plan, t: Roster, s: Net, n: Node)
    requires ValidRoster(t) && Coherent(m, t) && Inv(m, s) && Exited(s, n)
    ensures s.player(m.leaf(n)).pc.Gone?
    decreases Rank(n)
  {
    hide RelayFits, PlayerFits, StartFits, RoundsMatch, PipesOk, PlayersOk, FifosOk, BattleOk, Left, Right;
    match n
    case Seat(p) =>
    case Fight(b) =>
      ChildrenOf(b);
      assert ExitOk(s, b, s.battle(b));
      assert RoundsFit(m, b);
      ExitedLeaf(m, t, s, m.winner(b));
  }

  /** A battle in its rounds that waits for a child: that child can go on. */
  lemma BlockedRound(m: Plan, s: Net, b: Battle, n: Node)
    requires Inv(m, s) && RoundsFit(m, b)
    requires (s.battle(b).pc.ReadLeft? && n == Left(b)) || (s.battle(b).pc.ReadRight? && n == Right(b))
    requires !s.up(n).HasMessage()
    ensures !Exited(s, n) && NotHeldUp(s, n)
  {
    hide Left, Right, PlayersOk, FifosOk, TallyOf, Round;
    TallyIs(s, b);
    ChildrenOf(b);
    assert BattleOk(m, b, s.battle(b), TallyOf(s, b));
    assert PipeOk(m.up(n), s.up(n));
    AnsweredChild(m, s, n);
  }

  /** A relay that waits for the winner's next status: the winner can go on. */
  lemma BlockedRelay(m: Plan, s: Net, b: Battle)
    requires Inv(m, s) && RoundsFit(m, b) && RelayFits(m, b)
    requires s.battle(b).pc.RelayRead? && !s.up(Mine(b, s.battle(b))).HasMessage()
    ensures var n := Mine(b, s.battle(b)); IsChild(n, b) && !Exited(s, n) && NotHeldUp(s, n)
  {
    hide Left, Right, PlayersOk, FifosOk, TallyOf, RoundsMatch;
    TallyIs(s, b);
    ChildrenOf(b);
    assert BattleOk(m, b, s.battle(b), TallyOf(s, b));
    RelayChild(m, b, s.battle(b));
    var n := Mine(b, s.battle(b));
    assert PipeOk(m.up(n), s.up(n));
    AnsweredChild(m, s, n);
  }

  /** After the rounds the loser has been sent all its replies. */
  lemma LoserDismissed(m: Plan, s: Net, b: Battle)
    requires Inv(m, s) && RoundsFit(m, b) && RelayFits(m, b)
    requires !FightingOk(s.battle(b), TallyOf(s, b), m.rounds(b), m.up(Left(b)))
    ensures var n := m.loser(b); IsChild(n, b) && NotHeldUp(s, n)
    ensures Lost(b, s.battle(b)) == m.loser(b) && Mine(b, s.battle(b)) == m.winner(b)
  {
    hide Left, Right, PlayersOk, FifosOk, TallyOf, RoundsMatch, PipesOk, PassesOn;
    TallyIs(s, b);
    ChildrenOf(b);
    assert BattleOk(m, b, s.battle(b), TallyOf(s, b));
    RelayChild(m, b, s.battle(b));
    DismissedChild(m, s, m.loser(b));
  }

  /** After a relay loop, or the root's battle, so has the winner. */
  lemma WinnerDismissed(m: Plan, s: Net, b: Battle)
    requires Inv(m, s) && RoundsFit(m, b) && RelayFits(m, b)
    requires s.battle(b).pc.AwaitWinner?
    ensures var n := Mine(b, s.battle(b)); IsChild(n, b) && NotHeldUp(s, n)
  {
    hide Left, Right, PlayersOk, FifosOk, TallyOf, RoundsMatch, PipesOk;
    TallyIs(s, b);
    ChildrenOf(b);
    assert BattleOk(m, b, s.battle(b), TallyOf(s, b));
    RelayChild(m, b, s.battle(b));
    DismissedChild(m, s, m.winner(b));
  }

  /** A battle process that has to wait waits for a child that can go on. */
  lemma WaitsForChild(m: Plan, s: Net, b: Battle) returns (n: Node)
    requires Inv(m, s) && RoundsFit(m, b) && RelayFits(m, b)
    requires !BattleEnabled(s, b) && !s.battle(b).pc.Finished? && NotHeldUp(s, Fight(b))
    ensures IsChild(n, b) && !Exited(s, n) && NotHeldUp(s, n)
  {
    hide Left, Right, Inv, TallyOf, RoundsFit, RelayFits;
    var q := s.battle(b);
    match q.pc
    case ReadLeft => n := Left(b); BlockedRound(m, s, b, n);
    case ReadRight => n := Right(b); BlockedRound(m, s, b, n);
    case RelayRead => n := Mine(b, q); BlockedRelay(m, s, b);
    case AwaitLoser => n := m.loser(b); LoserDismissed(m, s, b);
    case AwaitRest => n := m.loser(b); LoserDismissed(m, s, b);
    case AwaitWinner => n := Mine(b, q); WinnerDismissed(m, s, b);
    case RelayReply =>
    case WriteLeft =>
    case WriteRight =>
    case RelaySend =>
    case RelayReturn =>
    case Finished =>
  }

  /** What an agent waits for at its FIFO. */
  lemma WaitsForFeeder(m: Plan, t: Roster, s: Net, k: PlayerId) returns (n: Node)
    requires ValidRoster(t) && Coherent(m, t) && Inv(m, s)
    requires s.player(k).pc.OpenRead?
    ensures k >= 8 && Rank(n) < Rank(Seat(k)) && !Exited(s, n) && NotHeldUp(s, n)
  {
    hide Left, Right, TallyOf, RoundsFit, RelayFits, PlayerFits, StartFits, BattlesOk, PipesOk, FightingOk;
    assert PlayerOk(m, k, s.player(k), |s.up(Seat(k)).sent|, s.down(Seat(k)).taken);
    assert FifoOk(s.player(k).pc, s.player(m.Feeder(k)).pc, s.fifo(k), m.up(Seat(k)));
    RoutingIsOneToOne();
    var g := Source(k);
    ChildrenOf(g);
    assert RoundsFit(m, g) && RelayFits(m, g);
    if FightingOk(s.battle(g), TallyOf(s, g), m.rounds(g), m.up(Left(g))) {
      n := Fight(g);
      FightGoesOn(s, g, TallyOf(s, g), m.rounds(g), m.up(Left(g)));
    } else {
      n := m.loser(g);
      LoserDismissed(m, s, g);
      if Exited(s, n) {
        ExitedLeaf(m, t, s, n);
      }
    }
  }

  lemma FightGoesOn(s: Net, g: Battle, c: Tally, rs: seq<Pair>, lu: seq<Status>)
    requires FightingOk(s.battle(g), c, rs, lu)
    ensures !Exited(s, Fight(g)) && NotHeldUp(s, Fight(g))
  {
  }

  /** From any process that has neither exited nor waits for its parent, follow
      what each process waits for down to one that can take a step. */
  lemma {:induction false} Chase(m: Plan, t: Roster, s: Net, n: Node) returns (x: Node)
    requires ValidRoster(t) && Coherent(m, t) && Inv(m, s)
    requires !Exited(s, n) && NotHeldUp(s, n)
    ensures Enabled(s, x)
    decreases Rank(n)
  {
    hide Left, Right, TallyOf, RoundsFit, RelayFits, PlayerFits, StartFits, Inv, Rank;
    if Enabled(s, n) {
      x := n;
    } else {
      match n
      case Fight(b) =>
        assert RoundsFit(m, b) && RelayFits(m, b);
        ChildrenOf(b);
        var next := WaitsForChild(m, s, b);
        x := Chase(m, t, s, next);
      case Seat(p) =>
        if s.player(p).pc.OpenRead? {
          var next := WaitsForFeeder(m, t, s, p);
          x := Chase(m, t, s, next);
        } else {
          x := SeatWaits(m, t, s, p);
        }
    }
  }

  /** An agent whose FIFO is still empty: its feeder is about to write.  A loser
      at a FIFO: the agent is there to open it. */
  lemma SeatWaits(m: Plan, t: Roster, s: Net, p: PlayerId) returns (x: Node)
    requires ValidRoster(t) && Coherent(m, t) && Inv(m, s)
    requires !Exited(s, Seat(p)) && NotHeldUp(s, Seat(p)) && !s.player(p).pc.OpenRead?
    ensures Enabled(s, x)
  {
    hide Left, Right, TallyOf, RoundsFit, RelayFits, PlayerFits, StartFits, BattlesOk, PipesOk, AgentFor, Source;
    assert PlayerOk(m, p, s.player(p), |s.up(Seat(p)).sent|, s.down(Seat(p)).taken);
    if s.player(p).pc.TakeFifo? && !s.fifo(p).HasMessage() {
      var w := m.Feeder(p);
      assert FifoOk(s.player(p).pc, s.player(w).pc, s.fifo(p), m.up(Seat(p)));
      assert PlayerOk(m, w, s.player(w), |s.up(Seat(w)).sent|, s.down(Seat(w)).taken);
      x := Seat(w);
    } else if s.player(p).pc.OpenWrite? {
      x := Seat(p);
      RoutingIsOneToOne();
      var a := AgentFor(s.player(p).st.cur);
      assert FifoOk(s.player(a).pc, s.player(m.Feeder(a)).pc, s.fifo(a), m.up(Seat(a)));
    } else {
      x := Seat(p);
    }
  }

  /** Nobody is left behind once the root has exited. */
  lemma {:induction false} ExitedBelow(m: Plan, s: Net, n: Node)
    requires Inv(m, s) && s.battle(A).pc.Finished?
    ensures Exited(s, n)
    decreases Depth(n)
  {
    hide Left, Right, BattleOk, PlayersOk, PipesOk, FifosOk;
    if n != ROOT {
      ParentIsAbove(n);
      ExitedBelow(m, s, Fight(Parent(n)));
      ParentOf(n);
      assert ExitOk(s, Parent(n), s.battle(Parent(n)));
    }
  }

  ghost predicate AllExited(s: Net) {
    forall n: Node :: Exited(s, n)
  }

  /** No deadlock: in every reachable state either all processes have exited or
      some process can take a step. */
  lemma Progress(m: Plan, t: Roster, s: Net) returns (x: Node)
    requires ValidRoster(t) && Coherent(m, t) && Inv(m, s)
    ensures AllExited(s) || Enabled(s, x)
  {
    if s.battle(A).pc.Finished? {
      forall n: Node
        ensures Exited(s, n)
      {
        ExitedBelow(m, s, n);
      }
      x := ROOT;
    } else {
      RootFree(m, s);
      x := Chase(m, t, s, ROOT);
    }
  }

  lemma RootFree(m: Plan, s: Net)
    requires Inv(m, s)
    ensures NotHeldUp(s, ROOT)
  {
    hide Left, Right, PlayersOk, PipesOk, FifosOk;
    assert BattleOk(m, A, s.battle(A), TallyOf(s, A));
  }
}
