/** Every step of a player process keeps the invariant. */
module TournamentPlayerSteps {
  import opened TournamentBracket
  import opened TournamentBout
  import opened TournamentEvaluator
  import opened TournamentStreams
  import opened TournamentNetwork
  import opened TournamentPlan
  import opened TournamentInvariant

  /** No battle process has moved, and no player that had left is back. */
  ghost predicate OnlyPlayers(s: Net, s': Net) {
    && s'.battle == s.battle && s'.announced == s.announced
    && (forall n: Node :: s'.up(n).taken == s.up(n).taken && s'.down(n).sent == s.down(n).sent)
    && (forall b: Battle :: s'.up(Fight(b)) == s.up(Fight(b)) && s'.down(Fight(b)) == s.down(Fight(b)))
    && (forall p: PlayerId :: s.player(p).pc.Gone? ==> s'.player(p).pc.Gone?)
  }

  lemma KeepBattles(m: Plan, s: Net, s': Net)
    requires BattlesOk(m, s) && OnlyPlayers(s, s')
    ensures BattlesOk(m, s')
  {
    hide BattleOk, Left, Right;
    forall b: Battle
      ensures BattleOk(m, b, s'.battle(b), TallyOf(s', b)) && ExitOk(s', b, s'.battle(b))
    {
      assert BattleOk(m, b, s.battle(b), TallyOf(s, b)) && ExitOk(s, b, s.battle(b));
    }
  }

  ghost predicate StepReady(m: Plan, t: Roster, s: Net, p: PlayerId)
    requires |t| == 8
  {
    && Inv(m, s) && PlayerEnabled(s, p) && PlayerFits(m, p) && StartFits(m, t, p)
    && forall k: PlayerId :: k >= 8 ==> m.Feeder(k) < 8
  }

  lemma PipesAfter(m: Plan, s: Net, s': Net, n: Node)
    requires PipesOk(m, s)
    requires forall x: Node :: x != n ==> s'.up(x) == s.up(x) && s'.down(x) == s.down(x)
    requires PipeOk(m.up(n), s'.up(n)) && PipeOk(m.down(n), s'.down(n))
    ensures PipesOk(m, s')
  {
  }

  /** A step of p that touches no FIFO and leaves p neither fed nor feeding. */
  lemma KeepFifos(m: Plan, s: Net, s': Net, p: PlayerId)
    requires FifosOk(m, s) && s'.fifo == s.fifo
    requires forall x: PlayerId :: x != p ==> s'.player(x) == s.player(x)
    requires !Unfed(s.player(p).pc) && !Unfed(s'.player(p).pc)
    requires !HasFed(s.player(p).pc)
    requires HasFed(s'.player(p).pc) ==> FeedsNone(m, p)
    ensures FifosOk(m, s')
  {
    forall k: PlayerId | k >= 8
      ensures FifoOk(s'.player(k).pc, s'.player(m.Feeder(k)).pc, s'.fifo(k), m.up(Seat(k)))
    {
      assert FifoOk(s.player(k).pc, s.player(m.Feeder(k)).pc, s.fifo(k), m.up(Seat(k)));
    }
  }

  lemma KeepSend(m: Plan, t: Roster, s: Net, p: PlayerId)
    requires |t| == 8 && StepReady(m, t, s, p) && s.player(p).pc.Send?
    ensures Inv(m, StepPlayer(s, p))
  {
    hide BattlesOk, Left, Right, HandsOver, PlayerFits, StartFits;
    var s' := StepPlayer(s, p);
    var n := Seat(p);
    assert PlayerOk(m, p, s.player(p), |s.up(n).sent|, s.down(n).taken);
    assert PipeOk(m.up(n), s.up(n)) && PipeOk(m.down(n), s.down(n));
    PipesAfter(m, s, s', n);
    KeepBattles(m, s, s');
    KeepFifos(m, s, s', p);
    forall x: PlayerId
      ensures PlayerOk(m, x, s'.player(x), |s'.up(Seat(x)).sent|, s'.down(Seat(x)).taken)
    {
      assert PlayerOk(m, x, s.player(x), |s.up(Seat(x)).sent|, s.down(Seat(x)).taken);
    }
  }

  lemma KeepReceive(m: Plan, t: Roster, s: Net, p: PlayerId)
    requires |t| == 8 && StepReady(m, t, s, p) && s.player(p).pc.Receive?
    ensures Inv(m, StepPlayer(s, p))
  {
    hide BattlesOk, Left, Right, HandsOver, StartFits, Arrive;
    var s' := StepPlayer(s, p);
    var n := Seat(p);
    assert PlayerOk(m, p, s.player(p), |s.up(n).sent|, s.down(n).taken);
    assert PipeOk(m.up(n), s.up(n)) && PipeOk(m.down(n), s.down(n));
    var j := s.down(n).taken;
    assert s.down(n).Front() == m.down(n)[j];
    PipesAfter(m, s, s', n);
    KeepBattles(m, s, s');
    KeepFifos(m, s, s', p);
    forall x: PlayerId
      ensures PlayerOk(m, x, s'.player(x), |s'.up(Seat(x)).sent|, s'.down(Seat(x)).taken)
    {
      assert PlayerOk(m, x, s.player(x), |s.up(Seat(x)).sent|, s.down(Seat(x)).taken);
    }
  }

  /** Both ends of a FIFO open: the loser is about to write, its agent to read. */
  lemma KeepOpenWrite(m: Plan, t: Roster, s: Net, p: PlayerId)
    requires |t| == 8 && StepReady(m, t, s, p) && s.player(p).pc.OpenWrite?
    ensures Inv(m, StepPlayer(s, p))
  {
    hide BattlesOk, Left, Right, PlayerFits, StartFits, AgentFor;
    var s' := StepPlayer(s, p);
    var a := AgentFor(s.player(p).st.cur);
    assert PlayerOk(m, p, s.player(p), |s.up(Seat(p)).sent|, s.down(Seat(p)).taken);
    assert PlayerOk(m, a, s.player(a), |s.up(Seat(a)).sent|, s.down(Seat(a)).taken);
    KeepBattles(m, s, s');
    forall k: PlayerId | k >= 8
      ensures FifoOk(s'.player(k).pc, s'.player(m.Feeder(k)).pc, s'.fifo(k), m.up(Seat(k)))
    {
      assert FifoOk(s.player(k).pc, s.player(m.Feeder(k)).pc, s.fifo(k), m.up(Seat(k)));
    }
    forall x: PlayerId
      ensures PlayerOk(m, x, s'.player(x), |s'.up(Seat(x)).sent|, s'.down(Seat(x)).taken)
    {
      assert PlayerOk(m, x, s.player(x), |s.up(Seat(x)).sent|, s.down(Seat(x)).taken);
    }
  }

  /** A loser of zone A writes itself to its agent's FIFO and leaves. */
  lemma KeepPutFifo(m: Plan, t: Roster, s: Net, p: PlayerId)
    requires |t| == 8 && StepReady(m, t, s, p) && s.player(p).pc.PutFifo?
    ensures Inv(m, StepPlayer(s, p))
  {
    hide BattlesOk, Left, Right, PlayerFits, StartFits, AgentFor;
    var s' := StepPlayer(s, p);
    assert PlayerOk(m, p, s.player(p), |s.up(Seat(p)).sent|, s.down(Seat(p)).taken);
    KeepBattles(m, s, s');
    forall k: PlayerId | k >= 8
      ensures FifoOk(s'.player(k).pc, s'.player(m.Feeder(k)).pc, s'.fifo(k), m.up(Seat(k)))
    {
      assert FifoOk(s.player(k).pc, s.player(m.Feeder(k)).pc, s.fifo(k), m.up(Seat(k)));
    }
    forall x: PlayerId
      ensures PlayerOk(m, x, s'.player(x), |s'.up(Seat(x)).sent|, s'.down(Seat(x)).taken)
    {
      assert PlayerOk(m, x, s.player(x), |s.up(Seat(x)).sent|, s.down(Seat(x)).taken);
    }
  }

  /** An agent takes over the player it reads from its FIFO. */
  lemma KeepTakeFifo(m: Plan, t: Roster, s: Net, p: PlayerId)
    requires |t| == 8 && StepReady(m, t, s, p) && s.player(p).pc.TakeFifo?
    ensures Inv(m, StepPlayer(s, p))
  {
    hide BattlesOk, Left, Right, PlayerFits, Arrive;
    var s' := StepPlayer(s, p);
    assert PlayerOk(m, p, s.player(p), |s.up(Seat(p)).sent|, s.down(Seat(p)).taken);
    assert FifoOk(s.player(p).pc, s.player(m.Feeder(p)).pc, s.fifo(p), m.up(Seat(p)));
    KeepBattles(m, s, s');
    forall k: PlayerId | k >= 8
      ensures FifoOk(s'.player(k).pc, s'.player(m.Feeder(k)).pc, s'.fifo(k), m.up(Seat(k)))
    {
      assert FifoOk(s.player(k).pc, s.player(m.Feeder(k)).pc, s.fifo(k), m.up(Seat(k)));
    }
    forall x: PlayerId
      ensures PlayerOk(m, x, s'.player(x), |s'.up(Seat(x)).sent|, s'.down(Seat(x)).taken)
    {
      assert PlayerOk(m, x, s.player(x), |s.up(Seat(x)).sent|, s.down(Seat(x)).taken);
    }
  }

  lemma KeepPlayerStep(m: Plan, t: Roster, s: Net, p: PlayerId)
    requires |t| == 8 && StepReady(m, t, s, p)
    ensures Inv(m, StepPlayer(s, p))
  {
    match s.player(p).pc
    case OpenRead =>
    case TakeFifo => KeepTakeFifo(m, t, s, p);
    case Send => KeepSend(m, t, s, p);
    case Receive => KeepReceive(m, t, s, p);
    case OpenWrite => KeepOpenWrite(m, t, s, p);
    case PutFifo => KeepPutFifo(m, t, s, p);
    case Gone =>
  }
}
