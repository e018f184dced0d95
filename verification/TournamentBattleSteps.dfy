/** Every step of a battle process keeps the invariant. */
module TournamentBattleSteps {
  import opened TournamentBracket
  import opened TournamentBout
  import opened TournamentEvaluator
  import opened TournamentStreams
  import opened TournamentNetwork
  import opened TournamentPlan
  import opened TournamentInvariant

  /** Nobody but battle b has moved. */
  ghost predicate OnlyBattle(s: Net, s': Net, b: Battle) {
    && (forall x: Battle :: x != b ==> s'.battle(x) == s.battle(x) && TallyOf(s', x) == TallyOf(s, x))
    && s'.player == s.player && s'.fifo == s.fifo
    && (forall p: PlayerId :: s'.up(Seat(p)).sent == s.up(Seat(p)).sent && s'.down(Seat(p)).taken == s.down(Seat(p)).taken)
  }

  /** Whoever has exited stays so. */
  lemma ExitedStays(s: Net, s': Net, b: Battle, n: Node)
    requires OnlyBattle(s, s', b) && !s.battle(b).pc.Finished? && Exited(s, n)
    ensures Exited(s', n)
  {
    hide TallyOf;
  }

  lemma ExitStays(s: Net, s': Net, b: Battle, x: Battle, q: BattleProc)
    requires OnlyBattle(s, s', b) && !s.battle(b).pc.Finished? && ExitOk(s, x, q)
    ensures ExitOk(s', x, q)
  {
    hide Left, Right, Lost, Mine, Exited, OnlyBattle;
    forall n: Node | Exited(s, n)
      ensures Exited(s', n)
    {
      ExitedStays(s, s', b, n);
    }
  }

  lemma KeepOthers(m: Plan, s: Net, s': Net, b: Battle)
    requires Inv(m, s) && OnlyBattle(s, s', b) && !s.battle(b).pc.Finished?
    requires PipesOk(m, s') && BattleOk(m, b, s'.battle(b), TallyOf(s', b)) && ExitOk(s, b, s'.battle(b)) && AnnouncedOk(m, s')
    ensures Inv(m, s')
  {
    hide BattleOk, ExitOk, TallyOf, PlayerOk, FifoOk, AnnouncedOk, PipesOk, Left, Right;
    forall x: Battle
      ensures BattleOk(m, x, s'.battle(x), TallyOf(s', x)) && ExitOk(s', x, s'.battle(x))
    {
      assert BattleOk(m, x, s.battle(x), TallyOf(s, x)) && ExitOk(s, x, s.battle(x));
      ExitStays(s, s', b, x, s'.battle(x));
    }
    forall p: PlayerId
      ensures PlayerOk(m, p, s'.player(p), |s'.up(Seat(p)).sent|, s'.down(Seat(p)).taken)
    {
      assert PlayerOk(m, p, s.player(p), |s.up(Seat(p)).sent|, s.down(Seat(p)).taken);
    }
  }

  predicate IsChild(n: Node, b: Battle) { n == Left(b) || n == Right(b) }

  /** The pipes a battle process reads and writes are nobody else's: changing
      its own state and one of them leaves all other tallies alone. */
  lemma ChildPipe(s: Net, s': Net, b: Battle, n: Node)
    requires IsChild(n, b)
    requires forall x: Battle :: x != b ==> s'.battle(x) == s.battle(x)
    requires s'.player == s.player && s'.fifo == s.fifo
    requires forall x: Node :: x != n ==> s'.up(x) == s.up(x) && s'.down(x) == s.down(x)
    requires s'.up(n).sent == s.up(n).sent && s'.down(n).taken == s.down(n).taken
    ensures OnlyBattle(s, s', b)
  {
    ChildrenOf(b);
    forall x: Battle | x != b
      ensures TallyOf(s', x) == TallyOf(s, x)
    {
      ChildrenOf(x);
      hide Left, Right, Parent;
    }
  }

  lemma OwnPipe(s: Net, s': Net, b: Battle)
    requires b != A
    requires forall x: Battle :: x != b ==> s'.battle(x) == s.battle(x)
    requires s'.player == s.player && s'.fifo == s.fifo
    requires forall x: Node :: x != Fight(b) ==> s'.up(x) == s.up(x) && s'.down(x) == s.down(x)
    requires s'.up(Fight(b)).taken == s.up(Fight(b)).taken && s'.down(Fight(b)).sent == s.down(Fight(b)).sent
    ensures OnlyBattle(s, s', b)
  {
    forall x: Battle | x != b
      ensures TallyOf(s', x) == TallyOf(s, x)
    {
      ChildrenOf(x);
      hide Left, Right, Parent;
    }
  }

  lemma NoPipe(s: Net, s': Net, b: Battle)
    requires forall x: Battle :: x != b ==> s'.battle(x) == s.battle(x)
    requires s'.player == s.player && s'.fifo == s.fifo && s'.up == s.up && s'.down == s.down
    ensures OnlyBattle(s, s', b) && TallyOf(s', b) == TallyOf(s, b)
  {
    hide Left, Right;
  }

  // ----- what each move does to the tally and to the pipes -----

  function AddRead(c: Tally, left: bool): Tally { if left then c.(ul := c.ul + 1) else c.(ur := c.ur + 1) }

  function AddWrite(c: Tally, left: bool): Tally { if left then c.(dl := c.dl + 1) else c.(dr := c.dr + 1) }

  lemma ReadChildMove(s: Net, b: Battle, n: Node, q: BattleProc)
    requires IsChild(n, b)
    ensures var s' := ReadChild(s, b, n, q);
      OnlyBattle(s, s', b) && TallyOf(s', b) == AddRead(TallyOf(s, b), n == Left(b))
  {
    ChildrenOf(b);
    hide Left, Right;
    ChildPipe(s, ReadChild(s, b, n, q), b, n);
  }

  lemma WriteChildMove(s: Net, b: Battle, n: Node, x: Status, q: BattleProc)
    requires IsChild(n, b)
    ensures var s' := WriteChild(s, b, n, x, q);
      OnlyBattle(s, s', b) && TallyOf(s', b) == AddWrite(TallyOf(s, b), n == Left(b))
  {
    ChildrenOf(b);
    hide Left, Right;
    ChildPipe(s, WriteChild(s, b, n, x, q), b, n);
  }

  lemma WriteParentMove(s: Net, b: Battle, x: Status, q: BattleProc)
    requires b != A
    ensures var s' := WriteParent(s, b, x, q);
      OnlyBattle(s, s', b) && TallyOf(s', b) == TallyOf(s, b).(us := TallyOf(s, b).us + 1)
  {
    ChildrenOf(b);
    hide Left, Right;
    OwnPipe(s, WriteParent(s, b, x, q), b);
  }

  lemma ReadParentMove(s: Net, b: Battle, q: BattleProc)
    requires b != A
    ensures var s' := ReadParent(s, b, q);
      OnlyBattle(s, s', b) && TallyOf(s', b) == TallyOf(s, b).(ds := TallyOf(s, b).ds + 1)
  {
    ChildrenOf(b);
    hide Left, Right;
    OwnPipe(s, ReadParent(s, b, q), b);
  }

  /** A move of battle b may go to q if that keeps the rest of the invariant. */
  ghost predicate MayBecome(m: Plan, s: Net, b: Battle, q: BattleProc, c: Tally) {
    && !s.battle(b).pc.Finished?
    && BattleOk(m, b, q, c)
    && ExitOk(s, b, q)
    && (b == A ==> Closing(q.pc) == Closing(s.battle(b).pc))
  }

  lemma KeepReadChild(m: Plan, s: Net, b: Battle, n: Node, q: BattleProc)
    requires Inv(m, s) && IsChild(n, b) && s.up(n).HasMessage()
    requires MayBecome(m, s, b, q, AddRead(TallyOf(s, b), n == Left(b)))
    ensures Inv(m, ReadChild(s, b, n, q))
  {
    hide BattleOk, ExitOk, TallyOf, PlayerOk, FifoOk, Left, Right;
    assert PipeOk(m.up(n), s.up(n));
    ReadChildMove(s, b, n, q);
    KeepOthers(m, s, ReadChild(s, b, n, q), b);
  }

  lemma KeepWriteChild(m: Plan, s: Net, b: Battle, n: Node, x: Status, q: BattleProc)
    requires Inv(m, s) && IsChild(n, b)
    requires |s.down(n).sent| < |m.down(n)| && x == m.down(n)[|s.down(n).sent|]
    requires MayBecome(m, s, b, q, AddWrite(TallyOf(s, b), n == Left(b)))
    ensures Inv(m, WriteChild(s, b, n, x, q))
  {
    hide BattleOk, ExitOk, TallyOf, PlayerOk, FifoOk, Left, Right;
    assert PipeOk(m.down(n), s.down(n));
    WriteChildMove(s, b, n, x, q);
    KeepOthers(m, s, WriteChild(s, b, n, x, q), b);
  }

  lemma KeepWriteParent(m: Plan, s: Net, b: Battle, x: Status, q: BattleProc)
    requires Inv(m, s) && b != A
    requires |s.up(Fight(b)).sent| < |m.up(Fight(b))| && x == m.up(Fight(b))[|s.up(Fight(b)).sent|]
    requires MayBecome(m, s, b, q, TallyOf(s, b).(us := TallyOf(s, b).us + 1))
    ensures Inv(m, WriteParent(s, b, x, q))
  {
    hide BattleOk, ExitOk, TallyOf, PlayerOk, FifoOk, Left, Right;
    assert PipeOk(m.up(Fight(b)), s.up(Fight(b)));
    WriteParentMove(s, b, x, q);
    KeepOthers(m, s, WriteParent(s, b, x, q), b);
  }

  lemma KeepReadParent(m: Plan, s: Net, b: Battle, q: BattleProc)
    requires Inv(m, s) && b != A && s.down(Fight(b)).HasMessage()
    requires MayBecome(m, s, b, q, TallyOf(s, b).(ds := TallyOf(s, b).ds + 1))
    ensures Inv(m, ReadParent(s, b, q))
  {
    hide BattleOk, ExitOk, TallyOf, PlayerOk, FifoOk, Left, Right;
    assert PipeOk(m.down(Fight(b)), s.down(Fight(b)));
    ReadParentMove(s, b, q);
    KeepOthers(m, s, ReadParent(s, b, q), b);
  }

  lemma KeepBecome(m: Plan, s: Net, b: Battle, q: BattleProc)
    requires Inv(m, s)
    requires MayBecome(m, s, b, q, TallyOf(s, b))
    ensures Inv(m, Become(s, b, q))
  {
    hide BattleOk, ExitOk, PlayerOk, FifoOk, Left, Right;
    NoPipe(s, Become(s, b, q), b);
    KeepOthers(m, s, Become(s, b, q), b);
  }

  // ----- what each step does to the process and its tally -----

  lemma AfterReadLeft(q: BattleProc, c: Tally, rs: seq<Pair>, lu: seq<Status>)
    requires FightingOk(q, c, rs, lu) && q.pc.ReadLeft? && |rs| <= |lu|
    ensures FightingOk(q.(pc := ReadRight, left := lu[c.ul]), AddRead(c, true), rs, lu)
  {
  }

  lemma AfterReadRight(b: Battle, q: BattleProc, c: Tally, rs: seq<Pair>, lu: seq<Status>, ld: seq<Status>, ru: seq<Status>, rd: seq<Status>)
    requires FightingOk(q, c, rs, lu) && q.pc.ReadRight? && RoundsMatch(b, rs, lu, ld, ru, rd)
    ensures var r := Round(b, Pair(q.left, ru[c.ur]));
      FightingOk(q.(pc := WriteLeft, left := r.left, right := r.right), AddRead(c, false), rs, lu)
  {
    hide Round;
  }

  lemma AfterWriteLeft(b: Battle, q: BattleProc, c: Tally, rs: seq<Pair>, lu: seq<Status>, ld: seq<Status>, ru: seq<Status>, rd: seq<Status>)
    requires FightingOk(q, c, rs, lu) && q.pc.WriteLeft? && RoundsMatch(b, rs, lu, ld, ru, rd)
    ensures c.dl < |ld| && q.left == ld[c.dl]
    ensures FightingOk(q.(pc := WriteRight), AddWrite(c, true), rs, lu)
  {
    hide Round;
  }

  lemma AfterWriteRight(m: Plan, b: Battle, q: BattleProc, c: Tally, ru: seq<Status>, ld: seq<Status>, rd: seq<Status>)
    requires FightingOk(q, c, m.rounds(b), m.up(Left(b))) && q.pc.WriteRight?
    requires RoundsMatch(b, m.rounds(b), m.up(Left(b)), ld, ru, rd)
    requires |m.up(Fight(b))| == |m.down(Fight(b))|
    ensures c.dr < |rd| && q.right == rd[c.dr]
    ensures BattleOk(m, b, RoundDone(b, q), AddWrite(c, false))
  {
    hide Round, Left, Right;
  }

  /** The winner's stream on one side of a relay. */
  lemma AfterAwaitLoser(b: Battle, q: BattleProc, c: Tally, rs: seq<Pair>, nu: seq<Status>, nd: seq<Status>)
    requires |rs| >= 1 && RelayingOk(q, c, rs, nu, nd) && q.pc.AwaitLoser? && |nu| >= 1
    requires Continues(if RightDown(rs) then Last(rs).left else Last(rs).right)
    ensures RelayHead(b, q) == q.(pc := RelayRead)
    ensures RelayingOk(q.(pc := RelayRead), c, rs, nu, nd)
  {
  }

  lemma AfterRelayRead(q: BattleProc, c: Tally, rs: seq<Pair>, nu: seq<Status>, nd: seq<Status>)
    requires |rs| >= 1 && RelayingOk(q, c, rs, nu, nd) && q.pc.RelayRead?
    ensures (if q.rightLost then c.ul else c.ur) == |rs| + c.us
    ensures RelayingOk(WithMyStatus(q, nu[c.us]).(pc := RelaySend), AddRead(c, q.rightLost), rs, nu, nd)
  {
  }

  lemma AfterRelaySend(q: BattleProc, c: Tally, rs: seq<Pair>, nu: seq<Status>, nd: seq<Status>)
    requires |rs| >= 1 && RelayingOk(q, c, rs, nu, nd) && q.pc.RelaySend?
    ensures RelayingOk(q.(pc := RelayReply), c.(us := c.us + 1), rs, nu, nd)
  {
  }

  lemma AfterRelayReply(q: BattleProc, c: Tally, rs: seq<Pair>, nu: seq<Status>, nd: seq<Status>)
    requires |rs| >= 1 && RelayingOk(q, c, rs, nu, nd) && q.pc.RelayReply?
    ensures RelayingOk(WithMyStatus(q, nd[c.ds]).(pc := RelayReturn), c.(ds := c.ds + 1), rs, nu, nd)
  {
  }

  lemma AfterRelayReturn(b: Battle, q: BattleProc, c: Tally, rs: seq<Pair>, nu: seq<Status>, nd: seq<Status>)
    requires |rs| >= 1 && RelayingOk(q, c, rs, nu, nd) && q.pc.RelayReturn? && StopsInTime(nd)
    ensures (if q.rightLost then c.dl else c.dr) == |rs| + c.ds - 1
    ensures RelayingOk(RelayHead(b, q), AddWrite(c, q.rightLost), rs, nu, nd)
    ensures RelayHead(b, q) == q.(pc := RelayRead) || RelayHead(b, q) == q.(pc := AwaitWinner)
  {
    assert Continues(nd[c.ds - 1]) <==> c.ds - 1 < |nd| - 1;
  }

  lemma RelayChild(m: Plan, b: Battle, q: BattleProc)
    requires RoundsFit(m, b) && q.rightLost == RightDown(m.rounds(b))
    ensures Mine(b, q) == m.winner(b) && Lost(b, q) == m.loser(b)
    ensures IsChild(Mine(b, q), b) && (Mine(b, q) == Left(b) <==> q.rightLost)
  {
    ChildrenOf(b);
    hide Left, Right, RoundsMatch;
  }

  // ----- the steps in the network -----

  ghost predicate Premise(m: Plan, s: Net, b: Battle) {
    && Inv(m, s) && RoundsFit(m, b) && RelayFits(m, b) && BattleEnabled(s, b)
    && |m.up(Fight(b))| == |m.down(Fight(b))|
  }

  lemma KeepReadLeft(m: Plan, s: Net, b: Battle)
    requires Premise(m, s, b) && s.battle(b).pc.ReadLeft?
    ensures Inv(m, StepBattle(s, b))
  {
    hide Left, Right, RelayFits, Inv, ReadChild, TallyOf, PipeOk;
    var q := s.battle(b);
    var c := TallyOf(s, b);
    TallyIs(s, b);
    InvAt(m, s, b);
    PipesAt(m, s, Left(b));
    FrontIs(m.up(Left(b)), s.up(Left(b)));
    AfterReadLeft(q, c, m.rounds(b), m.up(Left(b)));
    KeepReadChild(m, s, b, Left(b), q.(pc := ReadRight, left := m.up(Left(b))[c.ul]));
  }

  lemma TallyIs(s: Net, b: Battle)
    ensures TallyOf(s, b).ul == s.up(Left(b)).taken && TallyOf(s, b).ur == s.up(Right(b)).taken
    ensures TallyOf(s, b).dl == |s.down(Left(b)).sent| && TallyOf(s, b).dr == |s.down(Right(b)).sent|
    ensures TallyOf(s, b).us == |s.up(Fight(b)).sent| && TallyOf(s, b).ds == s.down(Fight(b)).taken
  {
    hide Left, Right;
  }

  /** What the invariant says of battle b. */
  lemma InvAt(m: Plan, s: Net, b: Battle)
    requires Inv(m, s)
    ensures BattleOk(m, b, s.battle(b), TallyOf(s, b)) && ExitOk(s, b, s.battle(b))
  {
    hide PipesOk, PlayersOk, FifosOk, AnnouncedOk, BattleOk, ExitOk, TallyOf;
  }

  lemma PipesAt(m: Plan, s: Net, n: Node)
    requires Inv(m, s)
    ensures PipeOk(m.up(n), s.up(n)) && PipeOk(m.down(n), s.down(n))
  {
    hide BattlesOk, PlayersOk, FifosOk, AnnouncedOk, PipeOk;
  }

  lemma PassedUp(k: nat, wu: seq<Status>, wd: seq<Status>, nu: seq<Status>, nd: seq<Status>, j: nat)
    requires PassesOn(k, wu, wd, nu, nd) && j < |nu|
    ensures k + j < |wu| && wu[k + j] == nu[j]
  {
  }

  lemma FrontIs(stream: seq<Status>, p: Pipe)
    requires PipeOk(stream, p) && p.HasMessage()
    ensures p.taken < |stream| && p.Front() == stream[p.taken]
  {
  }

  lemma KeepReadRight(m: Plan, s: Net, b: Battle)
    requires Premise(m, s, b) && s.battle(b).pc.ReadRight?
    ensures Inv(m, StepBattle(s, b))
  {
    hide Left, Right, RelayFits, PlayersOk, FifosOk, ReadChild, TallyOf, Round;
    var q := s.battle(b);
    var c := TallyOf(s, b);
    TallyIs(s, b);
    ChildrenOf(b);
    assert BattleOk(m, b, q, c) && ExitOk(s, b, q);
    assert PipeOk(m.up(Right(b)), s.up(Right(b)));
    FrontIs(m.up(Right(b)), s.up(Right(b)));
    AfterReadRight(b, q, c, m.rounds(b), m.up(Left(b)), m.down(Left(b)), m.up(Right(b)), m.down(Right(b)));
    var r := Round(b, Pair(q.left, m.up(Right(b))[c.ur]));
    KeepReadChild(m, s, b, Right(b), q.(pc := WriteLeft, left := r.left, right := r.right));
  }

  lemma KeepWriteLeft(m: Plan, s: Net, b: Battle)
    requires Premise(m, s, b) && s.battle(b).pc.WriteLeft?
    ensures Inv(m, StepBattle(s, b))
  {
    hide Left, Right, RelayFits, PlayersOk, FifosOk, WriteChild, TallyOf, Round;
    var q := s.battle(b);
    var c := TallyOf(s, b);
    TallyIs(s, b);
    assert BattleOk(m, b, q, c) && ExitOk(s, b, q);
    AfterWriteLeft(b, q, c, m.rounds(b), m.up(Left(b)), m.down(Left(b)), m.up(Right(b)), m.down(Right(b)));
    KeepWriteChild(m, s, b, Left(b), q.left, q.(pc := WriteRight));
  }

  /** The last write of a round; after the last round of the root the champion
      is announced in the same step. */
  lemma KeepWriteRight(m: Plan, s: Net, b: Battle)
    requires Premise(m, s, b) && s.battle(b).pc.WriteRight?
    ensures Inv(m, StepBattle(s, b))
  {
    hide Left, Right, RelayFits, PlayersOk, FifosOk, TallyOf, Round, PipesOk;
    var q := s.battle(b);
    var c := TallyOf(s, b);
    var s1 := WriteChild(s, b, Right(b), q.right, RoundDone(b, q));
    var s' := s1.(announced := s.announced + Announcement(b, q));
    TallyIs(s, b);
    ChildrenOf(b);
    assert BattleOk(m, b, q, c) && ExitOk(s, b, q);
    AfterWriteRight(m, b, q, c, m.up(Right(b)), m.down(Left(b)), m.down(Right(b)));
    WriteChildMove(s, b, Right(b), q.right, RoundDone(b, q));
    WritePipes(m, s, b, Right(b), q.right, RoundDone(b, q));
    SameBut(m, s, s1, s', b);
    AnnouncedInTime(m, s, b);
    KeepOthers(m, s, s', b);
  }

  lemma WritePipes(m: Plan, s: Net, b: Battle, n: Node, x: Status, q: BattleProc)
    requires PipesOk(m, s) && |s.down(n).sent| < |m.down(n)| && x == m.down(n)[|s.down(n).sent|]
    ensures PipesOk(m, WriteChild(s, b, n, x, q))
  {
    assert PipeOk(m.down(n), s.down(n));
  }

  lemma SameBut(m: Plan, s: Net, s1: Net, s': Net, b: Battle)
    requires OnlyBattle(s, s1, b) && PipesOk(m, s1) && s' == s1.(announced := s'.announced)
    ensures OnlyBattle(s, s', b) && PipesOk(m, s') && TallyOf(s', b) == TallyOf(s1, b) && s'.battle == s1.battle
  {
    hide Left, Right;
  }

  lemma AnnouncedInTime(m: Plan, s: Net, b: Battle)
    requires Premise(m, s, b) && s.battle(b).pc.WriteRight?
    requires FightingOk(s.battle(b), TallyOf(s, b), m.rounds(b), m.up(Left(b)))
    ensures var q := s.battle(b);
      AnnouncedOk(m, WriteChild(s, b, Right(b), q.right, RoundDone(b, q)).(announced := s.announced + Announcement(b, q)))
  {
    hide Left, Right, RelayFits, PlayersOk, FifosOk, BattlesOk, TallyOf, Round, PipesOk;
    var q := s.battle(b);
    assert Pair(q.left, q.right) == m.rounds(b)[TallyOf(s, b).dr];
  }

  lemma KeepAwaitLoser(m: Plan, s: Net, b: Battle)
    requires Premise(m, s, b) && s.battle(b).pc.AwaitLoser?
    ensures Inv(m, StepBattle(s, b))
  {
    hide Left, Right, PlayersOk, FifosOk, TallyOf, RoundsMatch, PassesOn, PipesOk, Continues;
    var q := s.battle(b);
    var c := TallyOf(s, b);
    assert BattleOk(m, b, q, c) && ExitOk(s, b, q);
    AfterAwaitLoser(b, q, c, m.rounds(b), m.up(Fight(b)), m.down(Fight(b)));
    KeepBecome(m, s, b, q.(pc := RelayRead));
  }

  lemma KeepRelayRead(m: Plan, s: Net, b: Battle)
    requires Premise(m, s, b) && s.battle(b).pc.RelayRead?
    ensures Inv(m, StepBattle(s, b))
  {
    hide Left, Right, Inv, TallyOf, RoundsMatch, Continues, ReadChild, PassesOn, StopsInTime, PipeOk;
    var q := s.battle(b);
    var c := TallyOf(s, b);
    TallyIs(s, b);
    InvAt(m, s, b);
    RelayChild(m, b, q);
    var n := Mine(b, q);
    PipesAt(m, s, n);
    FrontIs(m.up(n), s.up(n));
    AfterRelayRead(q, c, m.rounds(b), m.up(Fight(b)), m.down(Fight(b)));
    PassedUp(|m.rounds(b)|, m.up(n), m.down(n), m.up(Fight(b)), m.down(Fight(b)), c.us);
    KeepReadChild(m, s, b, n, WithMyStatus(q, m.up(Fight(b))[c.us]).(pc := RelaySend));
  }

  lemma KeepRelaySend(m: Plan, s: Net, b: Battle)
    requires Premise(m, s, b) && s.battle(b).pc.RelaySend?
    ensures Inv(m, StepBattle(s, b))
  {
    hide Left, Right, PlayersOk, FifosOk, TallyOf, RoundsMatch, PassesOn, PipesOk, WriteParent;
    var q := s.battle(b);
    var c := TallyOf(s, b);
    TallyIs(s, b);
    assert BattleOk(m, b, q, c) && ExitOk(s, b, q);
    AfterRelaySend(q, c, m.rounds(b), m.up(Fight(b)), m.down(Fight(b)));
    KeepWriteParent(m, s, b, MyStatus(q), q.(pc := RelayReply));
  }

  lemma KeepRelayReply(m: Plan, s: Net, b: Battle)
    requires Premise(m, s, b) && s.battle(b).pc.RelayReply?
    ensures Inv(m, StepBattle(s, b))
  {
    hide Left, Right, PlayersOk, FifosOk, TallyOf, RoundsMatch, PassesOn, ReadParent;
    var q := s.battle(b);
    var c := TallyOf(s, b);
    TallyIs(s, b);
    assert BattleOk(m, b, q, c) && ExitOk(s, b, q);
    assert PipeOk(m.down(Fight(b)), s.down(Fight(b)));
    FrontIs(m.down(Fight(b)), s.down(Fight(b)));
    AfterRelayReply(q, c, m.rounds(b), m.up(Fight(b)), m.down(Fight(b)));
    KeepReadParent(m, s, b, WithMyStatus(q, m.down(Fight(b))[c.ds]).(pc := RelayReturn));
  }

  lemma KeepRelayReturn(m: Plan, s: Net, b: Battle)
    requires Premise(m, s, b) && s.battle(b).pc.RelayReturn?
    ensures Inv(m, StepBattle(s, b))
  {
    hide Left, Right, PlayersOk, FifosOk, TallyOf, RoundsMatch, PipesOk, WriteChild, RelayHead;
    var q := s.battle(b);
    var c := TallyOf(s, b);
    TallyIs(s, b);
    assert BattleOk(m, b, q, c) && ExitOk(s, b, q);
    RelayChild(m, b, q);
    AfterRelayReturn(b, q, c, m.rounds(b), m.up(Fight(b)), m.down(Fight(b)));
    assert m.down(Mine(b, q))[|m.rounds(b)| + (c.ds - 1)] == m.down(Fight(b))[c.ds - 1];
    KeepWriteChild(m, s, b, Mine(b, q), MyStatus(q), RelayHead(b, q));
  }

  lemma KeepAwaitWinner(m: Plan, s: Net, b: Battle)
    requires Premise(m, s, b) && (s.battle(b).pc.AwaitWinner? || s.battle(b).pc.AwaitRest?)
    ensures Inv(m, StepBattle(s, b))
  {
    hide Left, Right, Inv, TallyOf, RoundsMatch, PassesOn;
    var q := s.battle(b);
    var c := TallyOf(s, b);
    InvAt(m, s, b);
    RelayChild(m, b, q);
    KeepBecome(m, s, b, q.(pc := if q.pc.AwaitWinner? && b == A then AwaitRest else Finished));
  }

  lemma KeepBattleStep(m: Plan, s: Net, b: Battle)
    requires Premise(m, s, b)
    ensures Inv(m, StepBattle(s, b))
  {
    match s.battle(b).pc
    case ReadLeft => KeepReadLeft(m, s, b);
    case ReadRight => KeepReadRight(m, s, b);
    case WriteLeft => KeepWriteLeft(m, s, b);
    case WriteRight => KeepWriteRight(m, s, b);
    case AwaitLoser => KeepAwaitLoser(m, s, b);
    case RelayRead => KeepRelayRead(m, s, b);
    case RelaySend => KeepRelaySend(m, s, b);
    case RelayReply => KeepRelayReply(m, s, b);
    case RelayReturn => KeepRelayReturn(m, s, b);
    case AwaitWinner => KeepAwaitWinner(m, s, b);
    case AwaitRest => KeepAwaitWinner(m, s, b);
    case Finished =>
  }
}
