/** The main results: whatever the scheduling, the championship plays the
    bracket, never deadlocks, and ends. */
module TournamentChampionship {
  import opened TournamentBracket
  import opened TournamentBout
  import opened TournamentEvaluator
  import opened TournamentStreams
  import opened TournamentNetwork
  import opened TournamentPlan
  import opened TournamentInvariant
  import opened TournamentBattleSteps
  import opened TournamentRuns
  import opened TournamentTermination

  /** A battle process past its rounds. */
  predicate Fought(pc: BattlePc) {
    !pc.ReadLeft? && !pc.ReadRight? && !pc.WriteLeft? && !pc.WriteRight?
  }

  lemma ReachableHolds(t: Roster, schedule: seq<Node>)
    requires ValidRoster(t)
    ensures Inv(PlanOf(t), Run(Init(t), schedule))
    ensures Coherent(PlanOf(t), t)
  {
    EvaluatorIsCoherent(t);
    RunHolds(PlanOf(t), t, schedule);
  }

  lemma PipesFollowPlan(t: Roster, s: Net, n: Node)
    requires ValidRoster(t) && n != ROOT && PipesOk(PlanOf(t), s)
    ensures s.up(n).sent <= Sends(t, n) && s.down(n).sent <= Replies(t, n)
    ensures s.up(n).taken <= |s.up(n).sent| && s.down(n).taken <= |s.down(n).sent|
  {
    hide PlanOf, Sends, Replies;
    PlanUp(t, n);
    PlanDown(t, n);
    assert PipeOk(PlanOf(t).up(n), s.up(n)) && PipeOk(PlanOf(t).down(n), s.down(n));
  }

  lemma FoughtBattle(m: Plan, s: Net, b: Battle)
    requires Inv(m, s) && RoundsFit(m, b) && Fought(s.battle(b).pc)
    ensures var k := |m.rounds(b)|; var l := s.down(Left(b)).sent; var r := s.down(Right(b)).sent;
      k <= |l| && k <= |r| && Pair(l[k - 1], r[k - 1]) == Last(m.rounds(b))
  {
    hide Left, Right, PlayersOk, FifosOk, TallyOf, Round;
    TallyIs(s, b);
    assert BattleOk(m, b, s.battle(b), TallyOf(s, b));
    assert PipeOk(m.down(Left(b)), s.down(Left(b))) && PipeOk(m.down(Right(b)), s.down(Right(b)));
  }

  /** Schedule independence.  In every state of every run each process has sent a
      prefix of what the bracket evaluator predicts, and each battle past its
      rounds has sent its two children exactly the evaluator's final statuses;
      the root announces the evaluator's champion and nobody else. */
  lemma ScheduleIndependence(t: Roster, schedule: seq<Node>)
    requires ValidRoster(t)
    ensures var s := Run(Init(t), schedule);
      && (forall n: Node :: n != ROOT ==> s.up(n).sent <= Sends(t, n) && s.down(n).sent <= Replies(t, n))
      && (s.announced == [] || s.announced == [Champion(t)])
  {
    hide PlanOf, Run, Init, Sends, Replies, BattlesOk, PlayersOk, FifosOk, PipesOk, RoundsFit, RelayFits, Champion, RightDown;
    var s := Run(Init(t), schedule);
    var m := PlanOf(t);
    ReachableHolds(t, schedule);
    forall n: Node | n != ROOT
      ensures s.up(n).sent <= Sends(t, n) && s.down(n).sent <= Replies(t, n)
    {
      PipesFollowPlan(t, s, n);
    }
    PlanRounds(t, A);
    ChampionIs(t);
  }

  lemma ChampionIs(t: Roster)
    requires ValidRoster(t)
    ensures var rs := Result(t, A).rounds; Champion(t) == if RightDown(rs) then Last(rs).left.id else Last(rs).right.id
  {
    hide Left, Right, Entry, Result, Bout;
    ResultIs(t, A);
  }

  lemma BattlesFollowEvaluator(t: Roster, schedule: seq<Node>, b: Battle)
    requires ValidRoster(t) && Fought(Run(Init(t), schedule).battle(b).pc)
    ensures var s := Run(Init(t), schedule); var rs := Result(t, b).rounds;
      && |rs| <= |s.down(Left(b)).sent| && |rs| <= |s.down(Right(b)).sent|
      && s.down(Left(b)).sent[|rs| - 1] == Last(rs).left
      && s.down(Right(b)).sent[|rs| - 1] == Last(rs).right
  {
    hide PlanOf, Run, Init, RoundsFit, RelayFits, Left, Right, Inv, Result;
    ReachableHolds(t, schedule);
    PlanRounds(t, b);
    assert RoundsFit(PlanOf(t), b);
    FoughtBattle(PlanOf(t), Run(Init(t), schedule), b);
  }

  /** No deadlock: whenever no process can take a step, all have exited. */
  lemma NoDeadlock(t: Roster, schedule: seq<Node>)
    requires ValidRoster(t)
    ensures var s := Run(Init(t), schedule);
      AllExited(s) || exists n: Node :: Enabled(s, n)
  {
    hide PlanOf, Run, Init, Inv, Coherent, Enabled;
    ReachableHolds(t, schedule);
    var n := Progress(PlanOf(t), t, Run(Init(t), schedule));
  }

  /** Every run ends: no schedule, however long, holds more steps than this. */
  lemma RunsEnd(t: Roster, schedule: seq<Node>)
    requires ValidRoster(t)
    ensures StepsTaken(Init(t), schedule) <= Total(PlanOf(t))
  {
    hide PlanOf, Coherent, Total;
    ReachableHolds(t, schedule);
    StepsAreBounded(PlanOf(t), t, schedule);
  }

  /** Every run can be completed, and however it is completed the outcome is the
      same: all pipes have carried exactly the evaluator's streams, and the
      evaluator's champion has been announced, once. */
  lemma {:induction false} RunsComplete(t: Roster, schedule: seq<Node>) returns (more: seq<Node>)
    requires ValidRoster(t)
    ensures AllExited(Run(Init(t), schedule + more))
    decreases Total(PlanOf(t)) - StepsTaken(Init(t), schedule)
  {
    hide PlanOf, Init, Inv, Coherent, Enabled, Total, Step, AllExited;
    var s := Run(Init(t), schedule);
    ReachableHolds(t, schedule);
    var n := Progress(PlanOf(t), t, s);
    if AllExited(s) {
      more := [];
      assert schedule + more == schedule;
    } else {
      var next := schedule + [n];
      assert next[..|next| - 1] == schedule;
      RunsEnd(t, next);
      var rest := RunsComplete(t, next);
      more := [n] + rest;
      assert schedule + more == next + rest;
    }
  }

  lemma ExitedChild(m: Plan, s: Net, n: Node)
    requires Inv(m, s) && n != ROOT && Exited(s, n)
    requires n.Seat? ==> |m.up(n)| == |m.down(n)|
    requires n.Fight? ==> |m.up(n)| == |m.down(n)|
    ensures s.up(n).sent == m.up(n) && |s.down(n).sent| == |m.down(n)| && s.down(n).sent == m.down(n)
  {
    hide Left, Right, FifosOk, HandsOver;
    assert PipeOk(m.up(n), s.up(n)) && PipeOk(m.down(n), s.down(n));
    match n
    case Seat(p) =>
      assert PlayerOk(m, p, s.player(p), |s.up(n).sent|, s.down(n).taken);
    case Fight(b) =>
      assert BattleOk(m, b, s.battle(b), TallyOf(s, b));
  }

  /** A complete run has produced the whole of every stream and announced the
      champion; so all complete runs agree. */
  lemma CompleteRunsAgree(t: Roster, schedule: seq<Node>, n: Node)
    requires ValidRoster(t) && AllExited(Run(Init(t), schedule))
    ensures var s := Run(Init(t), schedule);
      && s.announced == [Champion(t)]
      && (n != ROOT ==> s.up(n).sent == Sends(t, n) && s.down(n).sent == Replies(t, n))
  {
    hide PlanOf, Run, Init, RoundsFit, RelayFits, Left, Right, Sends, Replies, Champion, BattlesOk, PlayersOk, FifosOk, PipesOk, RightDown;
    var s := Run(Init(t), schedule);
    ReachableHolds(t, schedule);
    PlanRounds(t, A);
    ChampionIs(t);
    assert Exited(s, ROOT);
    if n != ROOT {
      PlanUp(t, n);
      PlanDown(t, n);
      assert Exited(s, n);
      ExitedChild(PlanOf(t), s, n);
    }
  }

  // ----- double elimination -----

  /** The real player an entrant of a seat is. */
  function RealOf(t: Roster, p: PlayerId): PlayerId
    requires ValidRoster(t)
  {
    if p < 8 then p else LeafOf(t, LoserChild(t, Source(p)))
  }

  lemma LoserIsEntrant(t: Roster, b: Battle)
    requires ValidRoster(t)
    ensures Result(t, b).loser.st.id == Entry(t, LoserChild(t, b)).st.id
    ensures Result(t, b).winner.st.id == Entry(t, WinnerChild(t, b)).st.id
    ensures Result(t, b).loser.full == Entry(t, LoserChild(t, b)).full
  {
    hide Left, Right, Entry, Result, Bout, Round;
    ResultIs(t, b);
    BoutShape(b, Pair(Entry(t, Left(b)).st, Entry(t, Right(b)).st), |Result(t, b).rounds| - 1);
  }

  lemma EntrantOfAgent(t: Roster, p: PlayerId)
    requires ValidRoster(t) && p >= 8
    ensures Entry(t, Seat(p)).st.id == Result(t, Source(p)).loser.st.id
    ensures Entry(t, Seat(p)).full == Result(t, Source(p)).loser.full
  {
    RoutingIsOneToOne();
    hide Result, Source;
  }

  /** The entrant of every node is one of the eight real players, with the HP that
      player started with as its full HP. */
  lemma EntrantIsReal(t: Roster, n: Node)
    requires ValidRoster(t)
    ensures RealOf(t, LeafOf(t, n)) < 8
    ensures Entry(t, n).st.id == RealOf(t, LeafOf(t, n))
    ensures Entry(t, n).full == t[RealOf(t, LeafOf(t, n))].hp
  {
    hide Left, Right, Parent, Entry, Result, Source, LoserChild, LeafOf;
    var p := LeafOf(t, n);
    EntrantOfLeaf(t, n);
    if p >= 8 {
      var z := LoserChild(t, Source(p));
      EntrantOfAgent(t, p);
      LoserIsEntrant(t, Source(p));
      EntrantOfLeaf(t, z);
      FeederIsReal(t, p);
      RealEntrant(t, LeafOf(t, z));
    } else {
      RealEntrant(t, p);
    }
  }

  /** Every player enters every battle alive, its flag cleared, with at most the HP
      it started the championship with. */
  lemma EntersAlive(t: Roster, n: Node)
    requires ValidRoster(t)
    ensures RealOf(t, LeafOf(t, n)) < 8
    ensures 0 < Entry(t, n).st.hp <= t[RealOf(t, LeafOf(t, n))].hp && !Entry(t, n).st.ended
  {
    hide RealOf, LeafOf, Entry;
    EntrantIsReal(t, n);
  }

  /** An agent's player starts again with the HP it started the championship with. */
  lemma AgentsStartWhole(t: Roster, p: PlayerId)
    requires ValidRoster(t) && p >= 8
    ensures RealOf(t, p) < 8 && Entry(t, Seat(p)).st.hp == t[RealOf(t, p)].hp
  {
    hide RealOf, Entry, Result, Source;
    HpOnEntry(t, Seat(p));
    EntrantIsReal(t, Seat(p));
    LeafOfSeat(t, p);
  }

  lemma RealEntrant(t: Roster, p: PlayerId)
    requires ValidRoster(t) && p < 8
    ensures Entry(t, Seat(p)) == Entrant(t[p], t[p].hp) && t[p].id == p
  {
  }

  lemma EntrantOfLeaf(t: Roster, n: Node)
    requires ValidRoster(t)
    ensures Entry(t, n).st.id == Entry(t, Seat(LeafOf(t, n))).st.id
    ensures Entry(t, n).full == Entry(t, Seat(LeafOf(t, n))).full
  {
    if n == ROOT {
      RootEntrant(t);
      var w := WinnerChild(t, A);
      WinnerIsNotRoot(t, A);
      LeafStep(t, A);
      LeafStream(t, w);
    } else {
      LeafStream(t, n);
    }
  }

  lemma WinnerIsNotRoot(t: Roster, b: Battle)
    requires ValidRoster(t)
    ensures WinnerChild(t, b) != ROOT && LoserChild(t, b) != ROOT
    ensures Parent(WinnerChild(t, b)) == b && Parent(LoserChild(t, b)) == b
  {
    ChildrenOf(b);
  }

  lemma RootEntrant(t: Roster)
    requires ValidRoster(t)
    ensures Entry(t, ROOT).st.id == Entry(t, WinnerChild(t, A)).st.id
    ensures Entry(t, ROOT).full == Entry(t, WinnerChild(t, A)).full
  {
    LoserIsEntrant(t, A);
  }

  /** Two different seats that hold the same real player are that player's own
      seat and the one agent it feeds. */
  lemma SamePlayerSeats(t: Roster, p: PlayerId, q: PlayerId)
    requires ValidRoster(t) && RealOf(t, p) == RealOf(t, q)
    ensures p == q || (p < 8 <= q && EndOf(t, Seat(p)) == Source(q)) || (q < 8 <= p && EndOf(t, Seat(q)) == Source(p))
  {
    hide LeafOf, LoserChild, EndOf, Eliminated, Left, Right, Parent;
    RoutingIsOneToOne();
    if p >= 8 {
      FeedsIff(t, RealOf(t, p), p);
      FeederIsReal(t, p);
    }
    if q >= 8 {
      FeedsIff(t, RealOf(t, q), q);
      FeederIsReal(t, q);
    }
  }

  lemma EndOfLeaf(t: Roster, n: Node)
    requires ValidRoster(t) && n != ROOT && (Parent(n) == A || n == LoserChild(t, Parent(n)))
    ensures EndOf(t, Seat(LeafOf(t, n))) == Parent(n)
  {
    LeafStream(t, n);
    WinnerOrLoser(t, n);
    hide Left, Right, LeafOf, Result, Entry;
  }

  /** The two sides of every battle are different real players. */
  lemma OpponentsDiffer(t: Roster, b: Battle)
    requires ValidRoster(t)
    ensures Entry(t, Left(b)).st.id != Entry(t, Right(b)).st.id
  {
    var p, q := LeafOf(t, Left(b)), LeafOf(t, Right(b));
    ChildrenOf(b);
    SeatRangesOf(b);
    UpperSeats(b);
    RoutingIsOneToOne();
    LeafIsBelow(t, Left(b));
    LeafIsBelow(t, Right(b));
    hide Left, Right, LeafOf, Entry, Low, High, RealOf, Source, Parent, EndOf;
    EntrantIsReal(t, Left(b));
    EntrantIsReal(t, Right(b));
    if RealOf(t, p) == RealOf(t, q) {
      SamePlayerSeats(t, p, q);
      if b == A {
        EndOfLeaf(t, Left(b));
      }
    }
  }

  /** No player loses more than twice: two different battles with the same loser
      are one of zone A and one outside it. */
  lemma LosesAtMostTwice(t: Roster, b: Battle, c: Battle)
    requires ValidRoster(t) && b != c
    requires Result(t, b).loser.st.id == Result(t, c).loser.st.id
    ensures Upper(b) != Upper(c)
  {
    hide Left, Right, LeafOf, Entry, Result, RealOf, Source, EndOf, LoserChild, Parent;
    var p, q := LeafOf(t, LoserChild(t, b)), LeafOf(t, LoserChild(t, c));
    LoserIsEntrant(t, b);
    LoserIsEntrant(t, c);
    EntrantIsReal(t, LoserChild(t, b));
    EntrantIsReal(t, LoserChild(t, c));
    WinnerIsNotRoot(t, b);
    WinnerIsNotRoot(t, c);
    EndOfLeaf(t, LoserChild(t, b));
    EndOfLeaf(t, LoserChild(t, c));
    SamePlayerSeats(t, p, q);
    RoutingIsOneToOne();
    UpperEnds(t, p);
    UpperEnds(t, q);
  }

  // ----- one live slot per player -----

  /** Where a player's status can be: with a player process, or in a FIFO. */
  datatype Slot = AtProcess(p: PlayerId) | InFifo(k: PlayerId)

  function SeatOf(x: Slot): PlayerId { if x.AtProcess? then x.p else x.k }

  /** Real player i is live in this slot. */
  ghost predicate Live(s: Net, x: Slot, i: int) {
    match x
    case AtProcess(p) =>
      var q := s.player(p);
      (q.pc.Send? || q.pc.Receive? || q.pc.OpenWrite? || q.pc.PutFifo?) && q.st.id == i
    case InFifo(k) => k >= 8 && s.fifo(k).HasMessage() && s.fifo(k).Front().id == i
  }

  /** Every status sent on an edge is the entrant's. */
  lemma SentPlayer(t: Roster, n: Node, i: nat)
    requires ValidRoster(t) && n != ROOT && i < |Sends(t, n)|
    ensures Sends(t, n)[i].id == Entry(t, n).st.id
  {
    StreamShape(t, n);
    SentBy(Entry(t, n), Sends(t, n), Replies(t, n), i);
  }

  lemma SentBy(e: Entrant, u: seq<Status>, d: seq<Status>, i: nat)
    requires Conversation(e, u, d) && i < |u|
    ensures u[i].id == e.st.id
  {
    if i > 0 {
      assert GoesOn(d[i - 1], e.full, u[i - 1 + 1]);
    }
  }

  lemma SeatSends(t: Roster, p: PlayerId, i: nat)
    requires ValidRoster(t) && i < |Sends(t, Seat(p))|
    ensures Sends(t, Seat(p))[i].id == RealOf(t, p)
  {
    hide Sends, Entry, RealOf, LeafOf;
    SentPlayer(t, Seat(p), i);
    EntrantIsReal(t, Seat(p));
    LeafOfSeat(t, p);
  }

  lemma FeederIs(t: Roster, k: PlayerId)
    requires ValidRoster(t) && k >= 8
    ensures PlanOf(t).Feeder(k) == RealOf(t, k)
  {
    PlanFeeder(t, k);
    hide PlanOf, LeafOf, LoserChild, Source;
  }

  /** A live slot holds the player its seat stands for; and while an agent, or
      its FIFO, holds a player, that player's own process has gone. */
  lemma LiveSlot(t: Roster, s: Net, x: Slot, i: int)
    requires ValidRoster(t) && Inv(PlanOf(t), s) && Live(s, x, i)
    ensures i == RealOf(t, SeatOf(x))
    ensures SeatOf(x) >= 8 ==> i < 8 && s.player(i).pc.Gone?
    ensures x.AtProcess? ==> !s.player(SeatOf(x)).pc.Gone? && !Unfed(s.player(SeatOf(x)).pc)
    ensures x.InFifo? ==> SeatOf(x) >= 8 && Unfed(s.player(SeatOf(x)).pc)
  {
    hide PlanOf, RealOf, Sends, BattlesOk, AgentFor, Source;
    var m := PlanOf(t);
    var p := SeatOf(x);
    PlanUp(t, Seat(p));
    assert PlayerOk(m, p, s.player(p), |s.up(Seat(p)).sent|, s.down(Seat(p)).taken);
    if p >= 8 {
      FeederIs(t, p);
      EvaluatorIsCoherent(t);
      assert FifoOk(s.player(p).pc, s.player(m.Feeder(p)).pc, s.fifo(p), m.up(Seat(p)));
      SeatSends(t, p, 0);
    }
    if x.AtProcess? {
      if s.player(p).pc.Send? || s.player(p).pc.Receive? {
        SeatSends(t, p, s.down(Seat(p)).taken);
      } else {
        RoutingIsOneToOne();
        var a := AgentFor(s.player(p).st.cur);
        PlanUp(t, Seat(a));
        SeatSends(t, a, 0);
        FeederIs(t, a);
        RealSeat(t, p);
      }
    }
  }

  lemma RealSeat(t: Roster, p: PlayerId)
    requires ValidRoster(t) && p < 8
    ensures RealOf(t, p) == p
  {
  }

  /** Conservation: in every reachable state each real player is live in at most
      one place: one player process, one agent process, or one FIFO. */
  lemma OneLiveSlot(t: Roster, schedule: seq<Node>, x: Slot, y: Slot, i: int)
    requires ValidRoster(t)
    requires Live(Run(Init(t), schedule), x, i) && Live(Run(Init(t), schedule), y, i)
    ensures x == y
  {
    hide PlanOf, RealOf, Run, Init, Inv, Live, EndOf, Source;
    var s := Run(Init(t), schedule);
    ReachableHolds(t, schedule);
    LiveSlot(t, s, x, i);
    LiveSlot(t, s, y, i);
    var p, q := SeatOf(x), SeatOf(y);
    SamePlayerSeats(t, p, q);
    if p < 8 {
      RealSeat(t, p);
    }
    if q < 8 {
      RealSeat(t, q);
    }
  }

  // ----- relays are transparent -----

  /** How many messages the player process below n exchanges before n's stream
      begins. */
  function Offset(t: Roster, n: Node): int
    requires ValidRoster(t) && n != ROOT
  {
    |Sends(t, Seat(LeafOf(t, n)))| - |Sends(t, n)|
  }

  /** How far a battle process has come with the side that goes on. */
  lemma TallyCounts(m: Plan, b: Battle, q: BattleProc, c: Tally)
    requires BattleOk(m, b, q, c) && b != A
    ensures var k := |m.rounds(b)|;
      if FightingOk(q, c, m.rounds(b), m.up(Left(b))) then c.us == 0 && c.dl <= k && c.dr <= k
      else
        && q.rightLost == RightDown(m.rounds(b))
        && (c.us > 0 ==> (if q.rightLost then c.ul else c.ur) >= k + c.us)
        && (if q.rightLost then c.dl else c.dr) <= k + c.ds
  {
    hide Left, Right;
  }

  lemma RelayCounts(m: Plan, s: Net, b: Battle)
    requires Inv(m, s) && RoundsFit(m, b) && RelayFits(m, b) && b != A
    ensures var w := m.winner(b); var k := |m.rounds(b)|; var n := Fight(b);
      && (|s.up(n).sent| > 0 ==> |s.up(w).sent| >= k + |s.up(n).sent|)
      && |s.down(w).sent| <= k + |s.down(n).sent|
  {
    hide Left, Right, Inv, TallyOf, RoundsMatch, BattleOk, FightingOk, RelayFits, ExitOk;
    TallyIs(s, b);
    ChildrenOf(b);
    var q := s.battle(b);
    InvAt(m, s, b);
    TallyCounts(m, b, q, TallyOf(s, b));
    PipesAt(m, s, Left(b));
    PipesAt(m, s, Right(b));
    PipesAt(m, s, Fight(b));
    WinnerIsChild(m, b);
    if !FightingOk(q, TallyOf(s, b), m.rounds(b), m.up(Left(b))) {
      RelayChild(m, b, q);
    }
  }

  lemma WinnerIsChild(m: Plan, b: Battle)
    requires RoundsFit(m, b)
    ensures m.winner(b) == Left(b) || m.winner(b) == Right(b)
  {
    hide Left, Right, RoundsMatch;
  }

  lemma {:induction false} ChainCounts(t: Roster, s: Net, n: Node)
    requires ValidRoster(t) && n != ROOT && Inv(PlanOf(t), s)
    ensures var leaf := Seat(LeafOf(t, n));
      && (|s.up(n).sent| > 0 ==> |s.up(leaf).sent| >= Offset(t, n) + |s.up(n).sent|)
      && |s.down(leaf).sent| <= Offset(t, n) + |s.down(n).sent|
    decreases Rank(n)
  {
    hide PlanOf, Left, Right, Inv, Sends, Replies, LeafOf, WinnerChild, Result, RoundsFit, RelayFits, Parent;
    match n
    case Seat(p) => LeafOfSeat(t, p);
    case Fight(b) =>
      var m := PlanOf(t);
      var w := WinnerChild(t, b);
      WinnerIsNotRoot(t, b);
      ChildrenOf(b);
      WinnerRank(t, b);
      LeafStep(t, b);
      EvaluatorIsCoherent(t);
      assert RoundsFit(m, b) && RelayFits(m, b);
      PlanWinner(t, b);
      PlanRounds(t, b);
      RelayAt(t, b);
      RelayCounts(m, s, b);
      ChainCounts(t, s, w);
  }

  lemma WinnerRank(t: Roster, b: Battle)
    requires ValidRoster(t)
    ensures Rank(WinnerChild(t, b)) < Rank(Fight(b))
  {
    ChildrenOf(b);
  }

  /** All of part is in whole, from position off on. */
  ghost predicate PartOf<T>(part: seq<T>, whole: seq<T>, off: int) {
    0 <= off <= off + |part| <= |whole| && whole[off..off + |part|] == part
  }

  /** From position off on, whole is the beginning of part. */
  ghost predicate BeginsIn<T>(whole: seq<T>, off: int, part: seq<T>) {
    0 <= off && (off <= |whole| ==> whole[off..] <= part)
  }

  lemma MiddlePart<T>(whole: seq<T>, part: seq<T>, stream: seq<T>, tail: seq<T>)
    requires whole <= stream && part <= tail && Tail(stream, tail)
    requires |stream| - |tail| + |part| <= |whole|
    ensures PartOf(part, whole, |stream| - |tail|)
  {
    var off := |stream| - |tail|;
    forall i | 0 <= i < |part|
      ensures whole[off + i] == part[i]
    {
      assert stream[off..][i] == tail[i];
    }
  }

  lemma PrefixPart<T>(whole: seq<T>, part: seq<T>, stream: seq<T>, tail: seq<T>)
    requires whole <= stream && part <= tail && Tail(stream, tail)
    requires |whole| <= |stream| - |tail| + |part|
    ensures BeginsIn(whole, |stream| - |tail|, part)
  {
    var off := |stream| - |tail|;
    if off <= |whole| {
      forall i | 0 <= i < |whole| - off
        ensures whole[off..][i] == part[i]
      {
        assert stream[off..][i] == tail[i];
      }
    }
  }

  lemma OffsetIs(t: Roster, n: Node)
    requires ValidRoster(t) && n != ROOT
    ensures var leaf := Seat(LeafOf(t, n));
      Offset(t, n) == |Sends(t, leaf)| - |Sends(t, n)| == |Replies(t, leaf)| - |Replies(t, n)|
  {
    hide LeafOf, Sends, Replies;
  }

  lemma SentThrough(t: Roster, s: Net, n: Node)
    requires ValidRoster(t) && n != ROOT && Inv(PlanOf(t), s) && |s.up(n).sent| > 0
    ensures PartOf(s.up(n).sent, s.up(Seat(LeafOf(t, n))).sent, Offset(t, n))
  {
    hide PlanOf, Inv, Sends, Replies, LeafOf, PartOf, Tail, Entry, EndChild, Offset;
    var leaf := Seat(LeafOf(t, n));
    LeafStream(t, n);
    ChainCounts(t, s, n);
    PipesOfInv(t, s, n);
    PipesOfInv(t, s, leaf);
    OffsetIs(t, n);
    MiddlePart(s.up(leaf).sent, s.up(n).sent, Sends(t, leaf), Sends(t, n));
  }

  /** What has come down to n, and how much of it can have come to the leaf. */
  lemma RepliesBehind(t: Roster, s: Net, n: Node)
    requires ValidRoster(t) && n != ROOT && Inv(PlanOf(t), s)
    ensures var leaf := Seat(LeafOf(t, n));
      && s.down(leaf).sent <= Replies(t, leaf) && s.down(n).sent <= Replies(t, n)
      && |s.down(leaf).sent| <= Offset(t, n) + |s.down(n).sent|
  {
    hide PlanOf, Inv, Sends, Replies, LeafOf, Offset;
    ChainCounts(t, s, n);
    PipesOfInv(t, s, n);
    PipesOfInv(t, s, Seat(LeafOf(t, n)));
  }

  lemma LeafReplies(t: Roster, n: Node)
    requires ValidRoster(t) && n != ROOT
    ensures Tail(Replies(t, Seat(LeafOf(t, n))), Replies(t, n))
  {
    hide Sends, Replies, LeafOf, Tail, Entry, EndChild;
    LeafStream(t, n);
  }

  lemma RepliedThrough(t: Roster, s: Net, n: Node)
    requires ValidRoster(t) && n != ROOT && Inv(PlanOf(t), s)
    ensures BeginsIn(s.down(Seat(LeafOf(t, n))).sent, Offset(t, n), s.down(n).sent)
  {
    hide PlanOf, Inv, Sends, Replies, LeafOf, BeginsIn, Tail, Offset, ValidRoster;
    LeafReplies(t, n);
    OffsetIs(t, n);
    RepliesBehind(t, s, n);
    var leaf := Seat(LeafOf(t, n));
    PrefixPart(s.down(leaf).sent, s.down(n).sent, Replies(t, leaf), Replies(t, n));
  }

  /** Relay transparency.  Whatever chain of relaying battles lies between node n
      and the player process below it: the statuses n has sent up are, unchanged
      and in order, ones that process sent; the replies that process has got are,
      unchanged and in order, ones that came down to n; and the process never has
      more than one message under way. */
  lemma RelaysAreTransparent(t: Roster, schedule: seq<Node>, n: Node)
    requires ValidRoster(t) && n != ROOT
    ensures var s := Run(Init(t), schedule); var leaf := Seat(LeafOf(t, n)); var off := Offset(t, n);
      && (|s.up(n).sent| > 0 ==> PartOf(s.up(n).sent, s.up(leaf).sent, off))
      && BeginsIn(s.down(leaf).sent, off, s.down(n).sent)
      && s.down(leaf).taken <= |s.up(leaf).sent| <= s.down(leaf).taken + 1
  {
    hide PlanOf, Run, Init, Inv, Offset, LeafOf, Coherent, PartOf, BeginsIn;
    var s := Run(Init(t), schedule);
    ReachableHolds(t, schedule);
    OneUnderWay(PlanOf(t), s, LeafOf(t, n));
    RepliedThrough(t, s, n);
    if |s.up(n).sent| > 0 {
      SentThrough(t, s, n);
    }
  }

  lemma OneUnderWay(m: Plan, s: Net, p: PlayerId)
    requires Inv(m, s)
    ensures s.down(Seat(p)).taken <= |s.up(Seat(p)).sent| <= s.down(Seat(p)).taken + 1
  {
    hide BattlesOk, PipesOk, FifosOk, HandsOver;
    assert PlayerOk(m, p, s.player(p), |s.up(Seat(p)).sent|, s.down(Seat(p)).taken);
  }

  lemma PipesOfInv(t: Roster, s: Net, n: Node)
    requires ValidRoster(t) && n != ROOT && Inv(PlanOf(t), s)
    ensures s.up(n).sent <= Sends(t, n) && s.down(n).sent <= Replies(t, n)
  {
    hide PlanOf, BattlesOk, PlayersOk, FifosOk, PipesOk, Sends, Replies;
    PipesFollowPlan(t, s, n);
  }
}
