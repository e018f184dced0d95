/** A plan of a championship: for every edge the two streams that pass it, and
    for every battle its rounds.  Coherence says that each process, fed with its
    incoming streams, produces its outgoing ones. */
module TournamentPlan {
  import opened TournamentBracket
  import opened TournamentBout
  import opened TournamentEvaluator
  import opened TournamentStreams
  import opened TournamentNetwork

  datatype Plan = Plan(
    up: Node -> seq<Status>,
    down: Node -> seq<Status>,
    full: Node -> int,
    rounds: Battle -> seq<Pair>,
    winner: Battle -> Node,
    loser: Battle -> Node,
    leaf: Node -> PlayerId)
  {
    /** The player process that feeds agent k. */
    function Feeder(k: PlayerId): PlayerId
      requires k >= 8
    {
      leaf(loser(Source(k)))
    }
  }

  /** The rounds of battle b turn what both children send into what they get. */
  ghost predicate RoundsMatch(b: Battle, rs: seq<Pair>, lu: seq<Status>, ld: seq<Status>, ru: seq<Status>, rd: seq<Status>) {
    && 1 <= |rs| <= |lu| == |ld|
    && |rs| <= |ru| == |rd|
    && forall k :: 0 <= k < |rs| ==>
         && rs[k] == Round(b, Pair(lu[k], ru[k]))
         && ld[k] == rs[k].left
         && rd[k] == rs[k].right
         && (rs[k].Over() <==> k == |rs| - 1)
  }

  /** Exactly one side is down after the last round. */
  ghost predicate Decided(b: Battle, last: Pair, winner: Node, loser: Node) {
    && (last.right.hp <= 0 <==> last.left.hp > 0)
    && winner == (if last.right.hp <= 0 then Left(b) else Right(b))
    && loser == (if last.right.hp <= 0 then Right(b) else Left(b))
    && (b != A ==> Continues(if last.right.hp <= 0 then last.left else last.right))
  }

  ghost predicate RoundsFit(m: Plan, b: Battle) {
    && RoundsMatch(b, m.rounds(b), m.up(Left(b)), m.down(Left(b)), m.up(Right(b)), m.down(Right(b)))
    && Decided(b, Last(m.rounds(b)), m.winner(b), m.loser(b))
  }

  /** A relay passes on everything after the first k messages of the winner. */
  ghost predicate PassesOn(k: nat, wu: seq<Status>, wd: seq<Status>, nu: seq<Status>, nd: seq<Status>) {
    && |wu| == |wd| == k + |nu|
    && |nu| == |nd|
    && forall j :: 0 <= j < |nu| ==> wu[k + j] == nu[j] && wd[k + j] == nd[j]
  }

  /** A relay stops exactly with the last reply. */
  ghost predicate StopsInTime(r: seq<Status>) {
    |r| >= 1 && forall j :: 0 <= j < |r| ==> (Continues(r[j]) <==> j < |r| - 1)
  }

  ghost predicate RelayFits(m: Plan, b: Battle) {
    var k, n, w := |m.rounds(b)|, Fight(b), m.winner(b);
    && |m.up(m.loser(b))| == k
    && if b == A then |m.up(w)| == k
       else PassesOn(k, m.up(w), m.down(w), m.up(n), m.down(n)) && StopsInTime(m.down(n))
  }

  /** A player process echoes each reply but the last. */
  ghost predicate EchoesMatch(u: seq<Status>, d: seq<Status>, full: int) {
    && 1 <= |u| == |d|
    && forall j :: 0 <= j < |d| - 1 ==> Arrive(d[j], full) == PlayerProc(Send, u[j + 1], full)
  }

  /** After the last reply it leaves, or hands itself to the one agent it feeds. */
  ghost predicate PlayerFits(m: Plan, p: PlayerId) {
    var n := Seat(p);
    && EchoesMatch(m.up(n), m.down(n), m.full(n))
    && var q := Arrive(Last(m.down(n)), m.full(n));
       if p < 8 && q.pc.OpenWrite? then HandsOver(m, p, q) else q.pc.Gone? && FeedsNone(m, p)
  }

  ghost predicate HandsOver(m: Plan, p: PlayerId, q: PlayerProc) {
    && Upper(q.st.cur)
    && m.Feeder(AgentFor(q.st.cur)) == p
    && |m.up(Seat(AgentFor(q.st.cur)))| >= 1 && q.st == m.up(Seat(AgentFor(q.st.cur)))[0]
    && forall k: PlayerId :: k >= 8 && m.Feeder(k) == p ==> k == AgentFor(q.st.cur)
  }

  ghost predicate FeedsNone(m: Plan, p: PlayerId) {
    forall k: PlayerId :: k >= 8 ==> m.Feeder(k) != p
  }

  /** Who a process starts with: a real player with its table entry, an agent
      with the player it is handed. */
  ghost predicate StartFits(m: Plan, t: Roster, p: PlayerId)
    requires |t| == 8
  {
    var n := Seat(p);
    && |m.up(n)| >= 1
    && var s := if p < 8 then t[p] else m.up(n)[0];
       Arrive(s, s.hp) == PlayerProc(Send, m.up(n)[0], m.full(n))
  }

  ghost predicate Coherent(m: Plan, t: Roster)
    requires |t| == 8
  {
    && (forall b: Battle :: RoundsFit(m, b) && RelayFits(m, b))
    && (forall p: PlayerId :: PlayerFits(m, p) && StartFits(m, t, p))
    && (forall k: PlayerId :: k >= 8 ==> m.Feeder(k) < 8)
    && m.up(ROOT) == m.down(ROOT) == []
    && (forall p: PlayerId :: m.leaf(Seat(p)) == p)
    && (forall b: Battle :: m.leaf(Fight(b)) == m.leaf(m.winner(b)))
  }

  /** The plan of the evaluator. */
  function PlanOf(t: Roster): Plan
    requires ValidRoster(t)
  {
    Plan(n => if n == ROOT then [] else Sends(t, n),
         n => if n == ROOT then [] else Replies(t, n),
         n => Entry(t, n).full,
         b => Result(t, b).rounds,
         b => WinnerChild(t, b),
         b => LoserChild(t, b),
         n => LeafOf(t, n))
  }

  lemma StreamHead(t: Roster, n: Node, k: nat)
    requires ValidRoster(t) && n != ROOT && k < |OwnReplies(t, n)|
    ensures |OwnReplies(t, n)| <= |Replies(t, n)|
    ensures Replies(t, n)[k] == OwnReplies(t, n)[k]
    ensures Sends(t, n)[k] == if k == 0 then Entry(t, n).st else OwnReplies(t, n)[k - 1]
  {
    hide Left, Right, Parent, Entry, OwnReplies;
  }

  lemma RoundAt(t: Roster, b: Battle, k: nat)
    requires ValidRoster(t) && k < |Result(t, b).rounds|
    ensures Left(b) != ROOT && Right(b) != ROOT
    ensures k < |Sends(t, Left(b))| && k < |Sends(t, Right(b))|
    ensures Result(t, b).rounds[k] == Round(b, Pair(Sends(t, Left(b))[k], Sends(t, Right(b))[k]))
    ensures Replies(t, Left(b))[k] == Result(t, b).rounds[k].left
    ensures Replies(t, Right(b))[k] == Result(t, b).rounds[k].right
    ensures Result(t, b).rounds[k].Over() <==> k == |Result(t, b).rounds| - 1
  {
    ChildrenOf(b);
    ResultIs(t, b);
    BoutShape(b, Pair(Entry(t, Left(b)).st, Entry(t, Right(b)).st), k);
    StreamHead(t, Left(b), k);
    StreamHead(t, Right(b), k);
    hide Left, Right, Entry, Result, Bout, Round, Sends, Replies;
  }

  lemma PlanUp(t: Roster, n: Node)
    requires ValidRoster(t) && n != ROOT
    ensures PlanOf(t).up(n) == Sends(t, n)
  {
  }

  lemma PlanDown(t: Roster, n: Node)
    requires ValidRoster(t) && n != ROOT
    ensures PlanOf(t).down(n) == Replies(t, n)
  {
  }

  lemma PlanFull(t: Roster, n: Node)
    requires ValidRoster(t)
    ensures PlanOf(t).full(n) == Entry(t, n).full
  {
  }

  lemma PlanRounds(t: Roster, b: Battle)
    requires ValidRoster(t)
    ensures PlanOf(t).rounds(b) == Result(t, b).rounds
  {
  }

  lemma PlanWinner(t: Roster, b: Battle)
    requires ValidRoster(t)
    ensures PlanOf(t).winner(b) == WinnerChild(t, b)
  {
  }

  lemma PlanLoser(t: Roster, b: Battle)
    requires ValidRoster(t)
    ensures PlanOf(t).loser(b) == LoserChild(t, b)
  {
  }

  lemma PlanLeaf(t: Roster, n: Node)
    requires ValidRoster(t)
    ensures PlanOf(t).leaf(n) == LeafOf(t, n)
  {
  }

  lemma RoundsAgree(t: Roster, b: Battle)
    requires ValidRoster(t)
    ensures Left(b) != ROOT && Right(b) != ROOT
    ensures RoundsMatch(b, Result(t, b).rounds, Sends(t, Left(b)), Replies(t, Left(b)), Sends(t, Right(b)), Replies(t, Right(b)))
  {
    hide Left, Right, Entry, Result, Sends, Replies, RoundMatches;
    ChildrenOf(b);
    forall k | 0 <= k < |Result(t, b).rounds|
      ensures RoundMatches(b, Result(t, b).rounds, Sends(t, Left(b)), Replies(t, Left(b)), Sends(t, Right(b)), Replies(t, Right(b)), k)
    {
      RoundIsMatched(t, b, k);
    }
    RoundsCollect(b, Result(t, b).rounds, Sends(t, Left(b)), Replies(t, Left(b)), Sends(t, Right(b)), Replies(t, Right(b)));
  }

  ghost predicate RoundMatches(b: Battle, rs: seq<Pair>, lu: seq<Status>, ld: seq<Status>, ru: seq<Status>, rd: seq<Status>, k: int) {
    && 0 <= k < |rs|
    && k < |lu| == |ld| && k < |ru| == |rd|
    && rs[k] == Round(b, Pair(lu[k], ru[k]))
    && ld[k] == rs[k].left
    && rd[k] == rs[k].right
    && (rs[k].Over() <==> k == |rs| - 1)
  }

  lemma RoundIsMatched(t: Roster, b: Battle, k: nat)
    requires ValidRoster(t) && k < |Result(t, b).rounds| && Left(b) != ROOT && Right(b) != ROOT
    ensures RoundMatches(b, Result(t, b).rounds, Sends(t, Left(b)), Replies(t, Left(b)), Sends(t, Right(b)), Replies(t, Right(b)), k)
  {
    hide Left, Right, Entry, Result, Sends, Replies, Round;
    RoundAt(t, b, k);
  }

  lemma RoundsCollect(b: Battle, rs: seq<Pair>, lu: seq<Status>, ld: seq<Status>, ru: seq<Status>, rd: seq<Status>)
    requires |rs| >= 1
    requires forall k :: 0 <= k < |rs| ==> RoundMatches(b, rs, lu, ld, ru, rd, k)
    ensures RoundsMatch(b, rs, lu, ld, ru, rd)
  {
    hide Round;
    assert RoundMatches(b, rs, lu, ld, ru, rd, |rs| - 1);
    forall k | 0 <= k < |rs|
      ensures rs[k] == Round(b, Pair(lu[k], ru[k])) && ld[k] == rs[k].left && rd[k] == rs[k].right && (rs[k].Over() <==> k == |rs| - 1)
    {
      assert RoundMatches(b, rs, lu, ld, ru, rd, k);
    }
  }

  lemma RoundsAreCoherent(t: Roster, b: Battle)
    requires ValidRoster(t)
    ensures RoundsFit(PlanOf(t), b)
  {
    RoundsAgree(t, b);
    LastRound(t, b);
    PlanRounds(t, b);
    PlanUp(t, Left(b));
    PlanDown(t, Left(b));
    PlanUp(t, Right(b));
    PlanDown(t, Right(b));
    PlanWinner(t, b);
    PlanLoser(t, b);
    hide Left, Right, PlanOf, Entry, Result, Sends, Replies, RoundsMatch, Decided;
  }

  lemma LastRound(t: Roster, b: Battle)
    requires ValidRoster(t)
    ensures Decided(b, Last(Result(t, b).rounds), WinnerChild(t, b), LoserChild(t, b))
  {
    hide Left, Right, Entry, Result, Bout, Round;
    ResultIs(t, b);
    BoutShape(b, Pair(Entry(t, Left(b)).st, Entry(t, Right(b)).st), |Result(t, b).rounds| - 1);
  }

  /** After the last round the winner's streams go on as the battle's own. */
  lemma RelayAt(t: Roster, b: Battle)
    requires ValidRoster(t)
    ensures WinnerChild(t, b) != ROOT && LoserChild(t, b) != ROOT
    ensures |Replies(t, LoserChild(t, b))| == |Result(t, b).rounds|
    ensures b == A ==> |Replies(t, WinnerChild(t, b))| == |Result(t, b).rounds|
    ensures b != A ==> |Replies(t, WinnerChild(t, b))| == |Result(t, b).rounds| + |Replies(t, Fight(b))|
  {
    ChildrenOf(b);
    hide Left, Right, Parent, Entry, Result;
  }

  lemma RelayPasses(t: Roster, b: Battle)
    requires ValidRoster(t) && b != A && WinnerChild(t, b) != ROOT
    ensures var w := WinnerChild(t, b); PassesOn(|Result(t, b).rounds|, Sends(t, w), Replies(t, w), Sends(t, Fight(b)), Replies(t, Fight(b)))
  {
    hide Sends, Replies, Result, PassesOn, WinnerChild;
    var w := WinnerChild(t, b);
    WinnerGoesOn(t, b);
    StreamGoesOn(t, w);
    PassesBehind(Echoes(Entry(t, w).st, OwnReplies(t, w)), OwnReplies(t, w), Sends(t, Fight(b)), Replies(t, Fight(b)));
  }

  lemma WinnerGoesOn(t: Roster, b: Battle)
    requires ValidRoster(t) && b != A
    ensures var w := WinnerChild(t, b);
      w != ROOT && Parent(w) == b && Survives(t, w) && |OwnReplies(t, w)| == |Result(t, b).rounds|
  {
    hide Left, Right, Parent, Result;
    ChildrenOf(b);
  }

  lemma StreamGoesOn(t: Roster, w: Node)
    requires ValidRoster(t) && w != ROOT && Survives(t, w)
    ensures Sends(t, w) == Echoes(Entry(t, w).st, OwnReplies(t, w)) + Sends(t, Fight(Parent(w)))
    ensures Replies(t, w) == OwnReplies(t, w) + Replies(t, Fight(Parent(w)))
  {
    hide Left, Right, Parent, Result, Entry, OwnReplies, Echoes;
  }

  lemma PassesBehind(x: seq<Status>, y: seq<Status>, nu: seq<Status>, nd: seq<Status>)
    requires |x| == |y| && |nu| == |nd|
    ensures PassesOn(|x|, x + nu, y + nd, nu, nd)
  {
  }

  lemma RelayStops(t: Roster, n: Node)
    requires ValidRoster(t) && n != ROOT
    ensures StopsInTime(Replies(t, n))
  {
    StreamShape(t, n);
    StreamEnd(t, n);
    StopsAtEnd(Entry(t, n), Sends(t, n), Replies(t, n));
  }

  lemma StopsAtEnd(e: Entrant, s: seq<Status>, r: seq<Status>)
    requires Conversation(e, s, r) && !Continues(Last(r))
    ensures StopsInTime(r)
  {
    forall j | 0 <= j < |r|
      ensures Continues(r[j]) <==> j < |r| - 1
    {
      if j < |r| - 1 {
        assert GoesOn(r[j], e.full, s[j + 1]);
      }
    }
  }

  lemma RelayIsCoherent(t: Roster, b: Battle)
    requires ValidRoster(t)
    ensures RelayFits(PlanOf(t), b)
  {
    hide Left, Right, PlanOf, Entry, Result, Sends, Replies, PassesOn, StopsInTime, WinnerChild, LoserChild;
    PlanRounds(t, b);
    PlanWinner(t, b);
    PlanLoser(t, b);
    RelayAt(t, b);
    PlanUp(t, WinnerChild(t, b));
    PlanDown(t, WinnerChild(t, b));
    PlanUp(t, LoserChild(t, b));
    if b != A {
      PlanUp(t, Fight(b));
      PlanDown(t, Fight(b));
      RelayPasses(t, b);
      RelayStops(t, Fight(b));
    }
  }

  lemma EchoesAgree(t: Roster, n: Node)
    requires ValidRoster(t) && n != ROOT
    ensures EchoesMatch(Sends(t, n), Replies(t, n), Entry(t, n).full)
  {
    StreamShape(t, n);
    EchoesOf(Entry(t, n), Sends(t, n), Replies(t, n));
  }

  lemma EchoesOf(e: Entrant, u: seq<Status>, d: seq<Status>)
    requires Conversation(e, u, d)
    ensures EchoesMatch(u, d, e.full)
  {
    forall j | 0 <= j < |d| - 1
      ensures Arrive(d[j], e.full) == PlayerProc(Send, u[j + 1], e.full)
    {
      assert GoesOn(d[j], e.full, u[j + 1]);
    }
  }

  /** An edge that ends below a battle is not the winner's. */
  lemma LoserEndsHere(t: Roster, b: Battle)
    requires ValidRoster(t)
    ensures LoserChild(t, b) != ROOT && Parent(LoserChild(t, b)) == b
    ensures EndChild(t, LoserChild(t, b)) == LoserChild(t, b)
  {
    ChildrenOf(b);
  }

  /** A player process feeds an agent exactly if it is eliminated in the agent's
      source battle. */
  lemma FeedsIff(t: Roster, p: PlayerId, k: PlayerId)
    requires ValidRoster(t) && k >= 8
    ensures LeafOf(t, LoserChild(t, Source(k))) == p <==> Eliminated(t, Seat(p)) && EndOf(t, Seat(p)) == Source(k)
  {
    var n := LoserChild(t, Source(k));
    LoserEndsHere(t, Source(k));
    if LeafOf(t, n) == p {
      LeafStream(t, n);
    }
    LeafOfEnd(t, Seat(p));
  }

  /** Only real players are eliminated in an upper battle, and only they feed
      agents. */
  lemma UpperEnds(t: Roster, p: PlayerId)
    requires ValidRoster(t)
    ensures Upper(EndOf(t, Seat(p))) ==> p < 8
  {
    var n := EndChild(t, Seat(p));
    LeafOfEnd(t, Seat(p));
    LeafIsBelow(t, n);
    ParentOf(n);
    SeatRangesOf(Parent(n));
    UpperSeats(Parent(n));
  }

  lemma FeederIsReal(t: Roster, k: PlayerId)
    requires ValidRoster(t) && k >= 8
    ensures LeafOf(t, LoserChild(t, Source(k))) < 8
  {
    var p := LeafOf(t, LoserChild(t, Source(k)));
    FeedsIff(t, p, k);
    RoutingIsOneToOne();
    UpperEnds(t, p);
  }

  /** What a player process does with its last reply. */
  lemma LastReply(t: Roster, p: PlayerId)
    requires ValidRoster(t)
    ensures var n := Seat(p); var end := EndOf(t, n); var q := Arrive(Last(Replies(t, n)), Entry(t, n).full);
      if Eliminated(t, n) && Upper(end) then q.pc.OpenWrite? && q.st.cur == end && q.st == Revived(Result(t, end).loser).st
      else q.pc.Gone?
  {
    StreamEnd(t, Seat(p));
    hide Left, Right, Parent, Entry, Result, Sends, Replies, EndOf, Eliminated;
  }

  lemma EntryOfAgent(t: Roster, b: Battle)
    requires ValidRoster(t) && Upper(b)
    ensures Sends(t, Seat(AgentFor(b)))[0] == Revived(Result(t, b).loser).st
  {
    RoutingIsOneToOne();
    StreamShape(t, Seat(AgentFor(b)));
  }

  lemma PlanFeeder(t: Roster, k: PlayerId)
    requires ValidRoster(t) && k >= 8
    ensures PlanOf(t).Feeder(k) == LeafOf(t, LoserChild(t, Source(k)))
  {
    PlanLoser(t, Source(k));
    PlanLeaf(t, LoserChild(t, Source(k)));
    hide PlanOf, LeafOf, LoserChild, Source;
  }

  /** Process p is eliminated in the battle agent k waits for. */
  predicate Feeds(t: Roster, p: PlayerId, k: PlayerId)
    requires ValidRoster(t)
  {
    Eliminated(t, Seat(p)) && Upper(EndOf(t, Seat(p))) && k == AgentFor(EndOf(t, Seat(p)))
  }

  lemma FeedsAgree(t: Roster, p: PlayerId, k: PlayerId)
    requires ValidRoster(t) && k >= 8
    ensures PlanOf(t).Feeder(k) == p <==> Feeds(t, p, k)
  {
    hide PlanOf, LeafOf, LoserChild, EndOf, Eliminated, Left, Right, Parent, Source, AgentFor;
    PlanFeeder(t, k);
    FeedsIff(t, p, k);
    RoutingIsOneToOne();
  }

  lemma PlayersAreCoherent(t: Roster, p: PlayerId)
    requires ValidRoster(t)
    ensures PlayerFits(PlanOf(t), p)
  {
    hide Left, Right, Parent, PlanOf, Entry, Result, Sends, Replies, EndOf, Eliminated, Arrive, EchoesMatch, Source, AgentFor, Revived;
    var n := Seat(p);
    var m := PlanOf(t);
    PlanUp(t, n);
    PlanDown(t, n);
    PlanFull(t, n);
    EchoesAgree(t, n);
    LastReply(t, p);
    UpperEnds(t, p);
    forall k: PlayerId | k >= 8
      ensures m.Feeder(k) == p <==> Feeds(t, p, k)
    {
      FeedsAgree(t, p, k);
    }
    if Eliminated(t, n) && Upper(EndOf(t, n)) {
      RoutingIsOneToOne();
      EntryOfAgent(t, EndOf(t, n));
      PlanUp(t, Seat(AgentFor(EndOf(t, n))));
    }
  }

  lemma StartOf(t: Roster, p: PlayerId)
    requires ValidRoster(t)
    ensures var n := Seat(p); var s := if p < 8 then t[p] else Sends(t, n)[0];
      Arrive(s, s.hp) == PlayerProc(Send, Sends(t, n)[0], Entry(t, n).full)
  {
    StreamShape(t, Seat(p));
    hide Sends, Replies;
  }

  lemma StartsAreCoherent(t: Roster, p: PlayerId)
    requires ValidRoster(t)
    ensures StartFits(PlanOf(t), t, p)
  {
    hide PlanOf, Entry, Sends, Replies, Arrive;
    PlanUp(t, Seat(p));
    PlanFull(t, Seat(p));
    StartOf(t, p);
  }

  lemma LeavesAreCoherent(t: Roster, b: Battle, p: PlayerId)
    requires ValidRoster(t)
    ensures PlanOf(t).leaf(Fight(b)) == PlanOf(t).leaf(PlanOf(t).winner(b))
    ensures PlanOf(t).leaf(Seat(p)) == p
  {
    hide PlanOf, LeafOf, WinnerChild;
    PlanWinner(t, b);
    PlanLeaf(t, Fight(b));
    PlanLeaf(t, WinnerChild(t, b));
    LeafStep(t, b);
    PlanLeaf(t, Seat(p));
    LeafOfSeat(t, p);
  }

  lemma FeedersAreCoherent(t: Roster, k: PlayerId)
    requires ValidRoster(t) && k >= 8
    ensures PlanOf(t).Feeder(k) < 8
  {
    hide PlanOf, LeafOf, LoserChild, Source;
    PlanFeeder(t, k);
    FeederIsReal(t, k);
  }

  /** The evaluator's plan is coherent: fed with the streams it predicts, every
      process produces the streams it predicts. */
  lemma EvaluatorIsCoherent(t: Roster)
    requires ValidRoster(t)
    ensures Coherent(PlanOf(t), t)
  {
    hide PlanOf, RoundsFit, RelayFits, PlayerFits, StartFits, Source;
    var m := PlanOf(t);
    forall b: Battle
      ensures RoundsFit(m, b) && RelayFits(m, b)
    {
      RoundsAreCoherent(t, b);
      RelayIsCoherent(t, b);
    }
    PlanUpAtRoot(t);
    PlanDownAtRoot(t);
    forall b: Battle
      ensures m.leaf(Fight(b)) == m.leaf(m.winner(b))
    {
      LeavesAreCoherent(t, b, 0);
    }
    forall p: PlayerId
      ensures PlayerFits(m, p) && StartFits(m, t, p)
      ensures m.leaf(Seat(p)) == p
    {
      PlayersAreCoherent(t, p);
      StartsAreCoherent(t, p);
      LeavesAreCoherent(t, A, p);
    }
    forall k: PlayerId | k >= 8
      ensures m.Feeder(k) < 8
    {
      FeedersAreCoherent(t, k);
    }
  }

  lemma PlanUpAtRoot(t: Roster)
    requires ValidRoster(t)
    ensures PlanOf(t).up(ROOT) == []
  {
  }

  lemma PlanDownAtRoot(t: Roster)
    requires ValidRoster(t)
    ensures PlanOf(t).down(ROOT) == []
  {
  }

  lemma LeafStep(t: Roster, b: Battle)
    requires ValidRoster(t)
    ensures LeafOf(t, Fight(b)) == LeafOf(t, WinnerChild(t, b))
  {
    ChildrenOf(b);
    hide Left, Right, Result, WinnerChild;
  }

  lemma LeafOfSeat(t: Roster, p: PlayerId)
    requires ValidRoster(t)
    ensures LeafOf(t, Seat(p)) == p
  {
  }
}
