/** The bracket evaluator: what the championship should compute, with no
    processes and no pipes.  It also predicts, for every edge of the tree, the
    whole stream of statuses that travels up and the stream of replies that
    travels down. */
module TournamentEvaluator {
  import opened TournamentBracket
  import opened TournamentBout

  /** The status table of the eight real players. */
  type Roster = seq<Status>

  predicate ValidRoster(t: Roster) {
    |t| == 8 && forall i :: 0 <= i < 8 ==> Fit(t[i]) && t[i].id == i && !t[i].ended
  }

  /** A player on its way into a battle, with the HP it recovers towards. */
  datatype Entrant = Entrant(st: Status, full: int)

  predicate Ready(e: Entrant) {
    Fit(e.st) && !e.st.ended && e.st.hp <= e.full
  }

  /** A C int division by two. */
  function HalfOf(x: int): int {
    if x >= 0 then x / 2 else -((-x) / 2)
  }

  /** A winner moves on with its flag cleared and half of its lost HP back. */
  function Recovered(e: Entrant): Entrant {
    e.(st := e.st.(ended := false, hp := e.st.hp + HalfOf(e.full - e.st.hp)))
  }

  /** A loser of zone A is handed to its agent with all its HP back. */
  function Revived(e: Entrant): Entrant {
    e.(st := e.st.(ended := false, hp := e.full))
  }

  /** A finished battle: its rounds, and both sides as they leave it. */
  datatype Outcome = Outcome(rounds: seq<Pair>, rightLost: bool, winner: Entrant, loser: Entrant)

  function Decide(l: Entrant, r: Entrant, rs: seq<Pair>): Outcome
    requires |rs| >= 1
  {
    var last := rs[|rs| - 1];
    if last.right.hp <= 0 then Outcome(rs, true, Entrant(last.left, l.full), Entrant(last.right, r.full))
    else Outcome(rs, false, Entrant(last.right, r.full), Entrant(last.left, l.full))
  }

  /** A decided battle leaves a winner that can go on and a loser that an agent
      can take over. */
  lemma DecideIsReady(b: Battle, l: Entrant, r: Entrant)
    requires Ready(l) && Ready(r)
    ensures var x := Decide(l, r, Bout(b, Pair(l.st, r.st)));
      Ready(Recovered(x.winner)) && Ready(Revived(x.loser))
  {
    BoutShape(b, Pair(l.st, r.st), |Bout(b, Pair(l.st, r.st))| - 1);
    hide Bout, Round;
  }

  /** A winner gets half of the HP it has lost, rounded down. */
  lemma RecoversHalf(e: Entrant)
    requires e.st.hp <= e.full
    ensures var gain := Recovered(e).st.hp - e.st.hp;
      2 * gain <= e.full - e.st.hp <= 2 * gain + 1
  {
  }

  /** Who comes up from a node, as it enters the battle above. */
  function Entry(t: Roster, n: Node): (e: Entrant)
    requires ValidRoster(t)
    ensures Ready(e)
    decreases Rank(n), 1
  {
    match n
    case Seat(p) =>
      if p < 8 then Entrant(t[p], t[p].hp)
      else RoutingIsOneToOne(); Revived(Result(t, Source(p)).loser)
    case Fight(b) => Recovered(Result(t, b).winner)
  }

  /** The result of battle b. */
  function Result(t: Roster, b: Battle): (x: Outcome)
    requires ValidRoster(t)
    ensures |x.rounds| >= 1
    ensures Ready(Recovered(x.winner)) && Ready(Revived(x.loser))
    decreases Rank(Fight(b)), 0
  {
    ChildrenOf(b);
    var l, r := Entry(t, Left(b)), Entry(t, Right(b));
    DecideIsReady(b, l, r);
    Decide(l, r, Bout(b, Pair(l.st, r.st)))
  }

  /** The result of a battle in terms of its last round. */
  lemma ResultIs(t: Roster, b: Battle)
    requires ValidRoster(t)
    ensures var x := Result(t, b); var l := Entry(t, Left(b)); var r := Entry(t, Right(b)); var last := x.rounds[|x.rounds| - 1];
      && x.rounds == Bout(b, Pair(l.st, r.st))
      && x.rightLost == (last.right.hp <= 0)
      && x.winner == (if x.rightLost then Entrant(last.left, l.full) else Entrant(last.right, r.full))
      && x.loser == (if x.rightLost then Entrant(last.right, r.full) else Entrant(last.left, l.full))
  {
    hide Left, Right, Entry, Bout;
  }

  function Champion(t: Roster): int
    requires ValidRoster(t)
  {
    Result(t, A).winner.st.id
  }

  function WinnerChild(t: Roster, b: Battle): Node
    requires ValidRoster(t)
  {
    if Result(t, b).rightLost then Left(b) else Right(b)
  }

  function LoserChild(t: Roster, b: Battle): Node
    requires ValidRoster(t)
  {
    if Result(t, b).rightLost then Right(b) else Left(b)
  }

  /** The winner of a battle enters the next one with half of its lost HP back; an
      agent enters with all of it. */
  lemma HpOnEntry(t: Roster, n: Node)
    requires ValidRoster(t)
    ensures match n
      case Fight(b) =>
        var w := Result(t, b).winner; var gain := Entry(t, n).st.hp - w.st.hp;
        w.st.hp <= w.full == Entry(t, n).full && 2 * gain <= w.full - w.st.hp <= 2 * gain + 1
      case Seat(p) =>
        if p < 8 then Entry(t, n).st.hp == t[p].hp
        else Entry(t, n).st.hp == Entry(t, n).full == Result(t, Source(p)).loser.full
  {
    match n
    case Fight(b) =>
      WinnerIsHurt(t, b);
      RecoversHalf(Result(t, b).winner);
      hide Result;
    case Seat(p) =>
      RoutingIsOneToOne();
      hide Result;
  }

  lemma WinnerIsHurt(t: Roster, b: Battle)
    requires ValidRoster(t)
    ensures Result(t, b).winner.st.hp <= Result(t, b).winner.full
  {
    hide Left, Right, Entry, Result, Bout, Round, HalfOf;
    ResultIs(t, b);
    ChildrenOf(b);
    var l, r := Entry(t, Left(b)), Entry(t, Right(b));
    BoutShape(b, Pair(l.st, r.st), |Bout(b, Pair(l.st, r.st))| - 1);
  }
}
