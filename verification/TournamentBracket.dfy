/** The fixed shape of the championship: fourteen battle processes and fifteen
    player processes, wired as one binary tree.  Seats 0..7 are the real
    players; seats 8..14 are agents, each waiting for the loser of one battle of
    the upper half (zone A). */
module TournamentBracket {

  datatype Battle = A | B | C | D | E | F | G | H | I | J | K | L | M | N

  type PlayerId = p: nat | p < 15

  /** A process of the tree: a battle or a player. */
  datatype Node = Fight(battle: Battle) | Seat(player: PlayerId)

  const ROOT: Node := Fight(A)

  function Left(b: Battle): Node {
    match b
    case A => Fight(B)
    case B => Fight(D)
    case C => Fight(F)
    case D => Fight(G)
    case E => Fight(I)
    case F => Fight(K)
    case G => Seat(0)
    case H => Seat(2)
    case I => Seat(4)
    case J => Seat(6)
    case K => Fight(M)
    case L => Fight(N)
    case M => Seat(8)
    case N => Seat(11)
  }

  function Right(b: Battle): Node {
    match b
    case A => Fight(C)
    case B => Fight(E)
    case C => Seat(14)
    case D => Fight(H)
    case E => Fight(J)
    case F => Fight(L)
    case G => Seat(1)
    case H => Seat(3)
    case I => Seat(5)
    case J => Seat(7)
    case K => Seat(10)
    case L => Seat(13)
    case M => Seat(9)
    case N => Seat(12)
  }

  /** The parent letters that both programs keep for their log lines. */
  function Parent(n: Node): Battle
    requires n != ROOT
  {
    match n
    case Fight(b) =>
      (match b
       case A => A
       case B => A
       case C => A
       case D => B
       case E => B
       case F => C
       case G => D
       case H => D
       case I => E
       case J => E
       case K => F
       case L => F
       case M => K
       case N => L)
    case Seat(p) =>
      if p <= 1 then G
      else if p <= 3 then H
      else if p <= 5 then I
      else if p <= 7 then J
      else if p <= 9 then M
      else if p == 10 then K
      else if p <= 12 then N
      else if p == 13 then L
      else C
  }

  /** Zone A: the battles whose loser is sent on to an agent. */
  predicate Upper(b: Battle) {
    b == B || b == D || b == E || b == G || b == H || b == I || b == J
  }

  /** Which agent takes over the loser of an upper battle. */
  function AgentFor(b: Battle): PlayerId
    requires Upper(b)
  {
    match b
    case B => 14
    case D => 10
    case E => 13
    case G => 8
    case H => 11
    case I => 9
    case J => 12
  }

  /** The battle an agent waits for. */
  function Source(k: PlayerId): Battle
    requires k >= 8
  {
    if k == 8 then G
    else if k == 9 then I
    else if k == 10 then D
    else if k == 11 then H
    else if k == 12 then J
    else if k == 13 then E
    else B
  }

  /** Distance from the root. */
  function Depth(n: Node): nat {
    match n
    case Fight(b) =>
      (match b
       case A => 0
       case B => 1 case C => 1
       case D => 2 case E => 2 case F => 2
       case G => 3 case H => 3 case I => 3 case J => 3 case K => 3 case L => 3
       case M => 4 case N => 4)
    case Seat(p) => 6
  }

  /** A node depends only on nodes of smaller rank: a battle on its children, an
      agent on the battle whose loser it takes over. */
  function Rank(n: Node): nat {
    match n
    case Fight(b) =>
      (match b
       case A => 7
       case B => 3 case C => 6
       case D => 2 case E => 2 case F => 5
       case G => 1 case H => 1 case I => 1 case J => 1 case K => 4 case L => 4
       case M => 3 case N => 3)
    case Seat(p) =>
      if p < 8 then 0
      else if p == 14 then 4
      else if p == 10 || p == 13 then 3
      else 2
  }

  /** The seats below a node are consecutive: Low(n) .. High(n). */
  function Low(n: Node): nat {
    match n
    case Seat(p) => p
    case Fight(b) =>
      (match b
       case A => 0 case B => 0 case D => 0 case G => 0
       case H => 2
       case E => 4 case I => 4
       case J => 6
       case C => 8 case F => 8 case K => 8 case M => 8
       case L => 11 case N => 11)
  }

  function High(n: Node): nat {
    match n
    case Seat(p) => p
    case Fight(b) =>
      (match b
       case A => 14 case C => 14
       case B => 7 case E => 7 case J => 7
       case D => 3 case H => 3
       case G => 1
       case I => 5
       case F => 13 case L => 13
       case K => 10
       case M => 9
       case N => 12)
  }

  /** The child tables and the parent tables describe the same tree, and a
      battle comes after both of its children. */
  lemma ChildrenOf(b: Battle)
    ensures Left(b) != ROOT && Right(b) != ROOT && Left(b) != Right(b)
    ensures Parent(Left(b)) == b && Parent(Right(b)) == b
    ensures Rank(Left(b)) < Rank(Fight(b)) && Rank(Right(b)) < Rank(Fight(b))
  {
  }

  lemma ParentOf(n: Node)
    requires n != ROOT
    ensures n == Left(Parent(n)) || n == Right(Parent(n))
  {
  }

  lemma ParentIsAbove(n: Node)
    requires n != ROOT
    ensures Depth(Fight(Parent(n))) < Depth(n)
  {
  }

  /** Loser routing is one to one between the upper battles and the agents. */
  lemma RoutingIsOneToOne()
    ensures forall b: Battle :: Upper(b) ==> AgentFor(b) >= 8 && Source(AgentFor(b)) == b
    ensures forall k: PlayerId :: k >= 8 ==> Upper(Source(k)) && AgentFor(Source(k)) == k
    ensures forall k: PlayerId :: k >= 8 ==> Rank(Fight(Source(k))) < Rank(Seat(k))
  {
  }

  /** Where the losers of zone A come in again: those of the first four battles meet
      in M and N, those of the next two meet the winners of these in K and L, and
      the one of B meets the last of them in C. */
  lemma LosersMeet()
    ensures Parent(Seat(AgentFor(G))) == Parent(Seat(AgentFor(I))) == M
    ensures Parent(Seat(AgentFor(H))) == Parent(Seat(AgentFor(J))) == N
    ensures Parent(Seat(AgentFor(D))) == Parent(Fight(M)) == K
    ensures Parent(Seat(AgentFor(E))) == Parent(Fight(N)) == L
    ensures Parent(Seat(AgentFor(B))) == Parent(Fight(F)) == C
    ensures AgentFor(G) == 8 && AgentFor(I) == 9 && AgentFor(H) == 11 && AgentFor(J) == 12
  {
  }

  /** The two subtrees of a battle hold disjoint ranges of seats. */
  lemma SeatRangesOf(b: Battle)
    ensures Low(Fight(b)) == Low(Left(b)) <= High(Left(b))
    ensures High(Left(b)) + 1 == Low(Right(b)) <= High(Right(b)) == High(Fight(b))
  {
  }

  /** The upper battles hold exactly the real players. */
  lemma UpperSeats(b: Battle)
    ensures Upper(b) ==> High(Fight(b)) < 8
    ensures !Upper(b) && b != A ==> Low(Fight(b)) >= 8
  {
  }
}
