/** What travels along each edge of the tree over a whole championship, as the
    evaluator predicts it: the statuses a child sends up and the replies it
    gets, first for the battle above it and then, while its player keeps
    winning, for every battle further up. */
module TournamentStreams {
  import opened TournamentBracket
  import opened TournamentBout
  import opened TournamentEvaluator

  /** The player that comes up from n wins the battle above and moves on. */
  predicate Survives(t: Roster, n: Node)
    requires ValidRoster(t) && n != ROOT
  {
    WinnerChild(t, Parent(n)) == n && Parent(n) != A
  }

  function Column(rs: seq<Pair>, left: bool): (c: seq<Status>)
    ensures |c| == |rs|
    ensures forall i :: 0 <= i < |c| ==> c[i] == if left then rs[i].left else rs[i].right
  {
    seq(|rs|, i requires 0 <= i < |rs| => if left then rs[i].left else rs[i].right)
  }

  /** A player that enters with s and then echoes every reply but the last. */
  function Echoes(s: Status, replies: seq<Status>): (c: seq<Status>)
    requires |replies| >= 1
    ensures |c| == |replies|
    ensures c[0] == s
    ensures forall i :: 1 <= i < |c| ==> c[i] == replies[i - 1]
  {
    [s] + replies[..|replies| - 1]
  }

  /** The replies of the battle above n to the side of n. */
  function OwnReplies(t: Roster, n: Node): (c: seq<Status>)
    requires ValidRoster(t) && n != ROOT
    ensures |c| >= 1
  {
    Column(Result(t, Parent(n)).rounds, n == Left(Parent(n)))
  }

  /** All replies that travel down the edge of n. */
  function Replies(t: Roster, n: Node): (c: seq<Status>)
    requires ValidRoster(t) && n != ROOT
    ensures |c| >= 1
    decreases Depth(n)
  {
    ParentIsAbove(n);
    if Survives(t, n) then OwnReplies(t, n) + Replies(t, Fight(Parent(n))) else OwnReplies(t, n)
  }

  /** All statuses that travel up the edge of n: the entrant, then the echo of
      each reply but the last, then whatever the battle above relays. */
  function Sends(t: Roster, n: Node): (c: seq<Status>)
    requires ValidRoster(t) && n != ROOT
    ensures |c| == |Replies(t, n)|
    decreases Depth(n)
  {
    ParentIsAbove(n);
    var own := Echoes(Entry(t, n).st, OwnReplies(t, n));
    if Survives(t, n) then own + Sends(t, Fight(Parent(n))) else own
  }

  /** The last edge on the way up of the player that comes from n. */
  function EndChild(t: Roster, n: Node): (m: Node)
    requires ValidRoster(t) && n != ROOT
    ensures m != ROOT
    ensures !Survives(t, m)
    decreases Depth(n)
  {
    ParentIsAbove(n);
    if Survives(t, n) then EndChild(t, Fight(Parent(n))) else n
  }

  /** The battle where the player that comes from n stops. */
  function EndOf(t: Roster, n: Node): Battle
    requires ValidRoster(t) && n != ROOT
  {
    Parent(EndChild(t, n))
  }

  predicate Eliminated(t: Roster, n: Node)
    requires ValidRoster(t) && n != ROOT
  {
    LoserChild(t, EndOf(t, n)) == EndChild(t, n)
  }

  /** The seat whose player process speaks for node n. */
  function LeafOf(t: Roster, n: Node): PlayerId
    requires ValidRoster(t)
    decreases Rank(n)
  {
    match n
    case Seat(p) => p
    case Fight(b) => ChildrenOf(b); LeafOf(t, WinnerChild(t, b))
  }

  /** A relay goes on after this reply. */
  predicate Continues(s: Status) {
    s.hp > 0 && !(s.cur == A && s.ended)
  }

  /** The next status a player sends after a reply that lets it go on. */
  function Next(s: Status, full: int): Status {
    if s.ended then Recovered(Entrant(s, full)).st else s
  }

  lemma WinnerOrLoser(t: Roster, n: Node)
    requires ValidRoster(t) && n != ROOT
    ensures n == WinnerChild(t, Parent(n)) || n == LoserChild(t, Parent(n))
    ensures WinnerChild(t, Parent(n)) != LoserChild(t, Parent(n))
    ensures (n == Left(Parent(n))) != (n == Right(Parent(n)))
  {
    ParentOf(n);
    ChildrenOf(Parent(n));
  }

  /** The replies of a single battle to one side. */
  lemma OwnShape(t: Roster, n: Node, i: nat)
    requires ValidRoster(t) && n != ROOT && i < |OwnReplies(t, n)|
    ensures var own := OwnReplies(t, n); var e := Entry(t, n);
      && SamePlayer(e.st, own[i])
      && own[i].cur == Parent(n)
      && (i < |own| - 1 ==> own[i].hp > 0 && !own[i].ended)
      && (i == |own| - 1 ==> own[i].ended
                             && (n == WinnerChild(t, Parent(n)) ==> own[i].hp > 0 && Entrant(own[i], e.full) == Result(t, Parent(n)).winner)
                             && (n == LoserChild(t, Parent(n)) ==> own[i].hp <= 0 && Entrant(own[i], e.full) == Result(t, Parent(n)).loser))
  {
    hide Left, Right, Parent, Entry, Result, OwnReplies, SamePlayer, WinnerChild, LoserChild;
    OwnRounds(t, n, i);
    if i == |OwnReplies(t, n)| - 1 {
      OwnFate(t, n);
    }
  }

  /** One reply to the side of n, by the rounds of the battle. */
  lemma OwnReplyIs(t: Roster, n: Node, i: nat)
    requires ValidRoster(t) && n != ROOT && i < |OwnReplies(t, n)|
    ensures var rs := Result(t, Parent(n)).rounds; var b := Parent(n);
      && |OwnReplies(t, n)| == |rs|
      && OwnReplies(t, n)[i] == (if n == Left(b) then rs[i].left else rs[i].right)
      && n == if n == Left(b) then Left(b) else Right(b)
  {
    hide Left, Right, Parent, Result;
    WinnerOrLoser(t, n);
  }

  lemma OwnRounds(t: Roster, n: Node, i: nat)
    requires ValidRoster(t) && n != ROOT && i < |OwnReplies(t, n)|
    ensures var own := OwnReplies(t, n); var e := Entry(t, n);
      && SamePlayer(e.st, own[i])
      && own[i].cur == Parent(n)
      && (i < |own| - 1 ==> own[i].hp > 0 && !own[i].ended)
      && (i == |own| - 1 ==> own[i].ended)
  {
    hide Left, Right, Parent, Entry, Result, OwnReplies, Bout, Round;
    var b := Parent(n);
    OwnReplyIs(t, n, i);
    ResultIs(t, b);
    BoutShape(b, Pair(Entry(t, Left(b)).st, Entry(t, Right(b)).st), i);
  }

  /** With its last reply the side of n has won or lost. */
  lemma OwnFate(t: Roster, n: Node)
    requires ValidRoster(t) && n != ROOT
    ensures var own := OwnReplies(t, n); var last := own[|own| - 1]; var e := Entry(t, n);
      && (n == WinnerChild(t, Parent(n)) ==> last.hp > 0 && Entrant(last, e.full) == Result(t, Parent(n)).winner)
      && (n == LoserChild(t, Parent(n)) ==> last.hp <= 0 && Entrant(last, e.full) == Result(t, Parent(n)).loser)
  {
    hide Left, Right, Parent, Entry, Result, OwnReplies, Bout, Round, SamePlayer;
    var b := Parent(n);
    OwnReplyIs(t, n, |OwnReplies(t, n)| - 1);
    WinnerOrLoser(t, n);
    ResultIs(t, b);
    BoutShape(b, Pair(Entry(t, Left(b)).st, Entry(t, Right(b)).st), |OwnReplies(t, n)| - 1);
  }

  predicate GoesOn(r: Status, full: int, s: Status) {
    Continues(r) && s == Next(r, full)
  }

  predicate Stops(t: Roster, n: Node, r: Status)
    requires ValidRoster(t) && n != ROOT
  {
    && !Continues(r) && r.ended && r.cur == EndOf(t, n)
    && if Eliminated(t, n) then r.hp <= 0 && Entrant(r, Entry(t, n).full) == Result(t, EndOf(t, n)).loser
       else r.hp > 0 && EndOf(t, n) == A && Entrant(r, Entry(t, n).full) == Result(t, A).winner
  }

  /** A survivor's last reply is what it enters the next battle from. */
  lemma HandOver(t: Roster, n: Node)
    requires ValidRoster(t) && n != ROOT && Survives(t, n)
    ensures var own := OwnReplies(t, n); var up := Fight(Parent(n));
      && up != ROOT
      && GoesOn(own[|own| - 1], Entry(t, n).full, Entry(t, up).st)
      && Entry(t, up).full == Entry(t, n).full
      && SamePlayer(Entry(t, n).st, Entry(t, up).st)
      && EndOf(t, n) == EndOf(t, up) && EndChild(t, n) == EndChild(t, up)
  {
    OwnShape(t, n, |OwnReplies(t, n)| - 1);
  }

  /** A conversation on an edge: each reply but the last lets the relays and the
      player go on, and determines the next status sent. */
  ghost predicate Conversation(e: Entrant, s: seq<Status>, r: seq<Status>) {
    && |s| == |r| >= 1
    && s[0] == e.st
    && (forall i :: 0 <= i < |r| ==> SamePlayer(e.st, r[i]))
    && forall i :: 0 <= i < |r| - 1 ==> GoesOn(r[i], e.full, s[i + 1])
  }

  lemma ConversationsJoin(e: Entrant, s: seq<Status>, r: seq<Status>, e': Entrant, s': seq<Status>, r': seq<Status>)
    requires Conversation(e, s, r) && Conversation(e', s', r')
    requires SamePlayer(e.st, e'.st) && e.full == e'.full
    requires GoesOn(r[|r| - 1], e.full, e'.st)
    ensures Conversation(e, s + s', r + r')
  {
    forall i | 0 <= i < |r + r'| - 1
      ensures GoesOn((r + r')[i], e.full, (s + s')[i + 1])
    {
      if i >= |r| {
        assert (r + r')[i] == r'[i - |r|] && (s + s')[i + 1] == s'[i - |r| + 1];
      }
    }
  }

  lemma OwnConversation(t: Roster, n: Node)
    requires ValidRoster(t) && n != ROOT
    ensures Conversation(Entry(t, n), Echoes(Entry(t, n).st, OwnReplies(t, n)), OwnReplies(t, n))
  {
    forall i | 0 <= i < |OwnReplies(t, n)|
      ensures SamePlayer(Entry(t, n).st, OwnReplies(t, n)[i])
      ensures i < |OwnReplies(t, n)| - 1 ==> Continues(OwnReplies(t, n)[i]) && !OwnReplies(t, n)[i].ended
    {
      OwnShape(t, n, i);
    }
  }

  /** The streams of an edge form one conversation, through every battle the
      player from below takes part in. */
  lemma {:induction false} StreamShape(t: Roster, n: Node)
    requires ValidRoster(t) && n != ROOT
    ensures Conversation(Entry(t, n), Sends(t, n), Replies(t, n))
    decreases Depth(n)
  {
    ParentIsAbove(n);
    OwnConversation(t, n);
    if Survives(t, n) {
      var up := Fight(Parent(n));
      StreamShape(t, up);
      HandOver(t, n);
      ConversationsJoin(Entry(t, n), Echoes(Entry(t, n).st, OwnReplies(t, n)), OwnReplies(t, n),
                        Entry(t, up), Sends(t, up), Replies(t, up));
    }
  }

  /** The last reply stops the relays and the player, at the battle where the
      player from below is eliminated or wins the championship. */
  lemma {:induction false} StreamEnd(t: Roster, n: Node)
    requires ValidRoster(t) && n != ROOT
    ensures Stops(t, n, Last(Replies(t, n)))
    decreases Depth(n)
  {
    ParentIsAbove(n);
    hide Left, Right, Parent, Depth, Entry, Result, OwnReplies, Stops;
    if Survives(t, n) {
      var up := Fight(Parent(n));
      StreamEnd(t, up);
      HandOver(t, n);
      LastOfConcat(OwnReplies(t, n), Replies(t, up));
      StopsBelow(t, n, Last(Replies(t, up)));
    } else {
      StopsHere(t, n);
    }
  }

  lemma StopsHere(t: Roster, n: Node)
    requires ValidRoster(t) && n != ROOT && !Survives(t, n)
    ensures Stops(t, n, Last(OwnReplies(t, n)))
  {
    hide Left, Right, Parent, Entry, Result, OwnReplies, SamePlayer;
    OwnShape(t, n, |OwnReplies(t, n)| - 1);
    WinnerOrLoser(t, n);
  }

  lemma StopsBelow(t: Roster, n: Node, r: Status)
    requires ValidRoster(t) && n != ROOT && Survives(t, n)
    requires Stops(t, Fight(Parent(n)), r)
    ensures Stops(t, n, r)
  {
    HandOver(t, n);
  }

  function Last<T>(s: seq<T>): T
    requires |s| >= 1
  {
    s[|s| - 1]
  }

  lemma LastOfConcat<T>(s: seq<T>, u: seq<T>)
    requires |u| >= 1
    ensures Last(s + u) == Last(u)
  {
  }

  /** A node's player process sits below it. */
  lemma {:induction false} LeafIsBelow(t: Roster, n: Node)
    requires ValidRoster(t)
    ensures Low(n) <= LeafOf(t, n) <= High(n)
    decreases Rank(n)
  {
    match n
    case Seat(p) =>
    case Fight(b) =>
      ChildrenOf(b);
      SeatRangesOf(b);
      LeafIsBelow(t, WinnerChild(t, b));
  }

  /** Following a stream down to its player process and up to its last edge
      leads back to the same process. */
  lemma {:induction false} LeafOfEnd(t: Roster, n: Node)
    requires ValidRoster(t) && n != ROOT
    ensures LeafOf(t, EndChild(t, n)) == LeafOf(t, n)
    decreases Depth(n)
  {
    ParentIsAbove(n);
    if Survives(t, n) {
      LeafOfEnd(t, Fight(Parent(n)));
    }
  }

  ghost predicate Tail<T>(s: seq<T>, u: seq<T>) {
    |u| <= |s| && s[|s| - |u|..] == u
  }

  lemma TailOfTail<T>(s: seq<T>, u: seq<T>, v: seq<T>)
    requires Tail(s, u) && Tail(u, v)
    ensures Tail(s, v)
  {
    assert s[|s| - |v|..] == s[|s| - |u|..][|u| - |v|..];
  }

  /** Everything that passes the edge of n was sent by its player process,
      unchanged and in order: the streams of n are the tail of the streams of
      that process. */
  lemma {:induction false} LeafStream(t: Roster, n: Node)
    requires ValidRoster(t) && n != ROOT
    ensures var leaf := Seat(LeafOf(t, n));
      && EndChild(t, leaf) == EndChild(t, n)
      && Entry(t, leaf).full == Entry(t, n).full
      && Entry(t, leaf).st.id == Entry(t, n).st.id
      && Tail(Sends(t, leaf), Sends(t, n))
      && Tail(Replies(t, leaf), Replies(t, n))
    decreases Rank(n)
  {
    match n
    case Seat(p) =>
    case Fight(b) =>
      ChildrenOf(b);
      var w := WinnerChild(t, b);
      LeafStream(t, w);
      HandOver(t, w);
      LeafTail(t, w);
      TailOfTail(Sends(t, Seat(LeafOf(t, w))), Sends(t, w), Sends(t, n));
      TailOfTail(Replies(t, Seat(LeafOf(t, w))), Replies(t, w), Replies(t, n));
  }

  lemma LeafTail(t: Roster, w: Node)
    requires ValidRoster(t) && w != ROOT && Survives(t, w)
    ensures var n := Fight(Parent(w));
      && Tail(Sends(t, w), Sends(t, n))
      && Tail(Replies(t, w), Replies(t, n))
  {
  }
}
