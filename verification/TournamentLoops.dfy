/** The loops of a relaying battle process and of a player process as they are
    written, each reading from given streams.  They do what the network's steps do. */
module TournamentLoops {
  import opened TournamentBracket
  import opened TournamentBout
  import opened TournamentEvaluator
  import opened TournamentStreams
  import opened TournamentNetwork

  /** What a process holds after k replies. */
  function Held(start: Status, replies: seq<Status>, k: nat): Status
    requires k <= |replies|
  {
    if k == 0 then start else replies[k - 1]
  }

  /** Passing mode: each status of the child goes up and each reply goes down,
      unchanged, until a reply with no HP left or of the ended battle A. */
  method RelayLoop(start: Status, child: seq<Status>, parent: seq<Status>) returns (up: seq<Status>, down: seq<Status>)
    requires exists k: nat :: k <= |child| && k <= |parent| && !Continues(Held(start, parent, k))
    ensures |up| == |down| <= |child| && |up| <= |parent|
    ensures up == child[..|up|] && down == parent[..|up|]
    ensures forall k: nat :: k < |up| ==> Continues(Held(start, parent, k))
    ensures !Continues(Held(start, parent, |up|))
  {
    up, down := [], [];
    var w := start;
    ghost var end: nat :| end <= |child| && end <= |parent| && !Continues(Held(start, parent, end));
    while w.hp > 0
      invariant |up| == |down| <= end && w == Held(start, parent, |up|)
      invariant up == child[..|up|] && down == parent[..|up|]
      invariant forall k: nat :: k < |up| ==> Continues(Held(start, parent, k))
      decreases end - |up|
    {
      if w.cur == A && w.ended {
        break;
      }
      w := child[|up|];
      up := up + [w];
      w := parent[|down|];
      down := down + [w];
    }
  }

  /** The player's loops: it sends its status and takes the reply until a battle has
      ended, then leaves, hands itself over, or recovers and goes on.  fate is where
      it ends up, with the status it then has. */
  method PlayerLoop(start: Status, replies: seq<Status>) returns (sent: seq<Status>, fate: PlayerProc)
    requires exists k: nat :: k <= |replies| && !Arrive(Held(start, replies, k), start.hp).pc.Send?
    ensures |sent| <= |replies|
    ensures forall k: nat :: k < |sent| ==> Arrive(Held(start, replies, k), start.hp) == PlayerProc(Send, sent[k], start.hp)
    ensures fate == Arrive(Held(start, replies, |sent|), start.hp) && !fate.pc.Send?
  {
    hide Upper;
    var st := start;
    sent := [];
    var hp := st.hp;
    ghost var end: nat :| end <= |replies| && !Arrive(Held(start, replies, end), hp).pc.Send?;
    while true
      invariant |sent| <= end
      invariant forall k: nat :: k < |sent| ==> Arrive(Held(start, replies, k), hp) == PlayerProc(Send, sent[k], hp)
      invariant Arrive(Held(start, replies, |sent|), hp) == if st.ended then Arrive(st, hp) else PlayerProc(Send, st, hp)
      decreases end - |sent|, st.ended
    {
      ghost var before, ended := |sent|, st.ended;
      while !st.ended
        invariant before <= |sent| <= end && (|sent| == before ==> st.ended == ended)
        invariant forall k: nat :: k < |sent| ==> Arrive(Held(start, replies, k), hp) == PlayerProc(Send, sent[k], hp)
        invariant Arrive(Held(start, replies, |sent|), hp) == if st.ended then Arrive(st, hp) else PlayerProc(Send, st, hp)
        decreases end - |sent|
      {
        sent := sent + [st];
        st := replies[|sent| - 1];
      }
      if st.hp <= 0 {
        if Upper(st.cur) {
          return sent, PlayerProc(OpenWrite, st.(ended := false, hp := hp), hp);
        } else {
          return sent, PlayerProc(Gone, st.(ended := false), hp);
        }
      } else {
        if st.cur == A {
          return sent, PlayerProc(Gone, st.(ended := false), hp);
        }
        st := st.(ended := false, hp := st.hp + HalfOf(hp - st.hp));
      }
    }
  }
}
