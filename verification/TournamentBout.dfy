/** One battle between two players: the attack rule of a round, the loop over
    rounds, and what a finished bout looks like. */
module TournamentBout {
  import opened TournamentBracket

  datatype Attribute = Fire | Grass | Water

  /** The message every pipe of the championship carries. */
  datatype Status = Status(id: int, hp: int, atk: int, attr: Attribute, cur: Battle, ended: bool)

  datatype Pair = Pair(left: Status, right: Status) {
    predicate Over() { right.hp <= 0 || left.hp <= 0 }
  }

  /** A player that may enter a round. */
  predicate Fit(s: Status) { s.hp > 0 && s.atk > 0 }

  predicate Boosted(attr: Attribute, b: Battle) {
    match attr
    case Fire => b == A || b == G || b == E || b == M || b == F
    case Grass => b == B || b == H || b == J || b == K || b == L
    case Water => b == D || b == I || b == C || b == N
  }

  function Damage(b: Battle, s: Status): int {
    if Boosted(s.attr, b) then 2 * s.atk else s.atk
  }

  /** The weaker side strikes first; on equal HP the smaller player id does. */
  predicate RightStrikesFirst(p: Pair) {
    p.right.hp < p.left.hp || (p.right.hp == p.left.hp && p.right.id < p.left.id)
  }

  /** The statuses after one round of battle b. */
  function Round(b: Battle, p: Pair): (r: Pair) {
    var first := if RightStrikesFirst(p) then p.right else p.left;
    var second := if RightStrikesFirst(p) then p.left else p.right;
    var secondHp := second.hp - Damage(b, first);
    var firstHp := if secondHp > 0 then first.hp - Damage(b, second) else first.hp;
    var over := firstHp <= 0 || secondHp <= 0;
    var first' := first.(hp := firstHp, cur := b, ended := over || first.ended);
    var second' := second.(hp := secondHp, cur := b, ended := over || second.ended);
    if RightStrikesFirst(p) then Pair(second', first') else Pair(first', second')
  }

  method Boost(b: Battle, s: Status) returns (atk: int)
    ensures atk == Damage(b, s)
  {
    atk := s.atk;
    if s.attr == Fire {
      if b == A || b == G || b == E || b == M || b == F {
        atk := atk * 2;
      }
    } else if s.attr == Grass {
      if b == B || b == H || b == J || b == K || b == L {
        atk := atk * 2;
      }
    } else if s.attr == Water {
      if b == D || b == I || b == C || b == N {
        atk := atk * 2;
      }
    }
  }

  lemma DamageIgnoresBattle(b: Battle, s: Status)
    ensures Damage(b, s.(cur := b)) == Damage(b, s)
  {
  }

  /** The round as the battle process computes it, statement by statement. */
  method FightRound(b: Battle, l: Status, r: Status) returns (left: Status, right: Status)
    ensures Pair(left, right) == Round(b, Pair(l, r))
  {
    hide Damage;
    DamageIgnoresBattle(b, l);
    DamageIgnoresBattle(b, r);
    left, right := l, r;
    left := left.(cur := b);
    right := right.(cur := b);
    var atkr := Boost(b, right);
    var atkl := Boost(b, left);
    if right.hp < left.hp {
      left := left.(hp := left.hp - atkr);
      if left.hp > 0 {
        right := right.(hp := right.hp - atkl);
      }
    } else if right.hp == left.hp {
      if right.id < left.id {
        left := left.(hp := left.hp - atkr);
        if left.hp > 0 {
          right := right.(hp := right.hp - atkl);
        }
      } else {
        right := right.(hp := right.hp - atkl);
        if right.hp > 0 {
          left := left.(hp := left.hp - atkr);
        }
      }
    } else {
      right := right.(hp := right.hp - atkl);
      if right.hp > 0 {
        left := left.(hp := left.hp - atkr);
      }
    }
    if right.hp <= 0 || left.hp <= 0 {
      right := right.(ended := true);
      left := left.(ended := true);
    }
  }

  /** What one round does to two fit players: nobody gains HP, the total falls,
      at most one side drops to zero, and only HP, battle and flag change. */
  lemma RoundIsFair(b: Battle, p: Pair)
    requires Fit(p.left) && Fit(p.right) && !p.left.ended && !p.right.ended
    ensures var q := Round(b, p);
      && q.left.hp <= p.left.hp && q.right.hp <= p.right.hp
      && q.left.hp + q.right.hp < p.left.hp + p.right.hp
      && (q.left.hp > 0 || q.right.hp > 0)
      && q.left == p.left.(hp := q.left.hp, cur := b, ended := q.Over())
      && q.right == p.right.(hp := q.right.hp, cur := b, ended := q.Over())
  {
  }

  /** Who strikes first and what the blows take: the weaker side, or on equal HP the
      one with the smaller id, strikes with its full attack; the other strikes back
      only if it is still alive. */
  lemma FirstBlow(b: Battle, p: Pair)
    ensures var q := Round(b, p);
      && (p.left.hp < p.right.hp || (p.left.hp == p.right.hp && p.left.id < p.right.id) ==>
            && q.right.hp == p.right.hp - Damage(b, p.left)
            && q.left.hp == p.left.hp - (if q.right.hp > 0 then Damage(b, p.right) else 0))
      && (p.right.hp < p.left.hp || (p.right.hp == p.left.hp && p.right.id < p.left.id) ==>
            && q.left.hp == p.left.hp - Damage(b, p.right)
            && q.right.hp == p.right.hp - (if q.left.hp > 0 then Damage(b, p.left) else 0))
  {
  }

  /** A battle doubles the attack of one attribute, and only of that one. */
  lemma FavouredAttribute(b: Battle, s: Status)
    ensures Damage(b, s) ==
      if b in {A, E, F, G, M} && s.attr == Fire then s.atk + s.atk
      else if b in {B, H, J, K, L} && s.attr == Grass then s.atk + s.atk
      else if b in {C, D, I, N} && s.attr == Water then s.atk + s.atk
      else s.atk
  {
  }

  predicate CanFight(p: Pair) {
    Fit(p.left) && Fit(p.right) && !p.left.ended && !p.right.ended
  }

  /** The replies a battle sends, round by round, until one side is down.
      Between rounds both players echo the last reply. */
  function Bout(b: Battle, p: Pair): (rs: seq<Pair>)
    requires CanFight(p)
    ensures |rs| >= 1
    decreases p.left.hp + p.right.hp
  {
    RoundIsFair(b, p);
    var q := Round(b, p);
    [q] + if q.Over() then [] else Bout(b, q)
  }

  predicate SamePlayer(s: Status, s': Status) {
    s'.id == s.id && s'.atk == s.atk && s'.attr == s.attr
  }

  /** Every bout ends with exactly one side down; before that both sides are
      alive and the flags are clear, so the loop over rounds goes on exactly
      until the flag is set. */
  lemma {:induction false} BoutShape(b: Battle, p: Pair, i: nat)
    requires CanFight(p) && i < |Bout(b, p)|
    ensures var q := Bout(b, p)[i];
      && q == Round(b, if i == 0 then p else Bout(b, p)[i - 1])
      && q.left.cur == b && q.right.cur == b
      && SamePlayer(p.left, q.left) && SamePlayer(p.right, q.right)
      && q.left.hp <= p.left.hp && q.right.hp <= p.right.hp
      && q.left.ended == q.right.ended == (i == |Bout(b, p)| - 1)
      && (i < |Bout(b, p)| - 1 ==> CanFight(q))
      && (i == |Bout(b, p)| - 1 ==> (q.left.hp <= 0 <==> q.right.hp > 0))
    decreases i
  {
    RoundIsFair(b, p);
    if i > 0 {
      BoutShape(b, Round(b, p), i - 1);
    }
  }

  /** HP totals strictly fall, so a bout has at most as many rounds as the two
      players have HP together. */
  lemma {:induction false} BoutIsShort(b: Battle, p: Pair)
    requires CanFight(p)
    ensures |Bout(b, p)| < p.left.hp + p.right.hp
    decreases p.left.hp + p.right.hp
  {
    RoundIsFair(b, p);
    if !Round(b, p).Over() {
      BoutIsShort(b, Round(b, p));
    }
  }

  lemma BoutStep(b: Battle, p: Pair)
    requires CanFight(p)
    ensures var q := Round(b, p);
      && (q.Over() ==> Bout(b, p) == [q])
      && (!q.Over() ==> CanFight(q) && Bout(b, p) == [q] + Bout(b, q))
      && (q.Over() ==> (q.left.hp <= 0 <==> q.right.hp > 0))
      && q.left.hp + q.right.hp < p.left.hp + p.right.hp
  {
    RoundIsFair(b, p);
    hide Round;
  }

  /** The loop over rounds of the battle process, with the players echoing each
      reply.  The log holds the replies in the order they are written. */
  method FightBout(b: Battle, l: Status, r: Status) returns (left: Status, right: Status, log: seq<Pair>)
    requires CanFight(Pair(l, r))
    ensures log == Bout(b, Pair(l, r))
    ensures Pair(left, right) == log[|log| - 1]
    ensures left.hp <= 0 <==> right.hp > 0
  {
    hide Round, Bout;
    left, right := l, r;
    log := [];
    var bat := true;
    while bat
      invariant bat ==> CanFight(Pair(left, right))
      invariant bat ==> log + Bout(b, Pair(left, right)) == Bout(b, Pair(l, r))
      invariant !bat ==> log == Bout(b, Pair(l, r)) && |log| > 0 && Pair(left, right) == log[|log| - 1]
      invariant !bat ==> (left.hp <= 0 <==> right.hp > 0)
      decreases bat, left.hp + right.hp
    {
      BoutStep(b, Pair(left, right));
      left, right := FightRound(b, left, right);
      log := log + [Pair(left, right)];
      if right.hp <= 0 || left.hp <= 0 {
        bat := false;
      }
    }
  }
}
