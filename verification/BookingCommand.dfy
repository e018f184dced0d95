/** The lines a client sends: its id, and its booking command, which the server
    reads from right to left. */
module BookingCommand {

  /** What one user has booked, or by how much a command changes it. */
  datatype Booking = Booking(food: int, concert: int, electronics: int) {
    function Total(): int { food + concert + electronics }

    function Plus(d: Booking): Booking { Booking(food + d.food, concert + d.concert, electronics + d.electronics) }

    /** Within the limits of the record file. */
    predicate Allowed() { food >= 0 && concert >= 0 && electronics >= 0 && Total() <= MOST_ITEMS }
  }

  const MOST_ITEMS := 15

  const ZERO := Booking(0, 0, 0)

  predicate IsDigit(c: char) { '0' <= c <= '9' }

  function Digit(c: char): int
    requires IsDigit(c)
  {
    c as int - '0' as int
  }

  function Power(k: nat): int { if k == 0 then 1 else 10 * Power(k - 1) }

  // ----- what a command means -----

  /** The pieces between the spaces; there is always at least one. */
  function Tokens(line: string): (ts: seq<string>)
    ensures ts != []
  {
    if line == [] then [[]]
    else
      var ts := Tokens(line[1..]);
      if line[0] == ' ' then [[]] + ts else [[line[0]] + ts[0]] + ts[1..]
  }

  predicate IsNumeral(t: string) { forall k :: 0 <= k < |t| ==> IsDigit(t[k]) || t[k] == '-' }

  /** The number a piece stands for: digits by their distance from its end, and a
      minus sign turns all that follows it. */
  function Value(t: string): int
    requires IsNumeral(t)
  {
    if t == [] then 0
    else if t[0] == '-' then -Value(t[1..])
    else Digit(t[0]) * Power(|t| - 1) + Value(t[1..])
  }

  /** The lines the server understands: digits, spaces and minus signs only, no
      space at the start, and a minus sign from the third character on only after
      a space. */
  predicate WellFormed(line: string) {
    && (forall k :: 0 <= k < |line| ==> IsDigit(line[k]) || line[k] == ' ' || line[k] == '-')
    && (line != [] ==> line[0] != ' ')
    && (forall k :: 2 <= k < |line| && line[k] == '-' ==> line[k - 1] == ' ')
  }

  lemma {:induction false} TokensAreNumerals(line: string)
    requires forall k :: 0 <= k < |line| ==> IsDigit(line[k]) || line[k] == ' ' || line[k] == '-'
    ensures forall j :: 0 <= j < |Tokens(line)| ==> IsNumeral(Tokens(line)[j])
  {
    if line != [] {
      TokensAreNumerals(line[1..]);
    }
  }

  /** The change a command asks for: the first piece is for food, the last for
      electronics, the last but one for concerts; others do not count. */
  function Meaning(line: string): Booking
    requires WellFormed(line)
  {
    TokensAreNumerals(line);
    var ts := Tokens(line);
    var n := |ts|;
    Booking(Value(ts[0]), if n >= 3 then Value(ts[n - 2]) else 0, if n >= 2 then Value(ts[n - 1]) else 0)
  }

  // ----- the loop of the server -----

  /** What the loop has gathered from the end of the line back to position i. */
  ghost predicate Gathered(line: string, i: nat, s: int, time: int, ch_c: int, ch_e: int, new': int) {
    && i <= |line|
    && (forall k :: i <= k < |line| ==> IsDigit(line[k]) || line[k] == ' ' || line[k] == '-')
    && (forall k :: 2 <= k < |line| && i <= k && line[k] == '-' ==> line[k - 1] == ' ')
    && var ts := Tokens(line[i..]);
       var n := |ts|;
       && (forall j :: 0 <= j < n ==> IsNumeral(ts[j]))
       && s - i + 1 == |ts[0]| && time == n && new' == Value(ts[0])
       && ch_e == (if n >= 2 then Value(ts[n - 1]) else 0)
       && ch_c == (if n >= 3 then Value(ts[n - 2]) else 0)
  }

  lemma GatherDigit(line: string, i: nat, s: int, time: int, ch_c: int, ch_e: int, new': int)
    requires i < |line| && IsDigit(line[i]) && Gathered(line, i + 1, s, time, ch_c, ch_e, new')
    ensures s >= i && Gathered(line, i, s, time, ch_c, ch_e, new' + Digit(line[i]) * Power(s - i))
  {
    var ts := Tokens(line[i + 1..]);
    assert line[i..][1..] == line[i + 1..];
    assert Tokens(line[i..]) == [[line[i]] + ts[0]] + ts[1..];
    assert ([line[i]] + ts[0])[1..] == ts[0];
  }

  lemma GatherMinus(line: string, i: nat, s: int, time: int, ch_c: int, ch_e: int, new': int)
    requires i < |line| && line[i] == '-' && Gathered(line, i + 1, s, time, ch_c, ch_e, new')
    requires i >= 2 ==> line[i - 1] == ' '
    ensures Gathered(line, i, s, time, ch_c, ch_e, -new')
  {
    var ts := Tokens(line[i + 1..]);
    assert line[i..][1..] == line[i + 1..];
    assert Tokens(line[i..]) == [[line[i]] + ts[0]] + ts[1..];
    assert ([line[i]] + ts[0])[1..] == ts[0];
  }

  lemma GatherSpace(line: string, i: nat, s: int, time: int, ch_c: int, ch_e: int, new': int)
    requires i < |line| && line[i] == ' ' && Gathered(line, i + 1, s, time, ch_c, ch_e, new')
    ensures Gathered(line, i, i - 1, time + 1, if time == 2 then new' else ch_c, if time == 1 then new' else ch_e, 0)
  {
    var ts := Tokens(line[i + 1..]);
    assert line[i..][1..] == line[i + 1..];
    assert Tokens(line[i..]) == [[]] + ts;
  }

  lemma GatherNothing(line: string)
    ensures Gathered(line, |line|, |line| - 1, 1, 0, 0, 0)
  {
    assert line[|line|..] == [];
  }

  lemma GatheredAll(line: string, s: int, time: int, ch_c: int, ch_e: int, new': int)
    requires Gathered(line, 0, s, time, ch_c, ch_e, new') && (line != [] ==> line[0] != ' ')
    ensures WellFormed(line) && Meaning(line) == Booking(new', ch_c, ch_e)
  {
    assert line[0..] == line;
  }

  // ----- the size of its numbers -----

  const INT_MIN := -0x8000_0000
  const INT_MAX := 0x7fff_ffff

  predicate InInt(x: int) { INT_MIN <= x <= INT_MAX }


  /** A piece of at most n characters, a minus sign in front not counted. */
  predicate AtMost(t: string, n: nat) { |t| <= n || (|t| == n + 1 && t[0] == '-') }

  predicate ShortTokens(line: string, n: nat) { forall j :: 0 <= j < |Tokens(line)| ==> AtMost(Tokens(line)[j], n) }

  lemma {:induction false} PowerGrows(k: nat, m: nat)
    requires k <= m
    ensures 1 <= Power(k) <= Power(m)
    decreases m
  {
    if k < m {
      PowerGrows(k, m - 1);
    } else if k > 0 {
      PowerGrows(k - 1, k - 1);
    }
  }

  /** A numeral of k characters stays below 10 to the k. */
  lemma {:induction false} ValueIsBelow(t: string)
    requires IsNumeral(t)
    ensures -Power(|t|) < Value(t) < Power(|t|)
    ensures t != [] && IsDigit(t[0]) ==> 0 <= Digit(t[0]) * Power(|t| - 1) <= 9 * Power(|t| - 1)
  {
    if t != [] {
      ValueIsBelow(t[1..]);
      PowerGrows(|t| - 1, |t|);
      assert Power(|t|) == 10 * Power(|t| - 1);
      if IsDigit(t[0]) {
        TimesDigit(Digit(t[0]), Power(|t| - 1));
      }
    } else {
      PowerGrows(0, 0);
    }
  }

  lemma TimesDigit(d: int, p: int)
    requires 0 <= d <= 9 && p >= 0
    ensures 0 <= d * p <= 9 * p
  {
  }

  lemma PowersOfTen()
    ensures Power(8) == 1_0000_0000 && Power(9) == 10 * Power(8)
  {
    assert Power(8) == 10 * Power(7) && Power(7) == 10 * Power(6) && Power(6) == 10 * Power(5);
    assert Power(5) == 10 * Power(4) && Power(4) == 10 * Power(3) && Power(3) == 10 * Power(2) && Power(2) == 10 * Power(1);
  }

  /** The parts of a piece from its end on are short too. */
  lemma {:induction false} SuffixTokens(line: string, i: nat, n: nat)
    requires i <= |line| && ShortTokens(line, n)
    ensures ShortTokens(line[i..], n)
    decreases i
  {
    if i == 0 {
      assert line[0..] == line;
    } else {
      FirstAway(line, n);
      SuffixTokens(line[1..], i - 1, n);
      assert line[1..][i - 1..] == line[i..];
    }
  }

  lemma FirstAway(line: string, n: nat)
    requires line != [] && ShortTokens(line, n)
    ensures ShortTokens(line[1..], n)
  {
    var ts, rest := Tokens(line), Tokens(line[1..]);
    forall j | 0 <= j < |rest|
      ensures AtMost(rest[j], n)
    {
      if line[0] == ' ' {
        assert ts == [[]] + rest && ts[j + 1] == rest[j];
      } else {
        assert ts == [[line[0]] + rest[0]] + rest[1..];
        assert ts[0][1..] == rest[0];
        if j > 0 { assert ts[j] == rest[j]; }
      }
    }
  }

  lemma PieceInInts(t: string)
    requires IsNumeral(t) && AtMost(t, 9)
    ensures InInt(Value(t)) && (t != [] && IsDigit(t[0]) ==> InInt(Power(|t| - 1)) && InInt(Digit(t[0]) * Power(|t| - 1)))
  {
    hide Power, Value;
    PowersOfTen();
    ValueIsBelow(t);
    if |t| == 10 {
      ValueIsBelow(t[1..]);
      MinusFirst(t);
    } else {
      PowerGrows(|t|, 9);
      if t != [] {
        PowerGrows(|t| - 1, 8);
      }
    }
  }

  lemma MinusFirst(t: string)
    requires IsNumeral(t) && t != [] && t[0] == '-'
    ensures Value(t) == -Value(t[1..])
  {
  }

  /** No int overflows in the loop at position i while the pieces of a line have at
      most nine characters, not counting a minus sign in front. */
  lemma StaysInInts(line: string, i: nat, s: int, time: int, ch_c: int, ch_e: int, new': int)
    requires Gathered(line, i, s, time, ch_c, ch_e, new')
    ensures ShortTokens(line, 9) ==> InInt(new')
    ensures ShortTokens(line, 9) && i < |line| && IsDigit(line[i]) ==> s >= i && InInt(Power(s - i)) && InInt(Digit(line[i]) * Power(s - i))
  {
    hide Power, Value;
    if ShortTokens(line, 9) {
      SuffixTokens(line, i, 9);
      var ts := Tokens(line[i..]);
      assert AtMost(ts[0], 9);
      PieceInInts(ts[0]);
      if i < |line| && IsDigit(line[i]) {
        assert ts[0] == [line[i]] + Tokens(line[i..][1..])[0];
      }
    }
  }

  method PowerOfTen(k: nat) returns (d: int)
    ensures d == Power(k)
  {
    d := 1;
    var j := 0;
    while j < k
      invariant 0 <= j <= k && d == Power(j)
    {
      d := d * 10;
      j := j + 1;
    }
  }

  /** The parser accepts exactly the well-formed lines and finds their meaning. */
  method ParseCommand(line: string) returns (ok: bool, change: Booking)
    ensures ok <==> WellFormed(line)
    ensures ok ==> change == Meaning(line)
  {
    hide WellFormed, Gathered, Meaning, ShortTokens, Power;
    change := ZERO;
    var s, time, ch_f, ch_c, ch_e, new' := |line| - 1, 1, 0, 0, 0, 0;
    GatherNothing(line);
    var i := |line| - 1;
    while i >= 0
      invariant -1 <= i < |line|
      invariant i >= 0 || line == [] ==> ch_f == 0
      invariant line == [] ==> new' == 0
      invariant i >= 0 || line == [] ==> Gathered(line, i + 1, s, time, ch_c, ch_e, new')
      invariant i < 0 && line != [] ==> WellFormed(line) && Meaning(line) == Booking(ch_f, ch_c, ch_e)
    {
      if i == 0 {
        if line[i] == '-' {
          GatherMinus(line, i, s, time, ch_c, ch_e, new');
          new' := new' * -1;
        } else if line[i] == ' ' {
          Refuses(line, i);
          return false, ZERO;
        } else if line[i] < '0' || line[i] > '9' {
          Refuses(line, i);
          return false, ZERO;
        } else {
          GatherDigit(line, i, s, time, ch_c, ch_e, new');
          var d := PowerOfTen(s - i);
          new' := new' + Digit(line[i]) * d;
          StaysInInts(line, i, s, time, ch_c, ch_e, new');
          assert ShortTokens(line, 9) ==> InInt(d) && InInt(Digit(line[i]) * d);
        }
        StaysInInts(line, i, s, time, ch_c, ch_e, new');
        assert ShortTokens(line, 9) ==> InInt(new');
        GatheredAll(line, s, time, ch_c, ch_e, new');
        ch_f := new';
        new' := 0;
      } else if line[i] == ' ' {
        GatherSpace(line, i, s, time, ch_c, ch_e, new');
        s := i - 1;
        if time == 1 {
          ch_e := new';
        } else if time == 2 {
          ch_c := new';
        }
        new' := 0;
        time := time + 1;
      } else if line[i] == '-' {
        if i - 1 > 0 && line[i - 1] != ' ' {
          Refuses(line, i);
          return false, ZERO;
        }
        GatherMinus(line, i, s, time, ch_c, ch_e, new');
        new' := new' * -1;
        StaysInInts(line, i, s, time, ch_c, ch_e, new');
        assert ShortTokens(line, 9) ==> InInt(new');
      } else if line[i] < '0' || line[i] > '9' {
        Refuses(line, i);
        return false, ZERO;
      } else {
        GatherDigit(line, i, s, time, ch_c, ch_e, new');
        var d := PowerOfTen(s - i);
        new' := new' + Digit(line[i]) * d;
        StaysInInts(line, i, s, time, ch_c, ch_e, new');
        assert ShortTokens(line, 9) ==> InInt(d) && InInt(Digit(line[i]) * d) && InInt(new');
      }
      i := i - 1;
    }
    if line == [] {
      GatheredAll(line, s, time, ch_c, ch_e, new');
    }
    ok, change := true, Booking(ch_f, ch_c, ch_e);
  }

  lemma Refuses(line: string, i: nat)
    requires i < |line|
    requires (line[i] == ' ' && i == 0) || (line[i] != ' ' && line[i] != '-' && !IsDigit(line[i])) || (i >= 2 && line[i] == '-' && line[i - 1] != ' ')
    ensures !WellFormed(line)
  {
  }

  // ----- the verdict on a command -----

  datatype Verdict = Accepted(change: Booking) | TooMany | TooFew | Malformed

  /** The answers of the server to a command, in the order of its tests. */
  function Judge(now: Booking, line: string): Verdict {
    if !WellFormed(line) then Malformed
    else
      var change := Meaning(line);
      if now.Total() + change.Total() > MOST_ITEMS then TooMany
      else if now.food + change.food < 0 || now.concert + change.concert < 0 || now.electronics + change.electronics < 0 then TooFew
      else Accepted(change)
  }

  /** A command is accepted exactly if it can be read and the new booking is allowed,
      and then for what it means; a new booking that has a negative field and too many
      items is refused for having too many. */
  lemma AcceptedMeans(now: Booking, line: string)
    ensures Judge(now, line) == Malformed <==> !WellFormed(line)
    ensures Judge(now, line) == TooMany <==> WellFormed(line) && now.Plus(Meaning(line)).Total() > MOST_ITEMS
    ensures Judge(now, line).Accepted? <==> WellFormed(line) && now.Plus(Meaning(line)).Allowed()
    ensures Judge(now, line).Accepted? ==> Judge(now, line).change == Meaning(line)
  {
    hide WellFormed, Meaning;
  }

  /** The same in plain numbers. */
  lemma AcceptedInPlainTerms(now: Booking, line: string)
    ensures Judge(now, line).Accepted? <==>
      && WellFormed(line)
      && now.food + Meaning(line).food >= 0 && now.concert + Meaning(line).concert >= 0 && now.electronics + Meaning(line).electronics >= 0
      && now.food + Meaning(line).food + now.concert + Meaning(line).concert + now.electronics + Meaning(line).electronics <= 15
  {
    hide WellFormed, Meaning;
  }

  /** Which lines are refused as malformed, character by character. */
  lemma MalformedExactly(now: Booking, line: string)
    ensures Judge(now, line) == Malformed <==>
      || (line != "" && line[0] == ' ')
      || (exists k :: 0 <= k < |line| && line[k] !in "0123456789 -")
      || (exists k :: 2 <= k < |line| && line[k] == '-' && line[k - 1] != ' ')
  {
    hide Meaning;
    forall k | 0 <= k < |line|
      ensures line[k] !in "0123456789 -" <==> !(IsDigit(line[k]) || line[k] == ' ' || line[k] == '-')
    {
      DigitsAre(line[k]);
    }
  }

  lemma DigitsAre(c: char)
    ensures IsDigit(c) <==> c in "0123456789"
    ensures IsDigit(c) ==> 0 <= Digit(c) <= 9 && "0123456789"[Digit(c)] == c
  {
  }

  // ----- printing and reading back -----

  function DigitChar(d: int): char
    requires 0 <= d <= 9
  {
    (d + '0' as int) as char
  }

  function PrintNat(n: nat): (t: string)
    ensures t != [] && forall k :: 0 <= k < |t| ==> IsDigit(t[k])
  {
    if n < 10 then [DigitChar(n)] else PrintNat(n / 10) + [DigitChar(n % 10)]
  }

  /** A number in canonical decimal form. */
  function Print(n: int): (t: string)
    ensures t != [] && IsNumeral(t) && (forall k :: 0 < k < |t| ==> t[k] != '-')
  {
    if n < 0 then ['-'] + PrintNat(-n) else PrintNat(n)
  }

  lemma {:induction false} ValueOfMore(t: string, c: char)
    requires IsDigit(c) && forall k :: 0 <= k < |t| ==> IsDigit(t[k])
    ensures Value(t + [c]) == 10 * Value(t) + Digit(c)
  {
    if t == [] {
      assert t + [c] == [c] && [c][1..] == [];
    } else {
      ValueOfMore(t[1..], c);
      assert (t + [c])[1..] == t[1..] + [c];
      assert Power(|t|) == 10 * Power(|t| - 1);
      assert Digit(t[0]) * Power(|t|) == 10 * (Digit(t[0]) * Power(|t| - 1));
    }
  }

  lemma {:induction false} ValueOfPrintNat(n: nat)
    ensures Value(PrintNat(n)) == n
  {
    if n < 10 {
      var t := PrintNat(n);
      assert t[1..] == [] && Value(t) == Digit(t[0]) * Power(0) + Value([]);
    } else {
      ValueOfPrintNat(n / 10);
      ValueOfMore(PrintNat(n / 10), DigitChar(n % 10));
    }
  }

  lemma ValueOfPrint(n: int)
    ensures Value(Print(n)) == n
  {
    if n < 0 {
      ValueOfPrintNat(-n);
      assert Print(n)[1..] == PrintNat(-n);
    } else {
      ValueOfPrintNat(n);
    }
  }

  lemma {:induction false} FirstToken(t: string, rest: string)
    requires IsNumeral(t)
    ensures Tokens(t + [' '] + rest) == [t] + Tokens(rest)
    ensures Tokens(t) == [t]
  {
    if t == [] {
      assert (t + [' '] + rest)[1..] == rest;
    } else {
      FirstToken(t[1..], rest);
      assert (t + [' '] + rest)[1..] == t[1..] + [' '] + rest;
      assert [t[0]] + t[1..] == t;
    }
  }

  function PrintCommand(b: Booking): string {
    Print(b.food) + [' '] + (Print(b.concert) + [' '] + Print(b.electronics))
  }

  lemma PrintedIsWellFormed(b: Booking)
    ensures WellFormed(PrintCommand(b))
  {
    var f, c, e := Print(b.food), Print(b.concert), Print(b.electronics);
    var line := PrintCommand(b);
    forall k | 0 <= k < |line|
      ensures IsDigit(line[k]) || line[k] == ' ' || line[k] == '-'
      ensures k >= 2 && line[k] == '-' ==> line[k - 1] == ' '
    {
      if k < |f| {
        assert line[k] == f[k];
      } else if |f| < k < |f| + 1 + |c| {
        assert line[k] == c[k - |f| - 1];
      } else if k > |f| + 1 + |c| {
        assert line[k] == e[k - |f| - |c| - 2];
      }
    }
  }

  /** Round trip: a change printed in canonical form is read back as it was. */
  lemma RoundTrip(b: Booking)
    ensures WellFormed(PrintCommand(b)) && Meaning(PrintCommand(b)) == b
  {
    hide WellFormed;
    PrintedIsWellFormed(b);
    var f, c, e := Print(b.food), Print(b.concert), Print(b.electronics);
    FirstToken(f, c + [' '] + e);
    FirstToken(c, e);
    FirstToken(e, []);
    assert Tokens(PrintCommand(b)) == [f] + ([c] + [e]);
    ValueOfPrint(b.food);
    ValueOfPrint(b.concert);
    ValueOfPrint(b.electronics);
  }

  /** Any number of numbers in canonical form, with spaces between. */
  function PrintAll(ns: seq<int>): string
    requires ns != []
  {
    if |ns| == 1 then Print(ns[0]) else Print(ns[0]) + [' '] + PrintAll(ns[1..])
  }

  function Printed(ns: seq<int>): (ts: seq<string>)
    ensures |ts| == |ns| && forall j :: 0 <= j < |ns| ==> ts[j] == Print(ns[j])
  {
    seq(|ns|, j requires 0 <= j < |ns| => Print(ns[j]))
  }

  /** Minus signs stand only in front or behind a space. */
  ghost predicate MinusInFront(line: string) {
    && (forall k :: 0 <= k < |line| ==> IsDigit(line[k]) || line[k] == ' ' || line[k] == '-')
    && (line != [] && line[0] != ' ')
    && (forall k :: 1 <= k < |line| && line[k] == '-' ==> line[k - 1] == ' ')
  }

  lemma JoinInFront(t: string, rest: string)
    requires MinusInFront(rest) && t != [] && IsNumeral(t) && (forall k :: 0 < k < |t| ==> t[k] != '-')
    ensures MinusInFront(t + [' '] + rest)
  {
    var line := t + [' '] + rest;
    forall k | 0 <= k < |line|
      ensures IsDigit(line[k]) || line[k] == ' ' || line[k] == '-'
      ensures k >= 1 && line[k] == '-' ==> line[k - 1] == ' '
    {
      if k < |t| {
        assert line[k] == t[k];
      } else if k > |t| {
        assert line[k] == rest[k - |t| - 1];
      }
    }
  }

  lemma InFrontIsWellFormed(line: string)
    requires MinusInFront(line)
    ensures WellFormed(line)
  {
  }

  lemma {:induction false} AllTokens(ns: seq<int>)
    requires ns != []
    ensures Tokens(PrintAll(ns)) == Printed(ns) && MinusInFront(PrintAll(ns))
    decreases |ns|
  {
    if |ns| == 1 {
      FirstToken(Print(ns[0]), []);
    } else {
      AllTokens(ns[1..]);
      FirstToken(Print(ns[0]), PrintAll(ns[1..]));
      JoinInFront(Print(ns[0]), PrintAll(ns[1..]));
      assert [Print(ns[0])] + Printed(ns[1..]) == Printed(ns);
    }
  }

  /** Of any number of numbers the first is for food, the last for electronics and the
      last but one for concerts, as far as there are so many; the others do not
      count. */
  lemma ManyNumbers(ns: seq<int>)
    requires ns != []
    ensures WellFormed(PrintAll(ns))
    ensures Meaning(PrintAll(ns)) ==
      Booking(ns[0], if |ns| >= 3 then ns[|ns| - 2] else 0, if |ns| >= 2 then ns[|ns| - 1] else 0)
  {
    hide PrintAll, Print, Value, WellFormed, MinusInFront, Tokens;
    AllTokens(ns);
    InFrontIsWellFormed(PrintAll(ns));
    ValueOfPrint(ns[0]);
    ValueOfPrint(ns[|ns| - 1]);
    if |ns| >= 3 {
      ValueOfPrint(ns[|ns| - 2]);
    }
  }

  /** Lines that are understood although they are no three numbers: an empty one
      changes nothing, two numbers are for food and electronics, the second of four
      is passed over, and a minus sign may follow the very first character. */
  lemma OddLines()
    ensures WellFormed("") && Meaning("") == ZERO
    ensures WellFormed("1 2") && Meaning("1 2") == Booking(1, 0, 2)
    ensures WellFormed("1 9 2 3") && Meaning("1 9 2 3") == Booking(1, 2, 3)
    ensures WellFormed("5-3 1 1") && Meaning("5-3 1 1") == Booking(497, 1, 1)
  {
    hide WellFormed, Meaning;
    EmptyLine();
    TwoNumbers();
    FourNumbers();
    MinusInside();
  }

  lemma EmptyLine()
    ensures WellFormed("") && Meaning("") == ZERO
  {
  }

  lemma TwoNumbers()
    ensures WellFormed("1 2") && Meaning("1 2") == Booking(1, 0, 2)
  {
    OddValues();
    FirstToken("1", "2");
    FirstToken("2", "");
    assert "1 2" == "1" + [' '] + "2";
    assert Tokens("1 2") == ["1", "2"];
  }

  lemma FourNumbers()
    ensures WellFormed("1 9 2 3") && Meaning("1 9 2 3") == Booking(1, 2, 3)
  {
    hide Value, Tokens;
    OddValues();
    FourTokens();
  }

  lemma FourTokens()
    ensures Tokens("1 9 2 3") == ["1", "9", "2", "3"]
  {
    hide Tokens;
    FirstToken("1", "9 2 3");
    FirstToken("9", "2 3");
    FirstToken("2", "3");
    FirstToken("3", "");
    assert "1 9 2 3" == "1" + [' '] + "9 2 3" && "9 2 3" == "9" + [' '] + "2 3" && "2 3" == "2" + [' '] + "3";
  }

  lemma MinusInside()
    ensures WellFormed("5-3 1 1") && Meaning("5-3 1 1") == Booking(497, 1, 1)
  {
    hide Value, Tokens;
    OddValues();
    MinusTokens();
  }

  lemma MinusTokens()
    ensures Tokens("5-3 1 1") == ["5-3", "1", "1"]
  {
    hide Tokens;
    FirstToken("5-3", "1 1");
    FirstToken("1", "1");
    FirstToken("1", "");
    assert "5-3 1 1" == "5-3" + [' '] + "1 1" && "1 1" == "1" + [' '] + "1";
  }

  lemma OddValues()
    ensures Value("1") == 1 && Value("2") == 2 && Value("3") == 3 && IsNumeral("5-3") && Value("5-3") == 497
  {
    assert "1"[1..] == "" && "2"[1..] == "" && "3"[1..] == "" && "5-3"[1..] == "-3" && "-3"[1..] == "3";
    assert Value("-3") == -3;
    assert Power(2) == 10 * Power(1) && Power(1) == 10 * Power(0);
  }

  // ----- the id -----

  const FIRST_ID := 902001
  const LAST_ID := 902020

  function Number(line: string): int
    requires forall k :: 0 <= k < |line| ==> IsDigit(line[k])
  {
    if line == [] then 0 else 10 * Number(line[..|line| - 1]) + Digit(line[|line| - 1])
  }

  /** An id printed is read back. */
  lemma {:induction false} NumberOfPrint(n: nat)
    ensures Number(PrintNat(n)) == n
  {
    var t := PrintNat(n);
    if n < 10 {
      assert t[..0] == [];
    } else {
      NumberOfPrint(n / 10);
      assert t[..|t| - 1] == PrintNat(n / 10);
    }
  }

  /** The ids are those of the twenty users. */
  lemma IdsAre(n: nat)
    ensures IsId(PrintNat(n)) <==> 902001 <= n <= 902020
  {
    NumberOfPrint(n);
  }

  predicate IsId(line: string) {
    (forall k :: 0 <= k < |line| ==> IsDigit(line[k])) && FIRST_ID <= Number(line) <= LAST_ID
  }

  method CheckId(line: string) returns (ok: bool, id: int)
    ensures ok <==> IsId(line)
    ensures ok ==> id == Number(line)
  {
    ok, id := false, 0;
    var i := 0;
    while i < |line|
      invariant 0 <= i <= |line|
      invariant forall k :: 0 <= k < i ==> IsDigit(line[k])
    {
      if line[i] < '0' || line[i] > '9' {
        return;
      }
      i := i + 1;
    }
    id := Atoi(line);
    if id < FIRST_ID || id > LAST_ID {
      return;
    }
    ok := true;
  }

  method Atoi(line: string) returns (n: int)
    requires forall k :: 0 <= k < |line| ==> IsDigit(line[k])
    ensures n == Number(line)
  {
    n := 0;
    var i := 0;
    while i < |line|
      invariant 0 <= i <= |line|
      invariant n == Number(line[..i])
    {
      assert line[..i + 1][..i] == line[..i];
      n := 10 * n + Digit(line[i]);
      i := i + 1;
    }
    assert line[..i] == line;
  }
}
