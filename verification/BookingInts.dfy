/** How far the tests on a command, stated for unbounded integers, are true of 32-bit
    ones that wrap around. */
module BookingInts {
  import opened BookingCommand

  const SPAN := 0x1_0000_0000

  // ----- the tests -----

  /** The int that comes of a result outside the range when it wraps around. */
  function Wrap(x: int): (w: int)
    ensures InInt(w) && (InInt(x) ==> w == x)
  {
    (x - INT_MIN) % SPAN + INT_MIN
  }

  /** The total as the server adds it up. */
  function WrappedTotal(now: Booking, change: Booking): int {
    Wrap(Wrap(Wrap(Wrap(Wrap(now.food + now.concert) + now.electronics) + change.food) + change.concert) + change.electronics)
  }

  /** The server's tests on ints that wrap around. */
  function JudgeInInts(now: Booking, line: string): Verdict {
    if !WellFormed(line) then Malformed
    else
      var change := Meaning(line);
      if WrappedTotal(now, change) > MOST_ITEMS then TooMany
      else if Wrap(now.food + change.food) < 0 || Wrap(now.concert + change.concert) < 0 || Wrap(now.electronics + change.electronics) < 0 then TooFew
      else Accepted(change)
  }

  predicate FieldsInInt(b: Booking) { InInt(b.food) && InInt(b.concert) && InInt(b.electronics) }

  lemma WrapOfSum(a: int, b: int)
    ensures Wrap(Wrap(a) + b) == Wrap(a + b)
  {
    var k := (a - INT_MIN) / SPAN;
    assert Wrap(a) == a - k * SPAN;
    WrapShift(a + b, k);
  }

  lemma WrapShift(x: int, k: int)
    ensures Wrap(x - k * SPAN) == Wrap(x)
  {
    var y := x - INT_MIN;
    var q := y / SPAN;
    assert y == q * SPAN + y % SPAN;
    assert y - k * SPAN == (q - k) * SPAN + y % SPAN;
    Remainder(y - k * SPAN, q - k, y % SPAN);
  }

  lemma Remainder(y: int, q: int, r: int)
    requires 0 <= r < SPAN && y == q * SPAN + r
    ensures y % SPAN == r
  {
  }

  lemma TotalWraps(now: Booking, change: Booking)
    ensures WrappedTotal(now, change) == Wrap(now.Total() + change.Total())
  {
    hide Wrap;
    var a := now.food + now.concert;
    WrapOfSum(a, now.electronics);
    WrapOfSum(a + now.electronics, change.food);
    WrapOfSum(a + now.electronics + change.food, change.concert);
    WrapOfSum(a + now.electronics + change.food + change.concert, change.electronics);
  }

  /** The totals for which wrapping around changes the answer. */
  predicate Misleads(total: int) {
    INT_MAX < total <= SPAN + MOST_ITEMS || SPAN + INT_MAX < total || -SPAN + MOST_ITEMS < total < INT_MIN
  }

  lemma WrappedTest(total: int)
    requires 3 * INT_MIN <= total <= 3 * INT_MAX + MOST_ITEMS
    ensures Misleads(total) <==> (Wrap(total) > MOST_ITEMS) != (total > MOST_ITEMS)
  {
    if total > INT_MAX {
      WrapShift(total, 1);
      WrapShift(total, 2);
    } else if total < INT_MIN {
      WrapShift(total, -1);
    }
  }

  lemma FieldWraps(old': int, change: int)
    requires 0 <= old' <= MOST_ITEMS && InInt(change)
    ensures old' + change < 0 ==> Wrap(old' + change) < 0
    ensures Wrap(old' + change) < 0 ==> old' + change < 0 || old' + change > INT_MAX
  {
  }

  /** Exactly when 32-bit ints that wrap around give the same verdict, for a booking
      within the limits and numbers that are ints: the sum of all must not be one of
      those that mislead. */
  lemma SameVerdict(now: Booking, line: string)
    requires now.Allowed() && WellFormed(line) && FieldsInInt(Meaning(line))
    ensures JudgeInInts(now, line) == Judge(now, line) <==> !Misleads(now.Total() + Meaning(line).Total())
  {
    hide WellFormed, Meaning, Wrap, WrappedTotal;
    var change := Meaning(line);
    TotalWraps(now, change);
    WrappedTest(now.Total() + change.Total());
    FieldWraps(now.food, change.food);
    FieldWraps(now.concert, change.concert);
    FieldWraps(now.electronics, change.electronics);
  }

  lemma SameVerdictAtAll(now: Booking, line: string)
    requires now.Allowed()
    ensures (WellFormed(line) ==> FieldsInInt(Meaning(line)) && !Misleads(now.Total() + Meaning(line).Total())) ==> JudgeInInts(now, line) == Judge(now, line)
  {
    hide Meaning, Misleads;
    if WellFormed(line) && FieldsInInt(Meaning(line)) {
      SameVerdict(now, line);
    }
  }

  /** The server's tests in their order; on ints too, as long as the sum of all does
      not mislead. */
  method CheckCommand(now: Booking, line: string) returns (v: Verdict)
    ensures v == Judge(now, line)
    ensures now.Allowed() && (WellFormed(line) ==> FieldsInInt(Meaning(line)) && !Misleads(now.Total() + Meaning(line).Total())) ==> v == JudgeInInts(now, line)
  {
    hide WellFormed, Meaning, JudgeInInts, Misleads;
    if now.Allowed() {
      SameVerdictAtAll(now, line);
    }
    var ok, change := ParseCommand(line);
    if !ok {
      v := Malformed;
    } else if now.Total() + change.food + change.concert + change.electronics > MOST_ITEMS {
      v := TooMany;
    } else if now.food + change.food < 0 {
      v := TooFew;
    } else if now.concert + change.concert < 0 {
      v := TooFew;
    } else if now.electronics + change.electronics < 0 {
      v := TooFew;
    } else {
      v := Accepted(change);
    }
  }

  /** With at most eight characters a piece, not counting a minus sign in front, all
      tests come out right: nothing overflows. */
  lemma ShortLinesAreSafe(now: Booking, line: string)
    requires now.Allowed() && WellFormed(line) && ShortTokens(line, 8)
    ensures JudgeInInts(now, line) == Judge(now, line)
    ensures var d := Meaning(line); var total := now.Total();
      && InInt(total + d.food) && InInt(total + d.food + d.concert) && InInt(total + d.Total())
      && FieldsInInt(now.Plus(d)) && FieldsInInt(d)
  {
    hide WellFormed, Meaning, Judge, JudgeInInts, ShortTokens;
    MeaningIsSmall(line);
    SameVerdict(now, line);
  }

  lemma MeaningIsSmall(line: string)
    requires WellFormed(line) && ShortTokens(line, 8)
    ensures var d := Meaning(line); var m := 1_0000_0000;
      -m < d.food < m && -m < d.concert < m && -m < d.electronics < m
  {
    hide Value;
    TokensAreNumerals(line);
    var ts := Tokens(line);
    forall j | 0 <= j < |ts|
      ensures -1_0000_0000 < Value(ts[j]) < 1_0000_0000
    {
      PieceIsSmall(ts[j]);
    }
  }

  lemma PieceIsSmall(t: string)
    requires IsNumeral(t) && AtMost(t, 8)
    ensures -1_0000_0000 < Value(t) < 1_0000_0000
  {
    hide Power, Value;
    PowersOfTen();
    ValueIsBelow(t);
    if |t| == 9 {
      ValueIsBelow(t[1..]);
      MinusFirst(t);
    } else {
      PowerGrows(|t|, 8);
    }
  }

  /** Numbers of at most k digits, printed, are short. */
  lemma {:induction false} PrintIsShort(n: nat, k: nat)
    requires k >= 1 && n < Power(k)
    ensures |PrintNat(n)| <= k
    decreases k
  {
    if n >= 10 {
      assert Power(k) == 10 * Power(k - 1) && Power(0) == 1;
      PrintIsShort(n / 10, k - 1);
    }
  }

  lemma NumberIsShort(n: int, k: nat)
    requires k >= 1 && -Power(k) < n < Power(k)
    ensures AtMost(Print(n), k)
  {
    PrintIsShort(if n < 0 then -n else n, k);
  }

  /** So every command of numbers below 100000000 gets the same verdict on ints. */
  lemma SmallNumbersAreSafe(now: Booking, ns: seq<int>)
    requires now.Allowed() && ns != [] && forall j :: 0 <= j < |ns| ==> -1_0000_0000 < ns[j] < 1_0000_0000
    ensures JudgeInInts(now, PrintAll(ns)) == Judge(now, PrintAll(ns))
  {
    hide PrintAll, Print, Power, Tokens, AtMost, Judge, JudgeInInts, WellFormed, MinusInFront;
    AllTokens(ns);
    ManyNumbers(ns);
    PowersOfTen();
    forall j | 0 <= j < |ns|
      ensures AtMost(Print(ns[j]), 8)
    {
      NumberIsShort(ns[j], 8);
    }
    ShortLinesAreSafe(now, PrintAll(ns));
  }

  // ----- a line beyond -----

  const NINES := "999999999"

  const BEYOND: string := NINES + [' '] + (NINES + [' '] + NINES)

  lemma NinesValue()
    ensures IsNumeral(NINES) && Value(NINES) == 999_999_999
  {
    hide Value, Power;
    ValueOfNine();
    assert "9" + "9" == "99" && "99" + "9" == "999" && "999" + "9" == "9999" && "9999" + "9" == "99999";
    assert "99999" + "9" == "999999" && "999999" + "9" == "9999999" && "9999999" + "9" == "99999999" && "99999999" + "9" == NINES;
    AnotherNine("9");
    AnotherNine("99");
    AnotherNine("999");
    AnotherNine("9999");
    AnotherNine("99999");
    AnotherNine("999999");
    AnotherNine("9999999");
    AnotherNine("99999999");
  }

  lemma ValueOfNine()
    ensures Value("9") == 9
  {
    assert "9"[1..] == "";
  }

  lemma AnotherNine(t: string)
    requires forall k :: 0 <= k < |t| ==> t[k] == '9'
    ensures Value(t + "9") == 10 * Value(t) + 9
  {
    ValueOfMore(t, '9');
  }

  lemma BeyondMeans()
    ensures WellFormed(BEYOND) && Meaning(BEYOND) == Booking(999_999_999, 999_999_999, 999_999_999)
    ensures ShortTokens(BEYOND, 9)
  {
    hide Value;
    NinesValue();
    FirstToken(NINES, NINES + [' '] + NINES);
    FirstToken(NINES, NINES);
    assert Tokens(BEYOND) == [NINES, NINES, NINES];
  }

  /** Three numbers that are ints, and read without overflow, but whose sum is not: an
      empty booking would become one of 999999999 items of each kind. */
  lemma SumsCanOverflow()
    ensures ShortTokens(BEYOND, 9) && Judge(ZERO, BEYOND) == TooMany
    ensures JudgeInInts(ZERO, BEYOND) == Accepted(Booking(999_999_999, 999_999_999, 999_999_999))
  {
    hide WellFormed, Meaning, ShortTokens;
    BeyondMeans();
  }
}
