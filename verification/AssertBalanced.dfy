/** The double-entry check (src/ledger/posting/assert-balanced.ts), with the rounding of
Money addition it inherits. */
module AssertBalanced {
  import opened Ledger
  import Money

  /** Running total of one side, added up the way the loop does. */
  function RoundedDebits(lines: seq<Line>): Amount {
    if lines == [] then 0 else Money.Add(RoundedDebits(lines[..|lines| - 1]), lines[|lines| - 1].debit)
  }

  function RoundedCredits(lines: seq<Line>): Amount {
    if lines == [] then 0 else Money.Add(RoundedCredits(lines[..|lines| - 1]), lines[|lines| - 1].credit)
  }

  /** What the check accepts, for any input. */
  predicate Accepts(lines: seq<Line>) {
    && 2 <= |lines|
    && (forall i | 0 <= i < |lines| :: (lines[i].debit != 0) != (lines[i].credit != 0))
    && RoundedDebits(lines) == RoundedCredits(lines)
  }

  /** assertBalanced: one pass with early rejection. */
  method Check(lines: seq<Line>) returns (ok: bool)
    ensures ok <==> Accepts(lines)
  {
    if |lines| < 2 { return false; }
    var debit, credit := 0, 0;
    for i := 0 to |lines|
      invariant debit == RoundedDebits(lines[..i]) && credit == RoundedCredits(lines[..i])
      invariant forall j | 0 <= j < i :: (lines[j].debit != 0) != (lines[j].credit != 0)
    {
      var l := lines[i];
      if (l.debit != 0) == (l.credit != 0) { return false; }
      assert lines[..i + 1][..i] == lines[..i];
      debit, credit := Money.Add(debit, l.debit), Money.Add(credit, l.credit);
    }
    assert lines[..|lines|] == lines;
    return debit == credit;
  }

  /** Neither side exceeds 10^16 rupiah. */
  ghost predicate InRange(lines: seq<Line>) {
    Debits(lines, EVERY) <= Money.LIMIT && Credits(lines, EVERY) <= Money.LIMIT
  }

  predicate NonNegative(lines: seq<Line>) {
    forall i | 0 <= i < |lines| :: 0 <= lines[i].debit && 0 <= lines[i].credit
  }

  lemma {:induction false} RoundedIsExact(lines: seq<Line>)
    requires NonNegative(lines) && InRange(lines)
    ensures RoundedDebits(lines) == Debits(lines, EVERY) >= 0
    ensures RoundedCredits(lines) == Credits(lines, EVERY) >= 0
  {
    if lines != [] {
      var front, last := lines[..|lines| - 1], lines[|lines| - 1];
      SidesGrow(front);
      RoundedIsExact(front);
      Money.AddExactIff(Debits(front, EVERY), last.debit);
      Money.AddExactIff(Credits(front, EVERY), last.credit);
    }
  }

  lemma SidesGrow(lines: seq<Line>)
    requires NonNegative(lines)
    ensures 0 <= Debits(lines, EVERY) && 0 <= Credits(lines, EVERY)
  {
  }

  /** Within 10^16 rupiah, and for amounts that are not negative, the check accepts exactly
      the balanced, one-sided entries of at least two lines. */
  lemma AcceptsIffBalanced(lines: seq<Line>)
    requires NonNegative(lines) && InRange(lines)
    ensures Accepts(lines) <==> Balanced(lines)
  {
    RoundedIsExact(lines);
  }

  /** The check is right about every entry of amounts that are not negative and sides up to n. */
  ghost predicate RightUpTo(n: int) {
    forall lines | NonNegative(lines) && Debits(lines, EVERY) <= n && Credits(lines, EVERY) <= n ::
      Accepts(lines) <==> Balanced(lines)
  }

  /** Debits of 10^16 - 0.0001 and 0.0002 rupiah against credits of 10^16 - 0.0001 and 0.0001. */
  function OffByOne(): seq<Line> {
    var n := Money.LIMIT - 1;
    [Line(0, n, 0), Line(0, 2, 0), Line(1, 0, n), Line(1, 0, 1)]
  }

  /** One unit above the limit the check accepts an entry that is off by 0.0001 rupiah. */
  lemma AcceptsUnbalanced()
    ensures Accepts(OffByOne()) && NonNegative(OffByOne()) && !Balanced(OffByOne())
    ensures Debits(OffByOne(), EVERY) == Money.LIMIT + 1 && Credits(OffByOne(), EVERY) == Money.LIMIT
  {
    hide Money.Add;
    var n := Money.LIMIT - 1;
    var l1 := [Line(0, n, 0)];
    var l2 := l1 + [Line(0, 2, 0)];
    var l3 := l2 + [Line(1, 0, n)];
    assert OffByOne()[..3] == l3 && l3[..2] == l2 && l2[..1] == l1 && l1[..0] == [];
    Money.AddExactIff(0, n);
    Money.AddExactIff(n, 0);
    Money.AddExactIff(n, 1);
    Money.AddExactIff(0, 0);
    Money.AddExactIff(n + 1, 0);
    Money.AddLosesDigit();
    assert RoundedDebits(l1) == n && RoundedDebits(l2) == n + 1 && RoundedDebits(l3) == n + 1;
    assert RoundedCredits(l1) == 0 && RoundedCredits(l2) == 0 && RoundedCredits(l3) == n;
    assert Debits(l1, EVERY) == n && Debits(l2, EVERY) == n + 2 && Debits(l3, EVERY) == n + 2;
    assert Credits(l1, EVERY) == 0 && Credits(l2, EVERY) == 0 && Credits(l3, EVERY) == n;
  }

  /** 10^16 rupiah is the exact range: the check is right about all entries with sides up to n
      if and only if n is at most that. */
  lemma RightExactlyUpToLimit(n: int)
    ensures RightUpTo(n) <==> n <= Money.LIMIT
  {
    hide Accepts, NonNegative, Balanced, Debits, Credits;
    if n <= Money.LIMIT {
      forall lines | NonNegative(lines) && Debits(lines, EVERY) <= n && Credits(lines, EVERY) <= n
        ensures Accepts(lines) <==> Balanced(lines)
      {
        AcceptsIffBalanced(lines);
      }
    } else {
      AcceptsUnbalanced();
    }
  }
}
