/** Tax calculation on invoices and bills (src/tax/tax.service.ts): the base of each code is
aggregated over the lines, taxed once, and journalized against the settlement account. */
module Tax {
  import opened Ledger
  import AssertBalanced
  import Money
  import opened ControlSide

  datatype Nature = Sale | Purchase

  datatype TaxKind = PpnOutput | PpnInput | PphPrepaid | PphPayable

  /** `rate` counts millionths; `place` is where the code's name sorts. */
  datatype TaxCode = TaxCode(kind: TaxKind, rate: int, account: Id, active: bool, place: int)

  datatype TaxLine = TaxLine(account: Id, amount: Amount, codes: seq<Id>)

  datatype TaxRow = TaxRow(code: Id, place: int, kind: TaxKind, base: Amount, amount: Amount, account: Id)

  datatype Calculation = Calculation(
    subtotal: Amount, taxes: seq<TaxRow>, settlement: Amount, lines: seq<Line>, taxTotal: Amount, withheld: Amount)

  datatype Outcome = Refused | NonPositiveSettlement | Unbalanced | Calculated(calculation: Calculation)

  predicate Allowed(nature: Nature, kind: TaxKind) {
    if nature.Sale? then kind.PpnOutput? || kind.PphPrepaid? else kind.PpnInput? || kind.PphPayable?
  }

  predicate IsPpn(kind: TaxKind) { kind.PpnOutput? || kind.PpnInput? }

  predicate OnDebit(kind: TaxKind) { kind.PpnInput? || kind.PphPrepaid? }

  // ---- the specification, in exact arithmetic ---------------------------------------------------

  predicate NoRepeats(ids: seq<Id>) { forall i, j | 0 <= i < j < |ids| :: ids[i] != ids[j] }

  predicate Usable(codes: map<Id, TaxCode>, nature: Nature, id: Id) {
    id in codes && codes[id].active && Allowed(nature, codes[id].kind)
  }

  predicate Valid(nature: Nature, lines: seq<TaxLine>, codes: map<Id, TaxCode>) {
    && lines != []
    && (forall i | 0 <= i < |lines| :: NoRepeats(lines[i].codes))
    && (forall i, j | 0 <= i < |lines| && 0 <= j < |lines[i].codes| :: Usable(codes, nature, lines[i].codes[j]))
  }

  function Subtotal(lines: seq<TaxLine>): Amount {
    if lines == [] then 0 else Subtotal(lines[..|lines| - 1]) + lines[|lines| - 1].amount
  }

  /** The amounts of the lines that carry a code. */
  function Base(lines: seq<TaxLine>, id: Id): Amount {
    if lines == [] then 0 else
      Base(lines[..|lines| - 1], id) + (if id in lines[|lines| - 1].codes then lines[|lines| - 1].amount else 0)
  }

  /** The codes used, in order of first appearance. */
  function Seen(order: seq<Id>, ids: seq<Id>): seq<Id> {
    if ids == [] then order else
      var front, last := Seen(order, ids[..|ids| - 1]), ids[|ids| - 1];
      if last in front then front else front + [last]
  }

  function CodesOf(lines: seq<TaxLine>): seq<Id> {
    if lines == [] then [] else Seen(CodesOf(lines[..|lines| - 1]), lines[|lines| - 1].codes)
  }

  function RowOf(id: Id, base: Amount, c: TaxCode): TaxRow { TaxRow(id, c.place, c.kind, base, Money.Tax(base, c.rate), c.account) }

  predicate Known(codes: map<Id, TaxCode>, ids: seq<Id>) { forall i | 0 <= i < |ids| :: ids[i] in codes }

  function Rows(lines: seq<TaxLine>, ids: seq<Id>, codes: map<Id, TaxCode>): seq<TaxRow>
    requires Known(codes, ids)
  {
    seq(|ids|, i requires 0 <= i < |ids| => RowOf(ids[i], Base(lines, ids[i]), codes[ids[i]]))
  }

  /** A row goes behind every row that sorts no later. */
  function Insert(rows: seq<TaxRow>, r: TaxRow): seq<TaxRow> {
    if rows == [] || rows[|rows| - 1].place <= r.place then rows + [r]
    else Insert(rows[..|rows| - 1], r) + [rows[|rows| - 1]]
  }

  /** The rows in the order of their codes' names. */
  function SortByCode(rows: seq<TaxRow>): seq<TaxRow> {
    if rows == [] then [] else Insert(SortByCode(rows[..|rows| - 1]), rows[|rows| - 1])
  }

  predicate Sorted(rows: seq<TaxRow>) { forall i, j | 0 <= i < j < |rows| :: rows[i].place <= rows[j].place }

  lemma {:induction false} InsertKeeps(rows: seq<TaxRow>, r: TaxRow)
    ensures multiset(Insert(rows, r)) == multiset(rows) + multiset{r}
  {
    if rows != [] && r.place < rows[|rows| - 1].place {
      InsertKeeps(rows[..|rows| - 1], r);
      assert rows == rows[..|rows| - 1] + [rows[|rows| - 1]];
    }
  }

  lemma {:induction false} InsertAtMost(rows: seq<TaxRow>, r: TaxRow, bound: int)
    requires r.place <= bound && forall i | 0 <= i < |rows| :: rows[i].place <= bound
    ensures forall i | 0 <= i < |Insert(rows, r)| :: Insert(rows, r)[i].place <= bound
  {
    if rows != [] && r.place < rows[|rows| - 1].place { InsertAtMost(rows[..|rows| - 1], r, bound); }
  }

  lemma {:induction false} InsertSorts(rows: seq<TaxRow>, r: TaxRow)
    requires Sorted(rows)
    ensures Sorted(Insert(rows, r))
  {
    if rows != [] && r.place < rows[|rows| - 1].place {
      InsertSorts(rows[..|rows| - 1], r);
      InsertAtMost(rows[..|rows| - 1], r, rows[|rows| - 1].place);
    }
  }

  /** Sorting keeps the rows, each as often, and puts their names in order. */
  lemma {:induction false} SortIsSorted(rows: seq<TaxRow>)
    ensures Sorted(SortByCode(rows)) && multiset(SortByCode(rows)) == multiset(rows)
  {
    if rows == [] {
      assert SortByCode(rows) == [];
    } else {
      hide Insert, Sorted;
      SortIsSorted(rows[..|rows| - 1]);
      InsertSorts(SortByCode(rows[..|rows| - 1]), rows[|rows| - 1]);
      InsertKeeps(SortByCode(rows[..|rows| - 1]), rows[|rows| - 1]);
      assert rows == rows[..|rows| - 1] + [rows[|rows| - 1]];
    }
  }

  lemma SortKeepsRows(rows: seq<TaxRow>, i: nat) returns (j: nat)
    requires i < |SortByCode(rows)|
    ensures j < |rows| && SortByCode(rows)[i] == rows[j]
  {
    SortIsSorted(rows);
    assert SortByCode(rows)[i] in multiset(rows);
    j :| 0 <= j < |rows| && rows[j] == SortByCode(rows)[i];
  }

  /** Value-added tax (ppn) or withholding (not ppn) of the rows. */
  function Levied(rows: seq<TaxRow>, ppn: bool): Amount {
    if rows == [] then 0 else
      Levied(rows[..|rows| - 1], ppn) + (if IsPpn(rows[|rows| - 1].kind) == ppn then rows[|rows| - 1].amount else 0)
  }

  function On(debit: bool, account: Id, amount: Amount): Line { if debit then Line(account, amount, 0) else Line(account, 0, amount) }

  function BaseLines(nature: Nature, lines: seq<TaxLine>): seq<Line> {
    seq(|lines|, i requires 0 <= i < |lines| => On(nature.Purchase?, lines[i].account, lines[i].amount))
  }

  function RowLines(rows: seq<TaxRow>): seq<Line> {
    seq(|rows|, i requires 0 <= i < |rows| => On(OnDebit(rows[i].kind), rows[i].account, rows[i].amount))
  }

  function JournalLines(nature: Nature, account: Id, lines: seq<TaxLine>, rows: seq<TaxRow>): seq<Line> {
    BaseLines(nature, lines) + RowLines(rows)
    + [On(nature.Sale?, account, Subtotal(lines) + Levied(rows, true) - Levied(rows, false))]
  }

  function Exact(nature: Nature, account: Id, lines: seq<TaxLine>, rows: seq<TaxRow>): Outcome {
    var settlement := Subtotal(lines) + Levied(rows, true) - Levied(rows, false);
    if settlement <= 0 then NonPositiveSettlement
    else Calculated(Calculation(Subtotal(lines), rows, settlement, JournalLines(nature, account, lines, rows),
                                Levied(rows, true), Levied(rows, false)))
  }

  /** Amounts and rates are not negative, and no total exceeds 10^16 rupiah. */
  predicate InRange(lines: seq<TaxLine>, rows: seq<TaxRow>) {
    && (forall i | 0 <= i < |lines| :: 0 <= lines[i].amount)
    && (forall i | 0 <= i < |rows| :: 0 <= rows[i].amount)
    && Subtotal(lines) + Levied(rows, true) <= Money.LIMIT && Levied(rows, false) <= Money.LIMIT
  }

  // ---- what the lines amount to -------------------------------------------------------------------

  lemma {:induction false} BaseLinesSides(nature: Nature, lines: seq<TaxLine>)
    ensures Debits(BaseLines(nature, lines), EVERY) == if nature.Sale? then 0 else Subtotal(lines)
    ensures Credits(BaseLines(nature, lines), EVERY) == if nature.Sale? then Subtotal(lines) else 0
  {
    if lines != [] {
      BaseLinesSides(nature, lines[..|lines| - 1]);
      assert BaseLines(nature, lines)[..|lines| - 1] == BaseLines(nature, lines[..|lines| - 1]);
    }
  }

  lemma {:induction false} RowLinesSides(nature: Nature, rows: seq<TaxRow>)
    requires forall i | 0 <= i < |rows| :: Allowed(nature, rows[i].kind)
    ensures Debits(RowLines(rows), EVERY) == Levied(rows, nature.Purchase?)
    ensures Credits(RowLines(rows), EVERY) == Levied(rows, nature.Sale?)
  {
    if rows != [] {
      RowLinesSides(nature, rows[..|rows| - 1]);
      assert RowLines(rows)[..|rows| - 1] == RowLines(rows[..|rows| - 1]);
    }
  }

  lemma OneLine(l: Line, accounts: iset<Id>)
    ensures Debits([l], accounts) == if l.account in accounts then l.debit else 0
    ensures Credits([l], accounts) == if l.account in accounts then l.credit else 0
  {
    assert [l][..0] == [];
  }

  /** The lines balance, whatever the amounts: both sides come to the gross of the document. */
  lemma LinesBalance(nature: Nature, account: Id, lines: seq<TaxLine>, rows: seq<TaxRow>)
    requires forall i | 0 <= i < |rows| :: Allowed(nature, rows[i].kind)
    ensures var j := JournalLines(nature, account, lines, rows);
            Debits(j, EVERY) == Credits(j, EVERY) == Subtotal(lines) + Levied(rows, true)
  {
    var base, taxes := BaseLines(nature, lines), RowLines(rows);
    var last := On(nature.Sale?, account, Subtotal(lines) + Levied(rows, true) - Levied(rows, false));
    BaseLinesSides(nature, lines);
    RowLinesSides(nature, rows);
    NetConcat(base, taxes, EVERY);
    NetConcat(base + taxes, [last], EVERY);
    OneLine(last, EVERY);
  }

  /** Some base or tax amount is zero. */
  predicate HasZero(lines: seq<TaxLine>, rows: seq<TaxRow>) {
    (exists i :: 0 <= i < |lines| && lines[i].amount == 0) || (exists i :: 0 <= i < |rows| && rows[i].amount == 0)
  }

  /** The lines of a calculation within range pass the safety net, and assertBalanced accepts
      them exactly when no base or tax amount is zero. */
  lemma AcceptedIffNoZero(nature: Nature, account: Id, lines: seq<TaxLine>, rows: seq<TaxRow>)
    requires lines != [] && InRange(lines, rows) && Exact(nature, account, lines, rows).Calculated?
    requires forall i | 0 <= i < |rows| :: Allowed(nature, rows[i].kind)
    ensures var j := JournalLines(nature, account, lines, rows);
      && AssertBalanced.RoundedDebits(j) == AssertBalanced.RoundedCredits(j)
      && (AssertBalanced.Accepts(j) <==> !HasZero(lines, rows))
  {
    hide AssertBalanced.RoundedDebits, AssertBalanced.RoundedCredits, AssertBalanced.Accepts, Debits, Credits;
    var j := JournalLines(nature, account, lines, rows);
    LinesBalance(nature, account, lines, rows);
    LinesByParts(nature, account, lines, rows);
    AssertBalanced.RoundedIsExact(j);
    AssertBalanced.AcceptsIffBalanced(j);
  }

  lemma LinesByParts(nature: Nature, account: Id, lines: seq<TaxLine>, rows: seq<TaxRow>)
    requires lines != [] && InRange(lines, rows) && Exact(nature, account, lines, rows).Calculated?
    ensures var j := JournalLines(nature, account, lines, rows);
      && 2 <= |j| && AssertBalanced.NonNegative(j)
      && ((forall i | 0 <= i < |j| :: OneSided(j[i])) <==> !HasZero(lines, rows))
  {
    var j := JournalLines(nature, account, lines, rows);
    assert forall i | 0 <= i < |lines| :: j[i] == On(nature.Purchase?, lines[i].account, lines[i].amount);
    assert forall i | 0 <= i < |rows| :: j[|lines| + i] == On(OnDebit(rows[i].kind), rows[i].account, rows[i].amount);
    forall i | 0 <= i < |j|
      ensures 0 <= j[i].debit && 0 <= j[i].credit && (!HasZero(lines, rows) ==> OneSided(j[i]))
    {
      if |lines| <= i < |lines| + |rows| { assert j[i] == j[|lines| + (i - |lines|)]; }
    }
  }

  /** The kind of document that a nature gives rise to. */
  function KindOf(nature: Nature): Kind { if nature.Sale? then Receivable else Payable }

  /** The entry of a document moves its settlement amount on its control account and nothing
      on the other, provided its item and tax lines use neither. */
  lemma EntrySettles(config: Config, nature: Nature, lines: seq<TaxLine>, rows: seq<TaxRow>)
    requires config.receivable != config.payable && Avoids(config, BaseLines(nature, lines) + RowLines(rows))
    ensures Settles(config, KindOf(nature), Subtotal(lines) + Levied(rows, true) - Levied(rows, false),
                    JournalLines(nature, ControlAccount(config, KindOf(nature)), lines, rows))
  {
    var kind, items := KindOf(nature), BaseLines(nature, lines) + RowLines(rows);
    var last := On(nature.Sale?, ControlAccount(config, kind), Subtotal(lines) + Levied(rows, true) - Levied(rows, false));
    forall k: Kind ensures Net(items + [last], Control(config, k)) == Net([last], Control(config, k)) {
      AvoidedNet(config, items, k);
      NetConcat(items, [last], Control(config, k));
    }
    OneLine(last, Control(config, kind));
    OneLine(last, Control(config, Other(kind)));
  }

  // ---- the loops -----------------------------------------------------------------------------------

  /** `new Set(line.taxCodeIds).size !== line.taxCodeIds.length` */
  method FindRepeat(ids: seq<Id>) returns (repeats: bool)
    ensures repeats <==> !NoRepeats(ids)
  {
    var seen: set<Id> := {};
    for i := 0 to |ids|
      invariant seen == set k | 0 <= k < i :: ids[k]
      invariant NoRepeats(ids[..i])
    {
      if ids[i] in seen {
        var k :| 0 <= k < i && ids[k] == ids[i];
        return true;
      }
      seen := seen + {ids[i]};
    }
    assert ids[..|ids|] == ids;
    return false;
  }

  method Validate(nature: Nature, lines: seq<TaxLine>, codes: map<Id, TaxCode>) returns (ok: bool)
    ensures ok <==>
      && lines != []
      && (forall i, j, k | 0 <= i < |lines| && 0 <= j < k < |lines[i].codes| :: lines[i].codes[j] != lines[i].codes[k])
      && (forall i, j | 0 <= i < |lines| && 0 <= j < |lines[i].codes| ::
            var id := lines[i].codes[j];
            && id in codes && codes[id].active
            && (nature.Sale? ==> codes[id].kind == PpnOutput || codes[id].kind == PphPrepaid)
            && (nature.Purchase? ==> codes[id].kind == PpnInput || codes[id].kind == PphPayable))
    ensures ok <==> Valid(nature, lines, codes)
  {
    if lines == [] { return false; }
    for i := 0 to |lines|
      invariant forall k | 0 <= k < i :: NoRepeats(lines[k].codes)
    {
      var repeats := FindRepeat(lines[i].codes);
      if repeats { return false; }
    }
    for i := 0 to |lines|
      invariant forall k, j | 0 <= k < i && 0 <= j < |lines[k].codes| :: Usable(codes, nature, lines[k].codes[j])
    {
      for j := 0 to |lines[i].codes|
        invariant forall m | 0 <= m < j :: Usable(codes, nature, lines[i].codes[m])
      {
        if !Usable(codes, nature, lines[i].codes[j]) { return false; }
      }
    }
    return true;
  }

  lemma LineStep(lines: seq<TaxLine>, i: nat)
    requires i < |lines|
    ensures lines[..i + 1] != [] && lines[..i + 1][..i] == lines[..i] && lines[..i + 1][i] == lines[i]
  {
  }

  predicate NonNegative(lines: seq<TaxLine>) { forall i | 0 <= i < |lines| :: 0 <= lines[i].amount }

  lemma {:induction false} PrefixBase(lines: seq<TaxLine>, n: nat, id: Id)
    requires n <= |lines| && NonNegative(lines)
    ensures 0 <= Base(lines[..n], id) <= Subtotal(lines[..n]) <= Subtotal(lines)
    decreases |lines| - n, n
  {
    if n > 0 {
      LineStep(lines, n - 1);
      PrefixSums(lines, n, id);
    }
    Grows(lines, n);
  }

  lemma {:induction false} PrefixSums(lines: seq<TaxLine>, n: nat, id: Id)
    requires n <= |lines| && NonNegative(lines)
    ensures 0 <= Base(lines[..n], id) <= Subtotal(lines[..n])
    decreases n
  {
    if n > 0 {
      LineStep(lines, n - 1);
      PrefixSums(lines, n - 1, id);
    }
  }

  lemma {:induction false} Grows(lines: seq<TaxLine>, n: nat)
    requires n <= |lines| && NonNegative(lines)
    ensures Subtotal(lines[..n]) <= Subtotal(lines)
    decreases |lines| - n
  {
    if n < |lines| {
      LineStep(lines, n);
      Grows(lines, n + 1);
    } else {
      assert lines[..n] == lines;
    }
  }

  /** Money.sum of the line amounts. */
  method SumLines(lines: seq<TaxLine>) returns (subtotal: Amount)
    ensures NonNegative(lines) && Subtotal(lines) <= Money.LIMIT ==> subtotal == Subtotal(lines)
  {
    subtotal := 0;
    for i := 0 to |lines|
      invariant NonNegative(lines) && Subtotal(lines) <= Money.LIMIT ==> subtotal == Subtotal(lines[..i])
    {
      LineStep(lines, i);
      if NonNegative(lines) && Subtotal(lines) <= Money.LIMIT {
        PrefixBase(lines, i, 0);
        PrefixBase(lines, i + 1, 0);
        Money.AddExactIff(subtotal, lines[i].amount);
      }
      subtotal := Money.Add(subtotal, lines[i].amount);
    }
    assert lines[..|lines|] == lines;
  }

  function BaseOr0(m: map<Id, Amount>, id: Id): Amount { if id in m then m[id] else 0 }

  /** After the first j codes of line i. */
  function PartBase(lines: seq<TaxLine>, i: nat, j: nat, id: Id): Amount
    requires i < |lines| && j <= |lines[i].codes|
  {
    Base(lines[..i], id) + (if id in lines[i].codes[..j] then lines[i].amount else 0)
  }

  ghost predicate Bases(m: map<Id, Amount>, lines: seq<TaxLine>, i: nat, j: nat)
    requires i < |lines| && j <= |lines[i].codes|
  {
    forall id: Id :: BaseOr0(m, id) == PartBase(lines, i, j, id)
  }

  lemma BaseStep(m: map<Id, Amount>, lines: seq<TaxLine>, i: nat, j: nat)
    requires i < |lines| && j < |lines[i].codes| && NoRepeats(lines[i].codes)
    requires NonNegative(lines) && Subtotal(lines) <= Money.LIMIT && Bases(m, lines, i, j)
    ensures var id := lines[i].codes[j]; Bases(m[id := Money.Add(BaseOr0(m, id), lines[i].amount)], lines, i, j + 1)
  {
    hide Money.Add, Base, Subtotal;
    var id, codes := lines[i].codes[j], lines[i].codes;
    LineStep(lines, i);
    assert id !in codes[..j];
    PrefixBase(lines, i, id);
    PrefixBase(lines, i + 1, id);
    assert Base(lines[..i + 1], id) == Base(lines[..i], id) + lines[i].amount by { OneMore(lines, i, id); }
    assert Money.Add(BaseOr0(m, id), lines[i].amount) == Base(lines[..i], id) + lines[i].amount by {
      assert BaseOr0(m, id) == PartBase(lines, i, j, id);
      Money.AddExactIff(BaseOr0(m, id), lines[i].amount);
    }
    var m2 := m[id := Base(lines[..i], id) + lines[i].amount];
    assert codes[..j + 1] == codes[..j] + [id];
    forall k: Id ensures BaseOr0(m2, k) == PartBase(lines, i, j + 1, k) {
      assert BaseOr0(m, k) == PartBase(lines, i, j, k);
    }
  }

  lemma OneMore(lines: seq<TaxLine>, i: nat, id: Id)
    requires i < |lines|
    ensures Base(lines[..i + 1], id) == Base(lines[..i], id) + (if id in lines[i].codes then lines[i].amount else 0)
  {
    LineStep(lines, i);
  }

  lemma {:induction false} SeenKeys(order: seq<Id>, ids: seq<Id>, id: Id)
    ensures id in Seen(order, ids) <==> id in order || id in ids
  {
    if ids != [] {
      SeenKeys(order, ids[..|ids| - 1], id);
      assert ids == ids[..|ids| - 1] + [ids[|ids| - 1]];
    }
  }

  lemma {:induction false} CodesKnown(nature: Nature, lines: seq<TaxLine>, codes: map<Id, TaxCode>, id: Id)
    requires forall i, j | 0 <= i < |lines| && 0 <= j < |lines[i].codes| :: Usable(codes, nature, lines[i].codes[j])
    requires id in CodesOf(lines)
    ensures Usable(codes, nature, id)
  {
    if lines != [] {
      var last := lines[|lines| - 1];
      SeenKeys(CodesOf(lines[..|lines| - 1]), last.codes, id);
      if id !in last.codes {
        CodesKnown(nature, lines[..|lines| - 1], codes, id);
      }
    }
  }

  /** The baseByCode loop; `order` is the insertion order of the map. */
  method AggregateBases(lines: seq<TaxLine>) returns (order: seq<Id>, bases: map<Id, Amount>)
    requires forall i | 0 <= i < |lines| :: NoRepeats(lines[i].codes)
    ensures order == CodesOf(lines) && bases.Keys == set id | id in order
    ensures NonNegative(lines) && Subtotal(lines) <= Money.LIMIT ==> forall id: Id :: BaseOr0(bases, id) == Base(lines, id)
  {
    hide Money.Add, Base, Subtotal;
    order, bases := [], map[];
    NothingSeen(lines);
    for i := 0 to |lines|
      invariant order == CodesOf(lines[..i]) && bases.Keys == set id | id in order
      invariant NonNegative(lines) && Subtotal(lines) <= Money.LIMIT ==> forall id: Id :: BaseOr0(bases, id) == Base(lines[..i], id)
    {
      var l := lines[i];
      for j := 0 to |l.codes|
        invariant order == Seen(CodesOf(lines[..i]), l.codes[..j]) && bases.Keys == set id | id in order
        invariant NonNegative(lines) && Subtotal(lines) <= Money.LIMIT ==> Bases(bases, lines, i, j)
      {
        var id := l.codes[j];
        if NonNegative(lines) && Subtotal(lines) <= Money.LIMIT { BaseStep(bases, lines, i, j); }
        assert l.codes[..j + 1][..j] == l.codes[..j];
        bases := bases[id := Money.Add(BaseOr0(bases, id), l.amount)];
        if id !in order { order := order + [id]; }
      }
      assert l.codes[..|l.codes|] == l.codes;
      LineStep(lines, i);
      if NonNegative(lines) && Subtotal(lines) <= Money.LIMIT { LineDone(bases, lines, i); }
    }
    assert lines[..|lines|] == lines;
  }

  lemma NothingSeen(lines: seq<TaxLine>)
    ensures CodesOf(lines[..0]) == [] && forall id: Id :: Base(lines[..0], id) == 0
  {
  }

  lemma LineDone(m: map<Id, Amount>, lines: seq<TaxLine>, i: nat)
    requires i < |lines| && Bases(m, lines, i, |lines[i].codes|)
    ensures forall id: Id :: BaseOr0(m, id) == Base(lines[..i + 1], id)
  {
    assert lines[i].codes[..|lines[i].codes|] == lines[i].codes;
    forall id: Id ensures BaseOr0(m, id) == Base(lines[..i + 1], id) {
      assert BaseOr0(m, id) == PartBase(lines, i, |lines[i].codes|, id);
      OneMore(lines, i, id);
    }
  }

  // ---- calculate -----------------------------------------------------------------------------------

  lemma CodesAllKnown(nature: Nature, lines: seq<TaxLine>, codes: map<Id, TaxCode>)
    requires Valid(nature, lines, codes)
    ensures forall i | 0 <= i < |CodesOf(lines)| :: Usable(codes, nature, CodesOf(lines)[i])
  {
    forall i | 0 <= i < |CodesOf(lines)| ensures Usable(codes, nature, CodesOf(lines)[i]) {
      CodesKnown(nature, lines, codes, CodesOf(lines)[i]);
    }
  }

  /** The tax rows of a valid transaction, sorted by code. */
  function Taxes(nature: Nature, lines: seq<TaxLine>, codes: map<Id, TaxCode>): (rows: seq<TaxRow>)
    requires Valid(nature, lines, codes)
    ensures Sorted(rows) && forall i | 0 <= i < |rows| :: Allowed(nature, rows[i].kind)
  {
    CodesAllKnown(nature, lines, codes);
    TaxesAllowed(nature, lines, codes);
    SortByCode(Rows(lines, CodesOf(lines), codes))
  }

  lemma TaxesAllowed(nature: Nature, lines: seq<TaxLine>, codes: map<Id, TaxCode>)
    requires Valid(nature, lines, codes) && Known(codes, CodesOf(lines))
    ensures var rows := SortByCode(Rows(lines, CodesOf(lines), codes));
      Sorted(rows) && forall i | 0 <= i < |rows| :: Allowed(nature, rows[i].kind)
  {
    var unsorted := Rows(lines, CodesOf(lines), codes);
    SortIsSorted(unsorted);
    CodesAllKnown(nature, lines, codes);
    forall i | 0 <= i < |SortByCode(unsorted)| ensures Allowed(nature, SortByCode(unsorted)[i].kind) {
      var j := SortKeepsRows(unsorted, i);
      assert Usable(codes, nature, CodesOf(lines)[j]);
    }
  }

  /** Rates between 0 and 1, as tax codes are validated. */
  predicate RatesOk(codes: map<Id, TaxCode>) { forall id | id in codes :: 0 < codes[id].rate < 1_000_000 }

  /** No amount is negative and no total exceeds 10^16 rupiah. */
  predicate Ordinary(nature: Nature, lines: seq<TaxLine>, codes: map<Id, TaxCode>)
    requires Valid(nature, lines, codes)
  {
    var rows := Taxes(nature, lines, codes);
    NonNegative(lines) && RatesOk(codes)
    && Subtotal(lines) + Levied(rows, true) <= Money.LIMIT && Levied(rows, false) <= Money.LIMIT
  }

  lemma TaxNonNegative(base: Amount, rate: int)
    requires 0 <= base && 0 <= rate
    ensures 0 <= Money.Tax(base, rate)
  {
    hide Money.Sig20, Money.DivHalfUp;
    assert 0 <= base * rate;
    Money.SigSign(base * rate);
    Money.DivNonNegative(Money.Sig20(base * rate), 1_000_000);
    Money.DivNonNegative(Money.Multiply(base, rate), 10_000);
  }

  lemma OrdinaryInRange(nature: Nature, lines: seq<TaxLine>, codes: map<Id, TaxCode>)
    requires Valid(nature, lines, codes) && Ordinary(nature, lines, codes)
    ensures InRange(lines, Taxes(nature, lines, codes)) && Subtotal(lines) <= Money.LIMIT
  {
    hide Money.Tax;
    var rows, ids := Taxes(nature, lines, codes), CodesOf(lines);
    CodesAllKnown(nature, lines, codes);
    forall i | 0 <= i < |rows| ensures 0 <= rows[i].amount {
      assert lines[..|lines|] == lines;
      var j := SortKeepsRows(Rows(lines, ids, codes), i);
      PrefixBase(lines, |lines|, ids[j]);
      assert Usable(codes, nature, ids[j]);
      TaxNonNegative(Base(lines, ids[j]), codes[ids[j]].rate);
    }
    PrefixLevied(rows, 0, true);
  }

  lemma RowStep(rows: seq<TaxRow>, i: nat)
    requires i < |rows|
    ensures rows[..i + 1] != [] && rows[..i + 1][..i] == rows[..i] && rows[..i + 1][i] == rows[i]
  {
  }

  lemma {:induction false} PrefixLevied(rows: seq<TaxRow>, n: nat, ppn: bool)
    requires n <= |rows| && forall i | 0 <= i < |rows| :: 0 <= rows[i].amount
    ensures 0 <= Levied(rows[..n], ppn) <= Levied(rows, ppn)
    decreases |rows|
  {
    if n == |rows| {
      assert rows[..n] == rows;
      if n > 0 {
        assert rows[..n - 1][..n - 1] == rows[..n - 1];
        PrefixLevied(rows[..n - 1], n - 1, ppn);
      }
    } else {
      assert rows[..|rows| - 1][..n] == rows[..n];
      PrefixLevied(rows[..|rows| - 1], n, ppn);
    }
  }

  method MakeRows(order: seq<Id>, bases: map<Id, Amount>, codes: map<Id, TaxCode>) returns (rows: seq<TaxRow>)
    requires Known(codes, order) && bases.Keys == set id | id in order
    ensures |rows| == |order|
    ensures forall i | 0 <= i < |order| :: rows[i] == RowOf(order[i], BaseOr0(bases, order[i]), codes[order[i]])
  {
    rows := [];
    for i := 0 to |order|
      invariant |rows| == i
      invariant forall k | 0 <= k < i :: rows[k] == RowOf(order[k], BaseOr0(bases, order[k]), codes[order[k]])
    {
      rows := rows + [RowOf(order[i], bases[order[i]], codes[order[i]])];
    }
  }

  /** The journal-line loops with their running PPN and PPh totals. */
  method Journalize(nature: Nature, lines: seq<TaxLine>, rows: seq<TaxRow>) returns (journal: seq<Line>, ppn: Amount, pph: Amount)
    ensures journal == BaseLines(nature, lines) + RowLines(rows)
    ensures (forall i | 0 <= i < |rows| :: 0 <= rows[i].amount) ==>
      && (Levied(rows, true) <= Money.LIMIT ==> ppn == Levied(rows, true))
      && (Levied(rows, false) <= Money.LIMIT ==> pph == Levied(rows, false))
  {
    hide Money.Add;
    journal, ppn, pph := [], 0, 0;
    for i := 0 to |lines|
      invariant journal == BaseLines(nature, lines)[..i]
    {
      journal := journal + [if nature.Sale? then Line(lines[i].account, 0, lines[i].amount) else Line(lines[i].account, lines[i].amount, 0)];
    }
    for i := 0 to |rows|
      invariant journal == BaseLines(nature, lines) + RowLines(rows)[..i]
      invariant (forall k | 0 <= k < |rows| :: 0 <= rows[k].amount) && Levied(rows, true) <= Money.LIMIT ==> ppn == Levied(rows[..i], true)
      invariant (forall k | 0 <= k < |rows| :: 0 <= rows[k].amount) && Levied(rows, false) <= Money.LIMIT ==> pph == Levied(rows[..i], false)
    {
      RowStep(rows, i);
      if forall k | 0 <= k < |rows| :: 0 <= rows[k].amount { AddsRow(rows, i, true); AddsRow(rows, i, false); }
      var t := rows[i];
      journal := journal + [if OnDebit(t.kind) then Line(t.account, t.amount, 0) else Line(t.account, 0, t.amount)];
      if IsPpn(t.kind) { ppn := Money.Add(ppn, t.amount); } else { pph := Money.Add(pph, t.amount); }
    }
    assert rows[..|rows|] == rows;
  }

  lemma AddsRow(rows: seq<TaxRow>, i: nat, ppn: bool)
    requires i < |rows| && forall k | 0 <= k < |rows| :: 0 <= rows[k].amount
    ensures Levied(rows, ppn) <= Money.LIMIT && IsPpn(rows[i].kind) == ppn ==>
      Money.Add(Levied(rows[..i], ppn), rows[i].amount) == Levied(rows[..i + 1], ppn)
  {
    hide Money.Add;
    RowStep(rows, i);
    PrefixLevied(rows, i, ppn);
    PrefixLevied(rows, i + 1, ppn);
    Money.AddExactIff(Levied(rows[..i], ppn), rows[i].amount);
  }

  /** Money.sum over both sides of the journal lines. */
  method SumSides(lines: seq<Line>) returns (debit: Amount, credit: Amount)
    ensures debit == AssertBalanced.RoundedDebits(lines) && credit == AssertBalanced.RoundedCredits(lines)
  {
    debit, credit := 0, 0;
    for i := 0 to |lines|
      invariant debit == AssertBalanced.RoundedDebits(lines[..i]) && credit == AssertBalanced.RoundedCredits(lines[..i])
    {
      assert lines[..i + 1][..i] == lines[..i];
      debit, credit := Money.Add(debit, lines[i].debit), Money.Add(credit, lines[i].credit);
    }
    assert lines[..|lines|] == lines;
  }

  /** calculate: refused exactly for invalid transactions; otherwise, while totals stay within
      10^16 rupiah, the exact calculation, so that the safety net never fires. */
  method Calculate(nature: Nature, account: Id, lines: seq<TaxLine>, codes: map<Id, TaxCode>) returns (r: Outcome)
    ensures r.Refused? <==> !Valid(nature, lines, codes)
    ensures Valid(nature, lines, codes) && Ordinary(nature, lines, codes) ==>
      r == Exact(nature, account, lines, Taxes(nature, lines, codes)) && !r.Unbalanced?
  {
    hide Money.Add, Money.Subtract, AssertBalanced.RoundedDebits, AssertBalanced.RoundedCredits, AssertBalanced.Accepts,
         Ordinary, Subtotal, Levied, Money.Tax, HasZero, CodesOf, Base, SortByCode;
    var ok := Validate(nature, lines, codes);
    if !ok { return Refused; }
    CodesAllKnown(nature, lines, codes);
    var subtotal := SumLines(lines);
    var order, bases := AggregateBases(lines);
    var unsorted := MakeRows(order, bases, codes);
    var rows := SortByCode(unsorted);
    var journal, ppn, pph := Journalize(nature, lines, rows);
    ghost var ordinary := Ordinary(nature, lines, codes);
    if ordinary {
      OrdinaryInRange(nature, lines, codes);
      assert unsorted == Rows(lines, CodesOf(lines), codes);
      SettlesExactly(lines, rows);
    }
    var settlement := Money.Subtract(Money.Add(subtotal, ppn), pph);
    if settlement <= 0 { return NonPositiveSettlement; }
    journal := journal + [if nature.Sale? then Line(account, settlement, 0) else Line(account, 0, settlement)];
    if ordinary { AcceptedIffNoZero(nature, account, lines, rows); }
    var debit, credit := SumSides(journal);
    if debit != credit { return Unbalanced; }
    return Calculated(Calculation(subtotal, rows, settlement, journal, ppn, pph));
  }

  lemma SettlesExactly(lines: seq<TaxLine>, rows: seq<TaxRow>)
    requires InRange(lines, rows)
    ensures Subtotal(lines) <= Money.LIMIT && Levied(rows, true) <= Money.LIMIT && NonNegative(lines)
    ensures Money.Subtract(Money.Add(Subtotal(lines), Levied(rows, true)), Levied(rows, false))
         == Subtotal(lines) + Levied(rows, true) - Levied(rows, false)
  {
    hide Money.Sig20;
    assert lines[..|lines|] == lines && rows[..|rows|] == rows;
    PrefixBase(lines, |lines|, 0);
    PrefixLevied(rows, |rows|, true);
    PrefixLevied(rows, |rows|, false);
    Money.AddExactIff(Subtotal(lines), Levied(rows, true));
    Money.AddExactIff(Subtotal(lines) + Levied(rows, true), -Levied(rows, false));
  }

  // ---- the result, row by row and line by line -----------------------------------------------------------

  predicate NoneTwice<T(==)>(s: seq<T>) { forall i, j | 0 <= i < j < |s| :: s[i] != s[j] }

  lemma {:induction false} CountAtMostOne<T>(s: seq<T>, x: T)
    requires NoneTwice(s)
    ensures multiset(s)[x] <= 1 && (x !in s ==> multiset(s)[x] == 0)
  {
    if s != [] {
      var front, last := s[..|s| - 1], s[|s| - 1];
      CountAtMostOne(front, x);
      assert s == front + [last];
      if x == last { assert x !in front; }
    }
  }

  lemma PermutedDistinct<T>(a: seq<T>, b: seq<T>)
    requires multiset(a) == multiset(b) && NoneTwice(a)
    ensures NoneTwice(b)
  {
    forall i, j | 0 <= i < j < |b| ensures b[i] != b[j] {
      var x := b[i];
      CountAtMostOne(a, x);
      assert b == b[..i] + [x] + b[i + 1..j] + [b[j]] + b[j + 1..];
      assert multiset(b) == multiset(b[..i]) + multiset{x} + multiset(b[i + 1..j]) + multiset{b[j]} + multiset(b[j + 1..]);
    }
  }

  lemma {:induction false} SeenDistinct(order: seq<Id>, ids: seq<Id>)
    requires NoneTwice(order)
    ensures NoneTwice(Seen(order, ids))
  {
    if ids != [] { SeenDistinct(order, ids[..|ids| - 1]); }
  }

  lemma {:induction false} CodesDistinct(lines: seq<TaxLine>)
    ensures NoneTwice(CodesOf(lines))
  {
    if lines != [] {
      CodesDistinct(lines[..|lines| - 1]);
      SeenDistinct(CodesOf(lines[..|lines| - 1]), lines[|lines| - 1].codes);
    }
  }

  predicate OnSomeLine(lines: seq<TaxLine>, id: Id) { exists k :: 0 <= k < |lines| && id in lines[k].codes }

  lemma {:induction false} CodesAreOnLines(lines: seq<TaxLine>, id: Id)
    ensures id in CodesOf(lines) <==> OnSomeLine(lines, id)
  {
    if lines != [] {
      var front, last := lines[..|lines| - 1], lines[|lines| - 1];
      CodesAreOnLines(front, id);
      SeenKeys(CodesOf(front), last.codes, id);
      if OnSomeLine(front, id) {
        var k :| 0 <= k < |front| && id in front[k].codes;
        assert id in lines[k].codes;
      }
      if id in last.codes { assert id in lines[|lines| - 1].codes; }
      if OnSomeLine(lines, id) {
        var k :| 0 <= k < |lines| && id in lines[k].codes;
        if k < |front| { assert id in front[k].codes; }
      }
    }
  }

  /** Each tax row: its code is on some line, kind, account and place are the code's own, the base
      is the amounts of the lines that carry it, and the tax is whole rupiah, within 0.50005
      rupiah of base times the code's own rate (0.5001 from 10^10 rupiah on). */
  lemma RowExplained(nature: Nature, lines: seq<TaxLine>, codes: map<Id, TaxCode>, i: nat)
    requires Valid(nature, lines, codes) && i < |Taxes(nature, lines, codes)|
    ensures var r := Taxes(nature, lines, codes)[i];
      && OnSomeLine(lines, r.code) && r.code in codes
      && r.kind == codes[r.code].kind && r.account == codes[r.code].account && r.place == codes[r.code].place
      && r.base == Base(lines, r.code)
      && r.amount % 10_000 == 0
      && (Money.Abs(r.base * codes[r.code].rate) < Money.LIMIT ==>
            Money.Abs(r.amount * 1_000_000 - r.base * codes[r.code].rate) <= 5_000_500_000)
      && (Money.Abs(r.base * codes[r.code].rate) < 1_000_000 * Money.LIMIT ==>
            Money.Abs(r.amount * 1_000_000 - r.base * codes[r.code].rate) <= 5_001_000_000)
  {
    hide Money.Multiply, Money.DivHalfUp, Money.Abs, Base, CodesOf;
    CodesAllKnown(nature, lines, codes);
    var ids := CodesOf(lines);
    var j := SortKeepsRows(Rows(lines, ids, codes), i);
    CodesAreOnLines(lines, ids[j]);
    assert ids[j] in ids;
    var base, rate := Base(lines, ids[j]), codes[ids[j]].rate;
    WholeRupiah(base, rate);
    if Money.Abs(base * rate) < 1_000_000 * Money.LIMIT { Money.TaxError(base, rate); }
  }

  lemma WholeRupiah(base: Amount, rate: int)
    ensures Money.Tax(base, rate) % 10_000 == 0
  {
    hide Money.DivHalfUp, Money.Multiply;
    Money.ModOfMultiple(Money.DivHalfUp(Money.Multiply(base, rate), 10_000), 10_000);
  }

  lemma TaxesAreSorted(nature: Nature, lines: seq<TaxLine>, codes: map<Id, TaxCode>)
    requires Valid(nature, lines, codes)
    ensures Known(codes, CodesOf(lines)) && Taxes(nature, lines, codes) == SortByCode(CodeRows(lines, CodesOf(lines), codes))
  {
    hide CodesOf, SortByCode, Valid;
    CodesAllKnown(nature, lines, codes);
  }

  /** And every code on a line has exactly one row. */
  lemma OneRowPerCode(nature: Nature, lines: seq<TaxLine>, codes: map<Id, TaxCode>, id: Id)
    requires Valid(nature, lines, codes)
    ensures var rows := Taxes(nature, lines, codes);
      && (OnSomeLine(lines, id) <==> exists i :: 0 <= i < |rows| && rows[i].code == id)
      && forall i, j | 0 <= i < j < |rows| :: rows[i].code != rows[j].code
  {
    hide Valid, Taxes, CodesOf, SortByCode, CodeRows, OnSomeLine;
    TaxesAreSorted(nature, lines, codes);
    CodesAreOnLines(lines, id);
    CodesDistinct(lines);
    SortedCodes(lines, CodesOf(lines), codes, id);
    SortedApart(lines, CodesOf(lines), codes);
  }

  function CodeRows(lines: seq<TaxLine>, ids: seq<Id>, codes: map<Id, TaxCode>): (rows: seq<TaxRow>)
    requires Known(codes, ids)
    ensures |rows| == |ids| && forall i | 0 <= i < |ids| :: rows[i].code == ids[i]
  {
    Rows(lines, ids, codes)
  }

  lemma SortedCodes(lines: seq<TaxLine>, ids: seq<Id>, codes: map<Id, TaxCode>, id: Id)
    requires Known(codes, ids)
    ensures var rows := SortByCode(CodeRows(lines, ids, codes));
            id in ids <==> exists i :: 0 <= i < |rows| && rows[i].code == id
  {
    hide CodeRows, SortByCode;
    var unsorted := CodeRows(lines, ids, codes);
    var rows := SortByCode(unsorted);
    SortIsSorted(unsorted);
    if id in ids {
      var k :| 0 <= k < |ids| && ids[k] == id;
      assert unsorted[k] in multiset(rows);
      var i :| 0 <= i < |rows| && rows[i] == unsorted[k];
    }
    if i :| 0 <= i < |rows| && rows[i].code == id { var k := SortKeepsRows(unsorted, i); }
  }

  lemma SortedApart(lines: seq<TaxLine>, ids: seq<Id>, codes: map<Id, TaxCode>)
    requires Known(codes, ids) && NoneTwice(ids)
    ensures var rows := SortByCode(CodeRows(lines, ids, codes)); forall i, j | 0 <= i < j < |rows| :: rows[i].code != rows[j].code
  {
    hide CodeRows, SortByCode;
    var unsorted := CodeRows(lines, ids, codes);
    var rows := SortByCode(unsorted);
    SortIsSorted(unsorted);
    assert NoneTwice(unsorted) by {
      forall i, j | 0 <= i < j < |unsorted| ensures unsorted[i] != unsorted[j] { assert ids[i] != ids[j]; }
    }
    PermutedDistinct(unsorted, rows);
    forall i, j | 0 <= i < j < |rows| ensures rows[i].code != rows[j].code {
      var a := SortKeepsRows(unsorted, i);
      var b := SortKeepsRows(unsorted, j);
      assert rows[i] != rows[j] && unsorted[a].code == ids[a] && unsorted[b].code == ids[b];
    }
  }

  /** Each journal line: an item's amount on its own account, on the credit side of a sale and the
      debit side of a purchase; a row's tax on the code's account, on the debit side for input
      PPN and prepaid PPh; last the settlement, opposite to the items. */
  lemma LinesExplained(nature: Nature, account: Id, lines: seq<TaxLine>, rows: seq<TaxRow>)
    requires Exact(nature, account, lines, rows).Calculated?
    ensures var result := Exact(nature, account, lines, rows).calculation;
      && result.taxes == rows && |result.lines| == |lines| + |rows| + 1
      && (forall i | 0 <= i < |lines| :: result.lines[i] ==
            if nature.Sale? then Line(lines[i].account, 0, lines[i].amount) else Line(lines[i].account, lines[i].amount, 0))
      && (forall i | 0 <= i < |rows| :: result.lines[|lines| + i] ==
            if rows[i].kind == PpnInput || rows[i].kind == PphPrepaid
            then Line(rows[i].account, rows[i].amount, 0) else Line(rows[i].account, 0, rows[i].amount))
      && result.lines[|lines| + |rows|] == (if nature.Sale? then Line(account, result.settlement, 0) else Line(account, 0, result.settlement))
      && 0 < result.settlement == result.subtotal + result.taxTotal - result.withheld && result.subtotal == Subtotal(lines)
  {
  }

  // ---- documents -----------------------------------------------------------------------------------

  /** The nature of a document's transaction. */
  function NatureOf(kind: Kind): Nature { if kind.Receivable? then Sale else Purchase }

  /** calculate, asked about these items against the control account, returns this total and
      these journal lines. */
  predicate CalculatedAs(c: Config, kind: Kind, items: seq<TaxLine>, codes: map<Id, TaxCode>, total: Amount, lines: seq<Line>) {
    && Valid(NatureOf(kind), items, codes) && Ordinary(NatureOf(kind), items, codes)
    && var outcome := Exact(NatureOf(kind), ControlAccount(c, kind), items, Taxes(NatureOf(kind), items, codes));
       outcome.Calculated? && outcome.calculation.settlement == total && outcome.calculation.lines == lines
  }

  /** Total and lines come from a tax calculation. */
  ghost predicate Invoiced(c: Config, kind: Kind, total: Amount, lines: seq<Line>) {
    exists items: seq<TaxLine>, codes: map<Id, TaxCode> :: CalculatedAs(c, kind, items, codes, total, lines)
  }

  /** The item and tax lines, all but the settlement line at the end. */
  function ItemLines(lines: seq<Line>): seq<Line> { if lines == [] then [] else lines[..|lines| - 1] }

  /** So a calculated entry settles its document as soon as no item or tax line is on a control
      account. */
  lemma InvoicedSettles(c: Config, kind: Kind, total: Amount, lines: seq<Line>)
    requires Invoiced(c, kind, total, lines) && c.receivable != c.payable && Avoids(c, ItemLines(lines))
    ensures Settles(c, kind, total, lines) && 0 < total
  {
    hide Settles, Ordinary, BaseLines, RowLines;
    var items: seq<TaxLine>, codes: map<Id, TaxCode> :| CalculatedAs(c, kind, items, codes, total, lines);
    var nature := NatureOf(kind);
    var rows := Taxes(nature, items, codes);
    assert ItemLines(lines) == BaseLines(nature, items) + RowLines(rows);
    EntrySettles(c, nature, items, rows);
  }
}
