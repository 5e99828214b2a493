/** What journal lines do to the AR and AP control accounts. */
module ControlSide {
  import opened Ledger

  function Sign(kind: Kind): int { if kind.Receivable? then 1 else -1 }

  function Other(kind: Kind): Kind { if kind.Receivable? then Payable else Receivable }

  ghost function Control(c: Config, kind: Kind): iset<Id> { iset{ControlAccount(c, kind)} }

  predicate Avoids(c: Config, lines: seq<Line>) {
    forall i | 0 <= i < |lines| :: lines[i].account != c.receivable && lines[i].account != c.payable
  }

  /** The entry of a document: its total on the control account of its kind, nothing on the other. */
  ghost predicate Settles(c: Config, kind: Kind, total: Amount, lines: seq<Line>) {
    Net(lines, Control(c, kind)) == Sign(kind) * total && Net(lines, Control(c, Other(kind))) == 0
  }

  lemma {:induction false} AvoidedNet(c: Config, lines: seq<Line>, kind: Kind)
    requires Avoids(c, lines)
    ensures Net(lines, Control(c, kind)) == 0
  {
    if lines != [] { AvoidedNet(c, lines[..|lines| - 1], kind); }
  }

  lemma SettledNet(c: Config, kind: Kind, total: Amount, lines: seq<Line>, k: Kind)
    requires Settles(c, kind, total, lines)
    ensures Sign(k) * Net(lines, Control(c, k)) == if k == kind then total else 0
  {
    assert k == kind || k == Other(kind);
  }
}
