/**
 * createVariables and EquationSet of app/src/main/kotlin/Calculator.kt: four maps
 * of equations (stand, hit, double, split), filled for every hard total 2..21 and
 * every soft total 12..21 against every dealer up-card. The source keys the maps by
 * strings such as "17_T" and "s18_A"; here the key is the Cell whose CellName is
 * that string (CellName parses back, so the two keyings hold the same entries).
 */
module Tables {
  import opened Shared
  import opened Expressions
  import opened Keys
  import opened Equations

  /** eqn_st, eqn_hi, eqn_do and eqn_sp. */
  datatype EquationSet = EquationSet(st: map<Cell, Equation>, hi: map<Cell, Equation>, dbl: map<Cell, Equation>, sp: map<Cell, Equation>)

  /** The cells createVariables fills. */
  predicate InTable(c: Cell)
  {
    if c.soft then 12 <= c.total <= 21 else 2 <= c.total <= 21
  }

  /** The stand equation depends on the total only, so a soft cell gets the hard one. */
  function StandOf(c: Cell): Equation
  {
    StandEquation(c.total, c.dealer)
  }

  function HitOf(c: Cell): Equation
    requires InTable(c)
  {
    if c.soft then SoftHitEquation(c.total, c.dealer) else HitEquation(c.total, c.dealer)
  }

  function DoubleOf(c: Cell): Equation
    requires InTable(c)
  {
    if c.soft then SoftDoubleEquation(c.total, c.dealer) else DoubleEquation(c.total, c.dealer)
  }

  function SplitOf(c: Cell): Equation
    requires InTable(c)
  {
    if c.soft then SplitSoftEquation(c.total, c.dealer) else SplitEquation(c.total, c.dealer)
  }

  /** Every map holds exactly the table cells, each with its equation. */
  ghost predicate Built(eqns: EquationSet)
  {
    forall c :: (c in eqns.st <==> InTable(c)) && (c in eqns.hi <==> InTable(c)) &&
                (c in eqns.dbl <==> InTable(c)) && (c in eqns.sp <==> InTable(c)) &&
                (InTable(c) ==> eqns.st[c] == StandOf(c) && eqns.hi[c] == HitOf(c) &&
                                eqns.dbl[c] == DoubleOf(c) && eqns.sp[c] == SplitOf(c))
  }

  /**
   * The position of a cell in createVariables' fill order: up-card by up-card, hard
   * totals 2..21 (0..19) and then soft totals 12..21 (20..29).
   */
  function Rank(c: Cell): int
  {
    DenomIndex(c.dealer) * 30 + (if c.soft then c.total + 8 else c.total - 2)
  }

  lemma RankInjective(a: Cell, b: Cell)
    requires InTable(a) && InTable(b) && Rank(a) == Rank(b)
    ensures a == b
  {
    DenomIndexInjective(a.dealer, b.dealer);
  }

  /** A map holds exactly the table cells ranked below n. */
  ghost predicate DomainBelow(m: map<Cell, Equation>, n: int)
  {
    forall c :: c in m <==> InTable(c) && Rank(c) < n
  }

  /** Each entry of each map is the equation of its cell. */
  ghost predicate Consistent(eqns: EquationSet)
  {
    forall c ::
      (c in eqns.st ==> InTable(c) && eqns.st[c] == StandOf(c)) &&
      (c in eqns.hi ==> InTable(c) && eqns.hi[c] == HitOf(c)) &&
      (c in eqns.dbl ==> InTable(c) && eqns.dbl[c] == DoubleOf(c)) &&
      (c in eqns.sp ==> InTable(c) && eqns.sp[c] == SplitOf(c))
  }

  /** The maps hold exactly the table cells ranked below n, each with its equation. */
  ghost predicate FilledBelow(eqns: EquationSet, n: int)
  {
    DomainBelow(eqns.st, n) && DomainBelow(eqns.hi, n) && DomainBelow(eqns.dbl, n) && DomainBelow(eqns.sp, n) &&
    Consistent(eqns)
  }

  lemma DomainNext(m: map<Cell, Equation>, c: Cell, n: int, v: Equation)
    requires DomainBelow(m, n) && InTable(c) && Rank(c) == n
    ensures DomainBelow(m[c := v], n + 1)
  {
    forall c' | InTable(c') && Rank(c') == n
      ensures c' == c
    {
      RankInjective(c', c);
    }
  }

  /** Storing the equations of the cell ranked n extends the filled prefix by one. */
  lemma PutNext(eqns: EquationSet, c: Cell, n: int, next: EquationSet)
    requires FilledBelow(eqns, n) && InTable(c) && Rank(c) == n
    requires next == EquationSet(eqns.st[c := StandOf(c)], eqns.hi[c := HitOf(c)], eqns.dbl[c := DoubleOf(c)], eqns.sp[c := SplitOf(c)])
    ensures FilledBelow(next, n + 1)
  {
    DomainNext(eqns.st, c, n, StandOf(c));
    DomainNext(eqns.hi, c, n, HitOf(c));
    DomainNext(eqns.dbl, c, n, DoubleOf(c));
    DomainNext(eqns.sp, c, n, SplitOf(c));
    ConsistentNext(eqns, c, next);
  }

  lemma ConsistentNext(eqns: EquationSet, c: Cell, next: EquationSet)
    requires Consistent(eqns) && InTable(c)
    requires next == EquationSet(eqns.st[c := StandOf(c)], eqns.hi[c := HitOf(c)], eqns.dbl[c := DoubleOf(c)], eqns.sp[c := SplitOf(c)])
    ensures Consistent(next)
  {
    forall c': Cell
      ensures (c' in next.st ==> InTable(c') && next.st[c'] == StandOf(c')) &&
              (c' in next.hi ==> InTable(c') && next.hi[c'] == HitOf(c')) &&
              (c' in next.dbl ==> InTable(c') && next.dbl[c'] == DoubleOf(c')) &&
              (c' in next.sp ==> InTable(c') && next.sp[c'] == SplitOf(c'))
    {
      if c' != c {
        assert c' in next.st ==> c' in eqns.st && next.st[c'] == eqns.st[c'];
        assert c' in next.hi ==> c' in eqns.hi && next.hi[c'] == eqns.hi[c'];
        assert c' in next.dbl ==> c' in eqns.dbl && next.dbl[c'] == eqns.dbl[c'];
        assert c' in next.sp ==> c' in eqns.sp && next.sp[c'] == eqns.sp[c'];
      }
    }
  }

  /** Every table cell has a rank below 300. */
  lemma FilledAll(eqns: EquationSet)
    requires FilledBelow(eqns, 300)
    ensures Built(eqns)
  {
    forall c | InTable(c)
      ensures Rank(c) < 300
    {
      assert DenomIndex(c.dealer) <= 9;
    }
  }

  /** The four builder calls for one cell, stored under its key. */
  method PutCell(eqns: EquationSet, c: Cell) returns (next: EquationSet)
    requires InTable(c)
    ensures next == EquationSet(eqns.st[c := StandOf(c)], eqns.hi[c := HitOf(c)], eqns.dbl[c := DoubleOf(c)], eqns.sp[c := SplitOf(c)])
  {
    var dealerShowing := Card(c.dealer);
    var st := ComputeStand(c.total, dealerShowing);
    var hi, dbl, sp;
    if c.soft {
      hi := ComputeSoftHit(c.total, dealerShowing);
      dbl := ComputeSoftDouble(c.total, dealerShowing);
      sp := ComputeSplitSoft(c.total, dealerShowing);
    } else {
      hi := ComputeHit(c.total, dealerShowing);
      dbl := ComputeDouble(c.total, dealerShowing);
      sp := ComputeSplit(c.total, dealerShowing);
    }
    next := EquationSet(eqns.st[c := st], eqns.hi[c := hi], eqns.dbl[c := dbl], eqns.sp[c := sp]);
  }

  /** createVariables: hard totals 2..21, then soft totals 12..21, for each up-card in turn. */
  method CreateVariables() returns (eqns: EquationSet)
    ensures Built(eqns)
  {
    eqns := EquationSet(map[], map[], map[], map[]);
    AllDenomsFacts();
    for i := 0 to |AllCards|
      invariant FilledBelow(eqns, 30 * i)
    {
      var dealerShowing := AllCards[i];
      assert DenomIndex(dealerShowing.denom) == i;
      eqns := FillHard(eqns, dealerShowing);
      eqns := FillSoft(eqns, dealerShowing);
    }
    FilledAll(eqns);
  }

  /** The inner loop over hard totals 2..21 for one up-card. */
  method FillHard(eqns0: EquationSet, dealerShowing: Card) returns (eqns: EquationSet)
    requires FilledBelow(eqns0, 30 * DenomIndex(dealerShowing.denom))
    ensures FilledBelow(eqns, 30 * DenomIndex(dealerShowing.denom) + 20)
  {
    var base := 30 * DenomIndex(dealerShowing.denom);
    eqns := eqns0;
    for playerShowing := 2 to 22
      invariant FilledBelow(eqns, base + playerShowing - 2)
    {
      var c := Cell(false, playerShowing, dealerShowing.denom);
      var next := PutCell(eqns, c);
      PutNext(eqns, c, base + playerShowing - 2, next);
      eqns := next;
    }
  }

  /** The inner loop over soft totals 12..21 for one up-card. */
  method FillSoft(eqns0: EquationSet, dealerShowing: Card) returns (eqns: EquationSet)
    requires FilledBelow(eqns0, 30 * DenomIndex(dealerShowing.denom) + 20)
    ensures FilledBelow(eqns, 30 * DenomIndex(dealerShowing.denom) + 30)
  {
    var base := 30 * DenomIndex(dealerShowing.denom);
    eqns := eqns0;
    for playerShowing := 12 to 22
      invariant FilledBelow(eqns, base + playerShowing + 8)
    {
      var c := Cell(true, playerShowing, dealerShowing.denom);
      var next := PutCell(eqns, c);
      PutNext(eqns, c, base + playerShowing + 8, next);
      eqns := next;
    }
  }

  /**
   * Every variable an equation of the table mentions is one createVariables
   * declares, so every `variables[...] as Expression` in the builders finds its
   * variable.
   */
  lemma AllLookupsDeclared(c: Cell)
    requires InTable(c)
    ensures forall k :: k in Vars(StandOf(c)) ==> Declared(k)
    ensures forall k :: k in Vars(HitOf(c)) ==> Declared(k)
    ensures forall k :: k in Vars(DoubleOf(c)) ==> Declared(k)
    ensures forall k :: k in Vars(SplitOf(c)) ==> Declared(k)
  {
    StandOnlyOdds(c.total, c.dealer);
    if c.soft {
      SoftHitVars(c.total, c.dealer);
      SoftDoubleVars(c.total, c.dealer);
      SplitSoftVars(c.total, c.dealer);
    } else {
      HitVars(c.total, c.dealer);
      DoubleVars(c.total, c.dealer);
      SplitVars(c.total, c.dealer);
    }
  }
}
