/**
 * evaluateShoe of app/src/main/kotlin/Calculator.kt: given the chances of the next
 * card, evaluate the equations of every cell in a fixed order (hard totals 21 down
 * to 12, soft totals 21 down to 12, hard totals 11 down to 3, then the pairs),
 * storing for each cell the payoff of standing (est), the best of hitting and
 * standing (ehi) and the best with doubling (edo), and for the pairs the best with
 * splitting (esp).
 *
 * The order is what makes this work: every variable an equation reads belongs to a
 * cell evaluated earlier, so no lookup fails (no Unbound error), and a stored value
 * never changes afterwards, so every stored value satisfies its cell's equation in
 * the final table.
 */
module Evaluator {
  import opened Wrappers
  import opened Shared
  import opened Expressions
  import opened Keys
  import opened Equations
  import opened Tables
  import opened Shoes

  type Values = map<VarKey, real>

  /** An equation that does not evaluate, or a `!!` on an equation missing from the set. */
  datatype SolveError = Eval(err: EvalError<VarKey>) | MissingEquation(cell: Cell)

  /** The larger of two values, the first one on a tie: `if (a > b) a else b`. */
  function Max(a: real, b: real): (m: real)
    ensures m >= a && m >= b && (m == a || m == b)
  {
    if a > b then a else b
  }

  /** The cells whose est, ehi and edo evaluateShoe computes: hard 3..21 and soft 12..21. */
  predicate Main(c: Cell)
  {
    if c.soft then 12 <= c.total <= 21 else 3 <= c.total <= 21
  }

  /** The pairs evaluateShoe splits: even hard totals 4..20, and soft 12 (two Aces). */
  predicate SplitCell(c: Cell)
  {
    if c.soft then c.total == 12 else 4 <= c.total <= 20 && c.total % 2 == 0
  }

  /** When a total is reached: hard 21..12 are stages 0..9, soft 21..12 stages 10..19, hard 11..3 stages 20..28. */
  function Stage(c: Cell): int
  {
    if !c.soft && c.total >= 12 then 21 - c.total else 31 - c.total
  }

  /** The position of an up-card in all_denoms (A, 2..9, T). */
  function Column(d: Denom): int
  {
    if d == 'A' then 0 else if d == 'T' then 9 else (d as int) - ('1' as int)
  }

  lemma ColumnOf(j: int)
    requires 0 <= j < 10
    ensures Column(AllDenoms[j]) == j
  {
  }

  lemma ColumnInjective(d: Denom, e: Denom)
    ensures 0 <= Column(d) <= 9
    ensures Column(d) == Column(e) ==> d == e
  {
  }

  /** When a main cell is reached: stage by stage, up-card by up-card within a stage. */
  function Order(c: Cell): int
  {
    Stage(c) * 10 + Column(c.dealer)
  }

  /** Distinct main cells are reached at distinct times. */
  lemma OrderInjective(a: Cell, b: Cell)
    requires Main(a) && Main(b) && Order(a) == Order(b)
    ensures a == b
  {
    ColumnInjective(a.dealer, b.dealer);
    ColumnInjective(b.dealer, a.dealer);
  }

  /** When a pair is reached: hard 4, 6, .., 20, then soft 12, up-card by up-card within each. */
  function SplitOrder(c: Cell): int
  {
    (if c.soft then 90 else (c.total - 4) * 5) + Column(c.dealer)
  }

  function CellKeys(c: Cell): set<VarKey>
  {
    {E(Est, c), E(Ehi, c), E(Edo, c)}
  }

  /** `next` is `values` with the given keys set and nothing else changed. */
  predicate Extends(values: Values, next: Values, keys: set<VarKey>)
  {
    next.Keys == values.Keys + keys && forall k :: k in values && k !in keys ==> next[k] == values[k]
  }

  /** The stored values of a main cell are present and ordered est <= ehi <= edo. */
  predicate Chain(values: Values, c: Cell)
  {
    E(Est, c) in values && E(Ehi, c) in values && E(Edo, c) in values &&
    values[E(Est, c)] <= values[E(Ehi, c)] <= values[E(Edo, c)]
  }

  /** The stored values of a pair are present and ordered edo <= esp. */
  predicate SplitChain(values: Values, c: Cell)
  {
    E(Edo, c) in values && E(Esp, c) in values && values[E(Edo, c)] <= values[E(Esp, c)]
  }

  /**
   * The stored values of a main cell are what its equations give: est is the stand
   * equation's value, ehi the better of est and the hit equation's value, edo the
   * double equation's value when it beats both the raw hit value and est, else ehi.
   */
  predicate CellSolved(values: Values, eqns: EquationSet, c: Cell)
  {
    c in eqns.st && c in eqns.hi && c in eqns.dbl &&
    E(Est, c) in values && E(Ehi, c) in values && E(Edo, c) in values &&
    var est := values[E(Est, c)];
    var hi := Evaluate(eqns.hi[c], values);
    var dbl := Evaluate(eqns.dbl[c], values);
    Evaluate(eqns.st[c], values) == Ok(est) &&
    hi.Ok? && values[E(Ehi, c)] == Max(est, hi.value) &&
    dbl.Ok? && values[E(Edo, c)] == (if dbl.value > hi.value && dbl.value > est then dbl.value else values[E(Ehi, c)])
  }

  /** The stored esp of a pair is the better of its edo and the split equation's value. */
  predicate SplitSolved(values: Values, eqns: EquationSet, c: Cell)
  {
    c in eqns.sp && E(Edo, c) in values && E(Esp, c) in values &&
    var sp := Evaluate(eqns.sp[c], values);
    sp.Ok? && values[E(Esp, c)] == Max(values[E(Edo, c)], sp.value)
  }

  /** The equations of a cell do not read the cell's own stored values. */
  predicate SelfFree(eqns: EquationSet, c: Cell)
  {
    c in eqns.st && c in eqns.hi && c in eqns.dbl ==>
      CellKeys(c) !! (Vars(eqns.st[c]) + Vars(eqns.hi[c]) + Vars(eqns.dbl[c]))
  }

  /** Every variable the equations of a cell read is bound. */
  predicate ReadsBound(values: Values, eqns: EquationSet, c: Cell)
  {
    (c in eqns.st ==> Vars(eqns.st[c]) <= values.Keys) &&
    (c in eqns.hi ==> Vars(eqns.hi[c]) <= values.Keys) &&
    (c in eqns.dbl ==> Vars(eqns.dbl[c]) <= values.Keys)
  }

  predicate IsUnbound(r: Result<Values, SolveError>)
  {
    r.Err? && r.error.Eval? && r.error.err.Unbound?
  }

  // ===========================================================================
  // The dependency order

  /** A variable whose value is stored before the cell c is reached. */
  predicate Earlier(k: VarKey, c: Cell)
  {
    k.P? || (k.kind != Esp && Main(k.cell) && Stage(k.cell) < Stage(c))
  }

  /** The stand, hit and double equations of a main cell read only earlier variables. */
  lemma EquationsReadEarlier(c: Cell)
    requires Main(c)
    ensures forall k :: k in Vars(StandOf(c)) ==> Earlier(k, c)
    ensures forall k :: k in Vars(HitOf(c)) ==> Earlier(k, c)
    ensures forall k :: k in Vars(DoubleOf(c)) ==> Earlier(k, c)
  {
    StandOnlyOdds(c.total, c.dealer);
    if c.soft {
      SoftHitVars(c.total, c.dealer);
      SoftDoubleVars(c.total, c.dealer);
    } else {
      HitVars(c.total, c.dealer);
      DoubleVars(c.total, c.dealer);
    }
  }

  /** The split equation of a pair reads only p_ variables and ehi variables of main cells. */
  lemma SplitReadsMain(c: Cell)
    requires SplitCell(c)
    ensures forall k :: k in Vars(SplitOf(c)) ==> k.P? || (k.kind == Ehi && Main(k.cell))
  {
    if c.soft {
      SplitSoftVars(c.total, c.dealer);
    } else {
      SplitVars(c.total, c.dealer);
    }
  }

  // ===========================================================================
  // One cell

  /**
   * The body of evaluateShoe's main loops for one cell: evaluate the stand
   * equation and store est, evaluate the hit equation and store ehi, evaluate the
   * double equation and store edo.
   */
  method SolveCell(values: Values, eqns: EquationSet, c: Cell) returns (r: Result<Values, SolveError>)
    ensures r.Ok? ==> Extends(values, r.value, CellKeys(c)) && Chain(r.value, c)
    ensures r.Ok? && SelfFree(eqns, c) ==> CellSolved(r.value, eqns, c)
    ensures r.Err? && r.error.MissingEquation? ==> !(c in eqns.st && c in eqns.hi && c in eqns.dbl)
    ensures ReadsBound(values, eqns, c) ==> !IsUnbound(r)
  {
    if c !in eqns.st {
      return Err(MissingEquation(c));
    }
    var est := Evaluate(eqns.st[c], values);
    if est.Err? {
      return Err(Eval(est.error));
    }
    var v1 := values[E(Est, c) := est.value];
    if c !in eqns.hi {
      return Err(MissingEquation(c));
    }
    var ehi := Evaluate(eqns.hi[c], v1);
    if ehi.Err? {
      return Err(Eval(ehi.error));
    }
    var v2 := v1[E(Ehi, c) := Max(est.value, ehi.value)];
    if c !in eqns.dbl {
      return Err(MissingEquation(c));
    }
    var edo := Evaluate(eqns.dbl[c], v2);
    if edo.Err? {
      return Err(Eval(edo.error));
    }
    var v3 := v2[E(Edo, c) := if edo.value > ehi.value && edo.value > est.value then edo.value else v2[E(Ehi, c)]];
    if SelfFree(eqns, c) {
      EvaluateFrame(eqns.st[c], values, v3);
      EvaluateFrame(eqns.hi[c], v1, v3);
      EvaluateFrame(eqns.dbl[c], v2, v3);
    }
    r := Ok(v3);
  }

  /** The body of evaluateShoe's split loops for one pair: store the better of edo and the split equation. */
  method SolveSplit(values: Values, eqns: EquationSet, c: Cell) returns (r: Result<Values, SolveError>)
    requires E(Edo, c) in values
    ensures r.Ok? ==> Extends(values, r.value, {E(Esp, c)}) && SplitChain(r.value, c)
    ensures r.Ok? && (c in eqns.sp ==> E(Esp, c) !in Vars(eqns.sp[c])) ==> SplitSolved(r.value, eqns, c)
    ensures r.Err? && r.error.MissingEquation? ==> c !in eqns.sp
    ensures (c in eqns.sp ==> Vars(eqns.sp[c]) <= values.Keys) ==> !IsUnbound(r)
  {
    var edo := values[E(Edo, c)];
    if c !in eqns.sp {
      return Err(MissingEquation(c));
    }
    var esp := Evaluate(eqns.sp[c], values);
    if esp.Err? {
      return Err(Eval(esp.error));
    }
    var next := values[E(Esp, c) := Max(edo, esp.value)];
    if E(Esp, c) !in Vars(eqns.sp[c]) {
      EvaluateFrame(eqns.sp[c], values, next);
    }
    r := Ok(next);
  }

  /**
   * What the dependency order gives an equation set: every main cell has its
   * three equations and they read only earlier variables; every pair has its
   * split equation and it reads only p_ variables and ehi variables of main cells.
   */
  ghost predicate Ordered(eqns: EquationSet)
  {
    (forall c :: Main(c) ==> c in eqns.st && c in eqns.hi && c in eqns.dbl) &&
    (forall c, k :: Main(c) && c in eqns.st && k in Vars(eqns.st[c]) ==> Earlier(k, c)) &&
    (forall c, k :: Main(c) && c in eqns.hi && k in Vars(eqns.hi[c]) ==> Earlier(k, c)) &&
    (forall c, k :: Main(c) && c in eqns.dbl && k in Vars(eqns.dbl[c]) ==> Earlier(k, c)) &&
    (forall c :: SplitCell(c) ==> c in eqns.sp) &&
    (forall c, k :: SplitCell(c) && c in eqns.sp && k in Vars(eqns.sp[c]) ==> k.P? || (k.kind == Ehi && Main(k.cell)))
  }

  /** The table createVariables builds is ordered. */
  lemma BuiltOrdered(eqns: EquationSet)
    requires Built(eqns)
    ensures Ordered(eqns)
  {
    forall c | Main(c)
      ensures forall k :: k in Vars(eqns.st[c]) + Vars(eqns.hi[c]) + Vars(eqns.dbl[c]) ==> Earlier(k, c)
    {
      EquationsReadEarlier(c);
    }
    forall c | SplitCell(c)
      ensures forall k :: k in Vars(eqns.sp[c]) ==> k.P? || (k.kind == Ehi && Main(k.cell))
    {
      SplitReadsMain(c);
    }
  }

  // ===========================================================================
  // The main phases: hard 21..12, soft 21..12, hard 11..3

  /** The chances of the next card are stored as p_ variables. */
  ghost predicate OddsStored(values: Values, odds: map<Denom, real>)
  {
    forall d: Denom :: P(d) in values && d in odds && values[P(d)] == odds[d]
  }

  ghost predicate ChainsBelow(values: Values, n: int)
  {
    forall c :: Main(c) && Order(c) < n ==> Chain(values, c)
  }

  ghost predicate SolvedBelow(values: Values, eqns: EquationSet, n: int)
  {
    forall c :: Main(c) && Order(c) < n ==> CellSolved(values, eqns, c)
  }

  /** What evaluateShoe has established once the main cells ordered below n are done. */
  ghost predicate MainInv(values: Values, eqns: EquationSet, odds: map<Denom, real>, n: int)
  {
    OddsStored(values, odds) && ChainsBelow(values, n) && (Ordered(eqns) ==> SolvedBelow(values, eqns, n))
  }

  /** Setting keys that a solved cell's equations do not read keeps it solved. */
  lemma CellSolvedFrame(values: Values, next: Values, eqns: EquationSet, c: Cell, keys: set<VarKey>)
    requires CellSolved(values, eqns, c) && Extends(values, next, keys) && CellKeys(c) !! keys
    requires forall k :: k in keys ==> k !in Vars(eqns.st[c]) && k !in Vars(eqns.hi[c]) && k !in Vars(eqns.dbl[c])
    ensures CellSolved(next, eqns, c)
  {
    EvaluateFrame(eqns.st[c], values, next);
    EvaluateFrame(eqns.hi[c], values, next);
    EvaluateFrame(eqns.dbl[c], values, next);
  }

  /** Solving the cell ordered n extends the solved prefix by one. */
  lemma MainStep(values: Values, next: Values, eqns: EquationSet, odds: map<Denom, real>, c: Cell, n: int)
    requires MainInv(values, eqns, odds, n) && Main(c) && Order(c) == n
    requires Extends(values, next, CellKeys(c)) && Chain(next, c)
    requires Ordered(eqns) ==> CellSolved(next, eqns, c)
    ensures MainInv(next, eqns, odds, n + 1)
  {
    ChainsStep(values, next, c, n);
    if Ordered(eqns) {
      SolvedStep(values, next, eqns, c, n);
    }
  }

  lemma ChainsStep(values: Values, next: Values, c: Cell, n: int)
    requires ChainsBelow(values, n) && Main(c) && Order(c) == n
    requires Extends(values, next, CellKeys(c)) && Chain(next, c)
    ensures ChainsBelow(next, n + 1)
  {
    forall c' | Main(c') && Order(c') < n + 1
      ensures Chain(next, c')
    {
      if Order(c') == n {
        OrderInjective(c', c);
      }
    }
  }

  lemma SolvedStep(values: Values, next: Values, eqns: EquationSet, c: Cell, n: int)
    requires Ordered(eqns) && SolvedBelow(values, eqns, n) && Main(c) && Order(c) == n
    requires Extends(values, next, CellKeys(c)) && CellSolved(next, eqns, c)
    ensures SolvedBelow(next, eqns, n + 1)
  {
    forall c' | Main(c') && Order(c') < n + 1
      ensures CellSolved(next, eqns, c')
    {
      if Order(c') == n {
        OrderInjective(c', c);
      } else {
        assert Stage(c') <= Stage(c);
        CellSolvedFrame(values, next, eqns, c', CellKeys(c));
      }
    }
  }

  /** When the cell ordered n is reached, everything its equations read is bound, and none of it is its own. */
  lemma Ready(values: Values, eqns: EquationSet, odds: map<Denom, real>, c: Cell, n: int)
    requires MainInv(values, eqns, odds, n) && Main(c) && Order(c) == n && Ordered(eqns)
    ensures ReadsBound(values, eqns, c) && SelfFree(eqns, c)
  {
    forall k | k in Vars(eqns.st[c]) + Vars(eqns.hi[c]) + Vars(eqns.dbl[c])
      ensures k in values && k !in CellKeys(c)
    {
      assert Earlier(k, c);
      if k.E? {
        assert Order(k.cell) < n;
        assert Chain(values, k.cell);
      }
    }
  }

  /** One stage: the cells of one total against every up-card. */
  method SolveStage(values0: Values, eqns: EquationSet, ghost odds: map<Denom, real>, soft: bool, p: int, ghost s: int)
    returns (r: Result<Values, SolveError>)
    requires Main(Cell(soft, p, 'A')) && s == Stage(Cell(soft, p, 'A'))
    requires MainInv(values0, eqns, odds, s * 10)
    ensures r.Ok? ==> MainInv(r.value, eqns, odds, s * 10 + 10)
    ensures Ordered(eqns) ==> r.Ok? || (r.error.Eval? && !r.error.err.Unbound?)
  {
    var values := values0;
    AllDenomsFacts();
    for j := 0 to |AllDenoms|
      invariant MainInv(values, eqns, odds, s * 10 + j)
    {
      var c := Cell(soft, p, AllDenoms[j]);
      assert Order(c) == s * 10 + j;
      var res := SolveOne(values, eqns, odds, c, s * 10 + j);
      if res.Err? {
        return res;
      }
      values := res.value;
    }
    r := Ok(values);
  }

  /** One main cell, with the invariant carried across. */
  method SolveOne(values: Values, eqns: EquationSet, ghost odds: map<Denom, real>, c: Cell, ghost n: int)
    returns (r: Result<Values, SolveError>)
    requires MainInv(values, eqns, odds, n) && Main(c) && Order(c) == n
    ensures r.Ok? ==> MainInv(r.value, eqns, odds, n + 1)
    ensures Ordered(eqns) ==> r.Ok? || (r.error.Eval? && !r.error.err.Unbound?)
  {
    if Ordered(eqns) {
      Ready(values, eqns, odds, c, n);
    }
    r := SolveCell(values, eqns, c);
    if r.Ok? {
      MainStep(values, r.value, eqns, odds, c, n);
    }
  }

  /** One main phase: the totals from high down to low, one stage each. */
  method SolveTotals(values0: Values, eqns: EquationSet, ghost odds: map<Denom, real>, soft: bool, high: int, low: int,
                     ghost n0: int, ghost n1: int)
    returns (r: Result<Values, SolveError>)
    requires (12 <= low <= high <= 21) || (!soft && 3 <= low <= high <= 11)
    requires n0 == Stage(Cell(soft, high, 'A')) * 10 && n1 == Stage(Cell(soft, low, 'A')) * 10 + 10
    requires MainInv(values0, eqns, odds, n0)
    ensures r.Ok? ==> MainInv(r.value, eqns, odds, n1)
    ensures Ordered(eqns) ==> r.Ok? || (r.error.Eval? && !r.error.err.Unbound?)
  {
    ghost var base := if !soft && high >= 12 then 21 else 31;
    var values := values0;
    var playerShowing := high;
    while playerShowing >= low
      invariant low - 1 <= playerShowing <= high
      invariant MainInv(values, eqns, odds, (base - playerShowing) * 10)
    {
      var res := SolveStage(values, eqns, odds, soft, playerShowing, base - playerShowing);
      if res.Err? {
        return res;
      }
      values := res.value;
      playerShowing := playerShowing - 1;
    }
    r := Ok(values);
  }

  // ===========================================================================
  // The split phase: hard 4, 6, .., 20, then soft 12

  ghost predicate SplitChainsBelow(values: Values, m: int)
  {
    forall c :: SplitCell(c) && SplitOrder(c) < m ==> SplitChain(values, c)
  }

  ghost predicate SplitSolvedBelow(values: Values, eqns: EquationSet, m: int)
  {
    forall c :: SplitCell(c) && SplitOrder(c) < m ==> SplitSolved(values, eqns, c)
  }

  /** What evaluateShoe has established once the pairs ordered below m are done. */
  ghost predicate SplitInv(values: Values, eqns: EquationSet, odds: map<Denom, real>, m: int)
  {
    MainInv(values, eqns, odds, 290) && SplitChainsBelow(values, m) &&
    (Ordered(eqns) ==> SplitSolvedBelow(values, eqns, m))
  }

  /** Every main cell is ordered below 290. */
  lemma MainOrdered(c: Cell)
    requires Main(c)
    ensures 0 <= Order(c) < 290
  {
    ColumnInjective(c.dealer, c.dealer);
  }

  /** Distinct pairs are reached at distinct times. */
  lemma SplitOrderInjective(a: Cell, b: Cell)
    requires SplitCell(a) && SplitCell(b) && SplitOrder(a) == SplitOrder(b)
    ensures a == b
  {
    ColumnInjective(a.dealer, b.dealer);
    ColumnInjective(b.dealer, a.dealer);
  }

  /** Storing an esp value keeps every main cell as it was. */
  lemma MainInvKeep(values: Values, next: Values, eqns: EquationSet, odds: map<Denom, real>, c: Cell)
    requires MainInv(values, eqns, odds, 290) && Extends(values, next, {E(Esp, c)})
    ensures MainInv(next, eqns, odds, 290)
  {
    if Ordered(eqns) {
      forall c' | Main(c') && Order(c') < 290
        ensures CellSolved(next, eqns, c')
      {
        CellSolvedFrame(values, next, eqns, c', {E(Esp, c)});
      }
    }
  }

  /** Solving the pair ordered m extends the solved prefix of pairs by one. */
  lemma SplitStep(values: Values, next: Values, eqns: EquationSet, odds: map<Denom, real>, c: Cell, m: int)
    requires SplitInv(values, eqns, odds, m) && SplitCell(c) && SplitOrder(c) == m
    requires Extends(values, next, {E(Esp, c)}) && SplitChain(next, c)
    requires Ordered(eqns) ==> SplitSolved(next, eqns, c)
    ensures SplitInv(next, eqns, odds, m + 1)
  {
    MainInvKeep(values, next, eqns, odds, c);
    SplitChainsStep(values, next, c, m);
    if Ordered(eqns) {
      SplitSolvedStep(values, next, eqns, c, m);
    }
  }

  lemma SplitChainsStep(values: Values, next: Values, c: Cell, m: int)
    requires SplitChainsBelow(values, m) && SplitCell(c) && SplitOrder(c) == m
    requires Extends(values, next, {E(Esp, c)}) && SplitChain(next, c)
    ensures SplitChainsBelow(next, m + 1)
  {
    forall c' | SplitCell(c') && SplitOrder(c') < m + 1
      ensures SplitChain(next, c')
    {
      if SplitOrder(c') == m {
        SplitOrderInjective(c', c);
      }
    }
  }

  lemma SplitSolvedStep(values: Values, next: Values, eqns: EquationSet, c: Cell, m: int)
    requires Ordered(eqns) && SplitSolvedBelow(values, eqns, m) && SplitCell(c) && SplitOrder(c) == m
    requires Extends(values, next, {E(Esp, c)}) && SplitSolved(next, eqns, c)
    ensures SplitSolvedBelow(next, eqns, m + 1)
  {
    forall c' | SplitCell(c') && SplitOrder(c') < m + 1
      ensures SplitSolved(next, eqns, c')
    {
      if SplitOrder(c') == m {
        SplitOrderInjective(c', c);
      } else {
        EvaluateFrame(eqns.sp[c'], values, next);
      }
    }
  }

  /** One pair: its edo is stored, and everything its split equation reads is bound. */
  method SolvePair(values: Values, eqns: EquationSet, ghost odds: map<Denom, real>, c: Cell, ghost m: int)
    returns (r: Result<Values, SolveError>)
    requires SplitInv(values, eqns, odds, m) && SplitCell(c) && SplitOrder(c) == m
    ensures r.Ok? ==> SplitInv(r.value, eqns, odds, m + 1)
    ensures Ordered(eqns) ==> r.Ok? || (r.error.Eval? && !r.error.err.Unbound?)
  {
    MainOrdered(c);
    assert Chain(values, c);
    if Ordered(eqns) {
      forall k | k in Vars(eqns.sp[c]) && k.E?
        ensures k in values
      {
        MainOrdered(k.cell);
        assert Chain(values, k.cell);
      }
    }
    r := SolveSplit(values, eqns, c);
    if r.Ok? {
      SplitStep(values, r.value, eqns, odds, c, m);
    }
  }

  /** The pairs of one total against every up-card. */
  method SolvePairs(values0: Values, eqns: EquationSet, ghost odds: map<Denom, real>, soft: bool, p: int, ghost m: int)
    returns (r: Result<Values, SolveError>)
    requires SplitCell(Cell(soft, p, 'A')) && m == SplitOrder(Cell(soft, p, 'A'))
    requires SplitInv(values0, eqns, odds, m)
    ensures r.Ok? ==> SplitInv(r.value, eqns, odds, m + 10)
    ensures Ordered(eqns) ==> r.Ok? || (r.error.Eval? && !r.error.err.Unbound?)
  {
    var values := values0;
    AllDenomsFacts();
    for j := 0 to |AllDenoms|
      invariant SplitInv(values, eqns, odds, m + j)
    {
      var c := Cell(soft, p, AllDenoms[j]);
      ColumnOf(j);
      var res := SolvePair(values, eqns, odds, c, m + j);
      if res.Err? {
        return res;
      }
      values := res.value;
    }
    r := Ok(values);
  }

  /** The split phase: hard pairs 4, 6, .., 20, then the two Aces at soft 12. */
  method SolveSplits(values0: Values, eqns: EquationSet, ghost odds: map<Denom, real>) returns (r: Result<Values, SolveError>)
    requires SplitInv(values0, eqns, odds, 0)
    ensures r.Ok? ==> SplitInv(r.value, eqns, odds, 100)
    ensures Ordered(eqns) ==> r.Ok? || (r.error.Eval? && !r.error.err.Unbound?)
  {
    var values := values0;
    var playerShowing := 4;
    ghost var m := 0;
    while playerShowing <= 20
      invariant 4 <= playerShowing <= 22 && playerShowing % 2 == 0 && m == (playerShowing - 4) * 5
      invariant SplitInv(values, eqns, odds, m)
    {
      r := SolvePairs(values, eqns, odds, false, playerShowing, m);
      if r.Err? {
        return;
      }
      values := r.value;
      playerShowing := playerShowing + 2;
      m := m + 10;
    }
    r := SolvePairs(values, eqns, odds, true, 12, m);
  }

  // ===========================================================================
  // evaluateShoe

  /**
   * evaluateShoe: the chances from the shoe, then the three main phases, then the
   * pairs. The stored values are ordered est <= ehi <= edo (<= esp for a pair).
   * On the table createVariables builds, no variable is read before it is stored
   * and no equation is missing, and every stored value satisfies its cell's
   * equation in the final table.
   */
  method EvaluateShoe(shoe: Shoe, eqns: EquationSet) returns (r: Result<Values, SolveError>)
    requires shoe.Valid() && shoe.Total() > 0
    ensures r.Ok? ==> forall d: Denom :: P(d) in r.value && r.value[P(d)] == shoe.Odds()[d]
    ensures r.Ok? ==> forall c :: Main(c) ==> Chain(r.value, c)
    ensures r.Ok? ==> forall c :: SplitCell(c) ==> SplitChain(r.value, c)
    ensures Built(eqns) ==> r.Ok? || (r.error.Eval? && !r.error.err.Unbound?)
    ensures Built(eqns) && r.Ok? ==> forall c :: Main(c) ==> CellSolved(r.value, eqns, c)
    ensures Built(eqns) && r.Ok? ==> forall c :: SplitCell(c) ==> SplitSolved(r.value, eqns, c)
  {
    if Built(eqns) {
      BuiltOrdered(eqns);
    }
    r := Solve(shoe.Odds(), eqns);
  }

  /** evaluateShoe once the chances are taken from the shoe. */
  method Solve(odds: map<Denom, real>, eqns: EquationSet) returns (r: Result<Values, SolveError>)
    requires forall d: Denom :: d in odds
    ensures r.Ok? ==> forall d: Denom :: P(d) in r.value && r.value[P(d)] == odds[d]
    ensures r.Ok? ==> forall c :: Main(c) ==> Chain(r.value, c)
    ensures r.Ok? ==> forall c :: SplitCell(c) ==> SplitChain(r.value, c)
    ensures Ordered(eqns) ==> r.Ok? || (r.error.Eval? && !r.error.err.Unbound?)
    ensures Ordered(eqns) && r.Ok? ==> forall c :: Main(c) ==> CellSolved(r.value, eqns, c)
    ensures Ordered(eqns) && r.Ok? ==> forall c :: SplitCell(c) ==> SplitSolved(r.value, eqns, c)
  {
    var values: Values := map[];
    AllDenomsFacts();
    for i := 0 to |AllDenoms|
      invariant forall j :: 0 <= j < i ==> P(AllDenoms[j]) in values && values[P(AllDenoms[j])] == odds[AllDenoms[j]]
    {
      values := values[P(AllDenoms[i]) := odds[AllDenoms[i]]];
    }
    Start(values, eqns, odds);
    r := SolveTotals(values, eqns, odds, false, 21, 12, 0, 100);
    if r.Err? {
      return;
    }
    r := SolveTotals(r.value, eqns, odds, true, 21, 12, 100, 200);
    if r.Err? {
      return;
    }
    r := SolveTotals(r.value, eqns, odds, false, 11, 3, 200, 290);
    if r.Err? {
      return;
    }
    r := SolveSplits(r.value, eqns, odds);
    if r.Ok? {
      Finish(r.value, eqns, odds);
    }
  }

  lemma Start(values: Values, eqns: EquationSet, odds: map<Denom, real>)
    requires forall d: Denom :: d in odds
    requires forall j :: 0 <= j < |AllDenoms| ==> P(AllDenoms[j]) in values && values[P(AllDenoms[j])] == odds[AllDenoms[j]]
    ensures MainInv(values, eqns, odds, 0)
  {
    AllDenomsFacts();
    forall d: Denom
      ensures P(d) in values && values[P(d)] == odds[d]
    {
      var j := DenomIndex(d);
    }
    forall c | Main(c)
      ensures Order(c) >= 0
    {
      MainOrdered(c);
    }
  }

  lemma Finish(values: Values, eqns: EquationSet, odds: map<Denom, real>)
    requires SplitInv(values, eqns, odds, 100)
    ensures forall d: Denom :: P(d) in values && values[P(d)] == odds[d]
    ensures forall c :: Main(c) ==> Chain(values, c)
    ensures forall c :: SplitCell(c) ==> SplitChain(values, c)
    ensures Ordered(eqns) ==> forall c :: Main(c) ==> CellSolved(values, eqns, c)
    ensures Ordered(eqns) ==> forall c :: SplitCell(c) ==> SplitSolved(values, eqns, c)
  {
    forall c | Main(c)
      ensures Order(c) < 290
    {
      MainOrdered(c);
    }
    forall c | SplitCell(c)
      ensures SplitOrder(c) < 100
    {
      ColumnInjective(c.dealer, c.dealer);
    }
  }
}
