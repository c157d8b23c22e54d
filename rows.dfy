/**
 * rowsFromShoe and its local addRow of app/src/main/kotlin/Calculator.kt: the
 * basic-strategy table read off the values evaluateShoe stores. Each row is a
 * name and one decision per up-card: " D " (double), " H " (hit) or " S " (stand)
 * for a total, " Y " or " N " (split or not) for a pair.
 *
 * As written, every lookup uses the hard key of the row's total: the soft rows
 * s21..s13 show the decisions of hard 21..13, and the A/A row reads the cell of
 * hard 12, which is the 6/6 pair.
 */
module Rows {
  import opened Wrappers
  import opened Shared
  import opened Keys
  import opened Tables
  import opened Evaluator
  import opened Shoes

  type Row = seq<string>

  /** The values a decision at the hard total p against up-card d reads. */
  predicate Readable(values: Values, p: int, d: Denom, split: bool)
  {
    var c := Cell(false, p, d);
    if split then E(Esp, c) in values && E(Edo, c) in values
    else E(Est, c) in values && E(Ehi, c) in values && E(Edo, c) in values
  }

  /** addRow's choice for one up-card, always under the hard key of p. */
  function Decision(values: Values, p: int, d: Denom, split: bool): string
    requires Readable(values, p, d, split)
  {
    var c := Cell(false, p, d);
    if split then
      if values[E(Esp, c)] > values[E(Edo, c)] then " Y " else " N "
    else if values[E(Edo, c)] > values[E(Ehi, c)] then " D "
    else if values[E(Ehi, c)] > values[E(Est, c)] then " H "
    else " S "
  }

  /** The row addRow appends: the name, then one decision per up-card in all_denoms order. */
  function RowOf(values: Values, p: int, name: string, split: bool): (row: Row)
    requires forall d: Denom :: Readable(values, p, d, split)
    ensures |row| == 1 + |AllDenoms| && row[0] == name
    ensures forall j :: 0 <= j < |AllDenoms| ==> row[j + 1] == Decision(values, p, AllDenoms[j], split)
  {
    [name] + seq(|AllDenoms|, j requires 0 <= j < |AllDenoms| => Decision(values, p, AllDenoms[j], split))
  }

  /** With est <= ehi <= edo, the decision names the best choice: D when doubling gains, H when hitting gains, else S. */
  lemma DecisionIsBest(values: Values, p: int, d: Denom)
    requires Chain(values, Cell(false, p, d))
    ensures var c := Cell(false, p, d);
            var est, ehi, edo := values[E(Est, c)], values[E(Ehi, c)], values[E(Edo, c)];
            (Decision(values, p, d, false) == " D " <==> edo > ehi) &&
            (Decision(values, p, d, false) == " H " <==> edo == ehi && ehi > est) &&
            (Decision(values, p, d, false) == " S " <==> est == ehi && ehi == edo)
  {
  }

  /** With edo <= esp, Y exactly when splitting gains. */
  lemma SplitDecisionIsBest(values: Values, p: int, d: Denom)
    requires SplitChain(values, Cell(false, p, d))
    ensures var c := Cell(false, p, d);
            (Decision(values, p, d, true) == " Y " <==> values[E(Esp, c)] > values[E(Edo, c)]) &&
            (Decision(values, p, d, true) == " N " <==> values[E(Esp, c)] == values[E(Edo, c)])
  {
  }

  /** The total whose hard key a pair row reads: 12 for A/A, twice the card's value otherwise. */
  function PairTotal(d: Denom): (p: int)
    ensures d != 'A' ==> p == 2 * CardValue(Card(d), false)
    ensures 4 <= p <= 20 && p % 2 == 0
  {
    if d == 'A' then 12 else 2 * CardValue(Card(d), false)
  }

  function PairName(d: Denom): string
  {
    if d == 'A' then "A/A" else [d] + "/" + [d]
  }

  /** Every value the table reads is stored: hard totals 3..21, and the even pairs 4..20. */
  ghost predicate Complete(values: Values)
  {
    (forall p, d :: 3 <= p <= 21 ==> Readable(values, p, d, false)) &&
    (forall p, d :: 4 <= p <= 20 && p % 2 == 0 ==> Readable(values, p, d, true))
  }

  /** What evaluateShoe stores is complete. */
  lemma SolvedIsComplete(values: Values)
    requires forall c :: Main(c) ==> Chain(values, c)
    requires forall c :: SplitCell(c) ==> SplitChain(values, c)
    ensures Complete(values)
  {
    forall p, d | 3 <= p <= 21
      ensures Readable(values, p, d, false)
    {
      assert Chain(values, Cell(false, p, d));
    }
    forall p, d | 4 <= p <= 20 && p % 2 == 0
      ensures Readable(values, p, d, true)
    {
      assert SplitChain(values, Cell(false, p, d));
    }
  }

  /** addRow: the decisions for one total against every up-card. */
  method AddRow(values: Values, playerShowing: int, playerName: string, split: bool) returns (row: Row)
    requires forall d: Denom :: Readable(values, playerShowing, d, split)
    ensures row == RowOf(values, playerShowing, playerName, split)
  {
    row := [playerName];
    AllDenomsFacts();
    for j := 0 to |AllDenoms|
      invariant |row| == j + 1 && row[0] == playerName
      invariant forall i :: 0 <= i < j ==> row[i + 1] == Decision(values, playerShowing, AllDenoms[i], split)
    {
      var dealerShowing := AllDenoms[j];
      var c := Cell(false, playerShowing, dealerShowing);
      assert Readable(values, playerShowing, dealerShowing, split);
      var decision;
      if split {
        if values[E(Esp, c)] > values[E(Edo, c)] {
          decision := " Y ";
        } else {
          decision := " N ";
        }
      } else {
        if values[E(Edo, c)] > values[E(Ehi, c)] {
          decision := " D ";
        } else if values[E(Ehi, c)] > values[E(Est, c)] {
          decision := " H ";
        } else {
          decision := " S ";
        }
      }
      row := row + [decision];
    }
  }

  /** The row of hard total p, named by the total. */
  function HardRow(values: Values, p: int): Row
    requires Complete(values) && 3 <= p <= 21
  {
    RowOf(values, p, IntStr(p), false)
  }

  /** The row named "s" and the soft total p, read under the hard key of p. */
  function SoftRow(values: Values, p: int): Row
    requires Complete(values) && 13 <= p <= 21
  {
    RowOf(values, p, "s" + IntStr(p), false)
  }

  /** The pair row of a denomination. */
  function PairRow(values: Values, d: Denom): Row
    requires Complete(values)
  {
    RowOf(values, PairTotal(d), PairName(d), true)
  }

  /** The hard rows 21 down to 3 lead the table. */
  ghost predicate HardRows(values: Values, rows: seq<Row>)
    requires Complete(values)
  {
    |rows| >= 19 && forall i :: 0 <= i < 19 ==> rows[i] == HardRow(values, 21 - i)
  }

  /** The soft rows 21 down to 13 follow. */
  ghost predicate SoftRows(values: Values, rows: seq<Row>)
    requires Complete(values)
  {
    |rows| >= 28 && forall i :: 19 <= i < 28 ==> rows[i] == SoftRow(values, 40 - i)
  }

  /** The pair rows close the table, in all_denoms order. */
  ghost predicate PairRows(values: Values, rows: seq<Row>)
    requires Complete(values)
  {
    AllDenomsFacts();
    |rows| == 38 && forall i :: 28 <= i < 38 ==> rows[i] == PairRow(values, AllDenoms[i - 28])
  }

  /** The table rowsFromShoe returns for the given values. */
  ghost predicate IsTable(values: Values, rows: seq<Row>)
  {
    Complete(values) && HardRows(values, rows) && SoftRows(values, rows) && PairRows(values, rows)
  }

  /** A row's decisions do not depend on its name. */
  lemma SameDecisions(values: Values, p: int, name1: string, name2: string, split: bool)
    requires forall d: Denom :: Readable(values, p, d, split)
    ensures RowOf(values, p, name1, split)[1..] == RowOf(values, p, name2, split)[1..]
  {
    var r1, r2 := RowOf(values, p, name1, split), RowOf(values, p, name2, split);
    forall j | 0 <= j < |AllDenoms|
      ensures r1[1..][j] == r2[1..][j]
    {
      assert r1[1..][j] == r1[j + 1] && r2[1..][j] == r2[j + 1];
    }
  }

  /**
   * As written, a soft row repeats the decisions of the hard row of the same total,
   * and the A/A row those of the 6/6 row.
   */
  lemma TableRepeats(values: Values, rows: seq<Row>)
    requires IsTable(values, rows)
    ensures |rows| == 38 && forall i :: 0 <= i < 38 ==> |rows[i]| == 1 + |AllDenoms|
    ensures forall i :: 19 <= i < 28 ==> rows[i][1..] == rows[i - 19][1..]
    ensures rows[28][1..] == rows[33][1..]
  {
    AllDenomsFacts();
    forall i | 0 <= i < 38
      ensures |rows[i]| == 1 + |AllDenoms|
    {
      if i < 19 {
        assert rows[i] == HardRow(values, 21 - i);
      } else if i < 28 {
        assert rows[i] == SoftRow(values, 40 - i);
      } else {
        assert rows[i] == PairRow(values, AllDenoms[i - 28]);
      }
    }
    forall i | 19 <= i < 28
      ensures rows[i][1..] == rows[i - 19][1..]
    {
      assert rows[i] == SoftRow(values, 40 - i);
      assert rows[i - 19] == HardRow(values, 40 - i);
      SameDecisions(values, 40 - i, "s" + IntStr(40 - i), IntStr(40 - i), false);
    }
    assert rows[28] == PairRow(values, 'A') == RowOf(values, 12, "A/A", true);
    assert CardValue(Card('6'), false) == 6;
    assert PairName('6') == "6/6";
    assert rows[33] == PairRow(values, '6') == RowOf(values, 12, "6/6", true);
    SameDecisions(values, 12, "A/A", "6/6", true);
  }

  /**
   * The rows of rowsFromShoe once the values are known: hard 21..3, soft 21..13
   * (read under the hard key), then one pair row per denomination. Every
   * lookup finds its value.
   */
  method RowsFromValues(values: Values) returns (rows: seq<Row>)
    requires Complete(values)
    ensures IsTable(values, rows)
  {
    rows := AddHardRows(values);
    rows := AddSoftRows(values, rows);
    rows := AddPairRows(values, rows);
  }

  /** The first loop of rowsFromShoe: hard totals 21 down to 3. */
  method AddHardRows(values: Values) returns (rows: seq<Row>)
    requires Complete(values)
    ensures |rows| == 19 && HardRows(values, rows)
  {
    rows := [];
    var playerShowing := 21;
    while playerShowing >= 3
      invariant 2 <= playerShowing <= 21 && |rows| == 21 - playerShowing
      invariant forall i :: 0 <= i < |rows| ==> rows[i] == HardRow(values, 21 - i)
    {
      var row := AddRow(values, playerShowing, IntStr(playerShowing), false);
      assert row == HardRow(values, playerShowing);
      rows := rows + [row];
      playerShowing := playerShowing - 1;
    }
  }

  /** The second loop: soft totals 21 down to 13, looked up under the hard key. */
  method AddSoftRows(values: Values, rows0: seq<Row>) returns (rows: seq<Row>)
    requires Complete(values) && |rows0| == 19 && HardRows(values, rows0)
    ensures |rows| == 28 && HardRows(values, rows) && SoftRows(values, rows)
  {
    rows := rows0;
    var playerShowing := 21;
    while playerShowing >= 13
      invariant 12 <= playerShowing <= 21 && |rows| == 40 - playerShowing
      invariant HardRows(values, rows)
      invariant forall i :: 19 <= i < |rows| ==> rows[i] == SoftRow(values, 40 - i)
    {
      var row := AddRow(values, playerShowing, "s" + IntStr(playerShowing), false);
      assert row == SoftRow(values, playerShowing);
      HardRowsAppend(values, rows, row);
      rows := rows + [row];
      playerShowing := playerShowing - 1;
    }
  }

  /** The third loop: one pair per denomination; A/A under hard 12, any other under twice its value. */
  method AddPairRows(values: Values, rows0: seq<Row>) returns (rows: seq<Row>)
    requires Complete(values) && |rows0| == 28 && HardRows(values, rows0) && SoftRows(values, rows0)
    ensures IsTable(values, rows)
  {
    rows := rows0;
    AllDenomsFacts();
    for k := 0 to |AllDenoms|
      invariant |rows| == 28 + k
      invariant HardRows(values, rows) && SoftRows(values, rows)
      invariant forall i :: 28 <= i < |rows| ==> rows[i] == PairRow(values, AllDenoms[i - 28])
    {
      var split := AllDenoms[k];
      var row;
      if split == 'A' {
        row := AddRow(values, 12, "A/A", true);
      } else {
        var playerShowing := 2 * CardValue(Card(split), false);
        row := AddRow(values, playerShowing, [split] + "/" + [split], true);
      }
      HardRowsAppend(values, rows, row);
      SoftRowsAppend(values, rows, row);
      rows := rows + [row];
    }
  }

  lemma HardRowsAppend(values: Values, rows: seq<Row>, row: Row)
    requires Complete(values) && HardRows(values, rows)
    ensures HardRows(values, rows + [row])
  {
    assert forall i :: 0 <= i < 19 ==> (rows + [row])[i] == rows[i];
  }

  lemma SoftRowsAppend(values: Values, rows: seq<Row>, row: Row)
    requires Complete(values) && SoftRows(values, rows)
    ensures SoftRows(values, rows + [row])
  {
    assert forall i :: 19 <= i < 28 ==> (rows + [row])[i] == rows[i];
  }

  /**
   * rowsFromShoe: evaluate the shoe against the equation set, then read the table.
   * The table is the one read from the values evaluateShoe stores: the shoe's odds,
   * each cell's est <= ehi <= edo and each pair's edo <= esp, and on the table
   * createVariables builds, each cell's equations solved. On that table the only
   * failures left are those of the arithmetic itself (a division by zero, or an
   * empty sum).
   */
  method RowsFromShoe(shoe: Shoe, eqns: EquationSet) returns (r: Result<seq<Row>, SolveError>, ghost values: Values)
    requires shoe.Valid() && shoe.Total() > 0
    ensures r.Ok? ==> IsTable(values, r.value)
    ensures r.Ok? ==> forall d: Denom :: P(d) in values && values[P(d)] == shoe.Odds()[d]
    ensures r.Ok? ==> (forall c :: Main(c) ==> Chain(values, c)) && (forall c :: SplitCell(c) ==> SplitChain(values, c))
    ensures Built(eqns) && r.Ok? ==> forall c :: Main(c) ==> CellSolved(values, eqns, c)
    ensures Built(eqns) && r.Ok? ==> forall c :: SplitCell(c) ==> SplitSolved(values, eqns, c)
    ensures r.Ok? ==> |r.value| == 38 && forall i :: 0 <= i < 38 ==> |r.value[i]| == 1 + |AllDenoms|
    ensures r.Ok? ==> forall i :: 19 <= i < 28 ==> r.value[i][1..] == r.value[i - 19][1..]
    ensures r.Ok? ==> r.value[28][1..] == r.value[33][1..]
    ensures Built(eqns) ==> r.Ok? || (r.error.Eval? && !r.error.err.Unbound?)
  {
    var solved := EvaluateShoe(shoe, eqns);
    if solved.Err? {
      values := map[];
      r := Err(solved.error);
      return;
    }
    values := solved.value;
    SolvedIsComplete(solved.value);
    var rows := RowsFromValues(solved.value);
    TableRepeats(solved.value, rows);
    r := Ok(rows);
  }

  /**
   * On the table read from ordered values, every hard-total cell names the best
   * choice (D exactly when doubling gains, H when hitting gains, S otherwise) and
   * every pair cell says Y exactly when splitting gains.
   */
  lemma TableIsBest(values: Values, rows: seq<Row>)
    requires IsTable(values, rows)
    requires forall c :: Main(c) ==> Chain(values, c)
    requires forall c :: SplitCell(c) ==> SplitChain(values, c)
    ensures forall i, j :: 0 <= i < 19 && 0 <= j < |AllDenoms| ==>
              var c := Cell(false, 21 - i, AllDenoms[j]);
              Chain(values, c) &&
              (rows[i][j + 1] == " D " <==> values[E(Edo, c)] > values[E(Ehi, c)]) &&
              (rows[i][j + 1] == " H " <==> values[E(Edo, c)] == values[E(Ehi, c)] > values[E(Est, c)]) &&
              (rows[i][j + 1] == " S " <==> values[E(Est, c)] == values[E(Ehi, c)] == values[E(Edo, c)])
    ensures forall i, j :: 28 <= i < 38 && 0 <= j < |AllDenoms| ==>
              var c := Cell(false, PairTotal(AllDenoms[i - 28]), AllDenoms[j]);
              SplitChain(values, c) &&
              (rows[i][j + 1] == " Y " <==> values[E(Esp, c)] > values[E(Edo, c)]) &&
              (rows[i][j + 1] == " N " <==> values[E(Esp, c)] == values[E(Edo, c)])
  {
    AllDenomsFacts();
    forall i, j | 0 <= i < 19 && 0 <= j < |AllDenoms|
      ensures var c := Cell(false, 21 - i, AllDenoms[j]);
              Chain(values, c) &&
              (rows[i][j + 1] == " D " <==> values[E(Edo, c)] > values[E(Ehi, c)]) &&
              (rows[i][j + 1] == " H " <==> values[E(Edo, c)] == values[E(Ehi, c)] > values[E(Est, c)]) &&
              (rows[i][j + 1] == " S " <==> values[E(Est, c)] == values[E(Ehi, c)] == values[E(Edo, c)])
    {
      var c := Cell(false, 21 - i, AllDenoms[j]);
      assert Main(c);
      assert rows[i] == HardRow(values, 21 - i);
      DecisionIsBest(values, 21 - i, AllDenoms[j]);
    }
    forall i, j | 28 <= i < 38 && 0 <= j < |AllDenoms|
      ensures var c := Cell(false, PairTotal(AllDenoms[i - 28]), AllDenoms[j]);
              SplitChain(values, c) &&
              (rows[i][j + 1] == " Y " <==> values[E(Esp, c)] > values[E(Edo, c)]) &&
              (rows[i][j + 1] == " N " <==> values[E(Esp, c)] == values[E(Edo, c)])
    {
      var c := Cell(false, PairTotal(AllDenoms[i - 28]), AllDenoms[j]);
      assert SplitCell(c);
      assert rows[i] == PairRow(values, AllDenoms[i - 28]);
      SplitDecisionIsBest(values, PairTotal(AllDenoms[i - 28]), AllDenoms[j]);
    }
  }
}
