/**
 * The variables of the basic-strategy equations (createVariables in
 * app/src/main/kotlin/Calculator.kt). The source names them by strings such as
 * "p_A", "est_17_T" and "ehi_s18_A"; here a variable is a structured key, and Name
 * renders the source's string. Name is proved injective (it parses back), so a map
 * keyed by these keys holds exactly what the source's string-keyed map holds.
 */
module Keys {
  import opened Shared
  import opened Wrappers

  /** est: stand, ehi: best of hit and stand, edo: best with doubling, esp: best with splitting. */
  datatype Kind = Est | Ehi | Edo | Esp

  /** A player total (hard, or soft with "s" prefixed) against a dealer up-card. */
  datatype Cell = Cell(soft: bool, total: int, dealer: Denom)

  datatype VarKey =
    | P(denom: Denom)             // probability of drawing this denomination
    | E(kind: Kind, cell: Cell)   // an expected payoff

  function KindStr(k: Kind): string
  {
    match k
    case Est => "est"
    case Ehi => "ehi"
    case Edo => "edo"
    case Esp => "esp"
  }

  /**
   * The cell part of a name and of an equation key: "17_T", "s18_A". It ends in
   * "_" and the dealer's card, and starts with "s" exactly for a soft total.
   */
  function CellName(c: Cell): (s: string)
    ensures |s| >= 3 && s[|s| - 2] == '_' && s[|s| - 1] == c.dealer
    ensures c.soft <==> s[0] == 's'
  {
    (if c.soft then "s" else "") + IntStr(c.total) + "_" + [c.dealer]
  }

  /**
   * A variable's name: "p_" and the card for a probability, three letters of kind,
   * "_" and the cell name for a payoff. Only probability names have length 3.
   */
  function Name(k: VarKey): (s: string)
    ensures k.P? <==> |s| == 3
    ensures k.P? ==> s[..2] == "p_" && s[2] == k.denom
    ensures k.E? ==> |s| >= 7 && s[..3] == KindStr(k.kind) && s[3] == '_' && s[4..] == CellName(k.cell)
  {
    match k
    case P(d) => "p_" + [d]
    case E(kind, c) => KindStr(kind) + "_" + CellName(c)
  }

  function ParseKind(s: string): Option<Kind>
  {
    if s == "est" then Some(Est)
    else if s == "ehi" then Some(Ehi)
    else if s == "edo" then Some(Edo)
    else if s == "esp" then Some(Esp)
    else None
  }

  function ParseCellName(s: string): Option<Cell>
  {
    if |s| < 3 || s[|s| - 2] != '_' || !IsDenom(s[|s| - 1]) then None
    else
      var body := s[..|s| - 2];
      var soft := |body| > 0 && body[0] == 's';
      match ParseInt(if soft then body[1..] else body)
      case Some(n) => Some(Cell(soft, n, s[|s| - 1]))
      case None => None
  }

  function ParseName(s: string): Option<VarKey>
  {
    if |s| == 3 && s[..2] == "p_" && IsDenom(s[2]) then Some(P(s[2]))
    else if |s| >= 4 && s[3] == '_' then
      match ParseKind(s[..3])
      case None => None
      case Some(kind) =>
        match ParseCellName(s[4..])
        case None => None
        case Some(c) => Some(E(kind, c))
    else None
  }

  lemma CellNameRoundTrip(c: Cell)
    ensures ParseCellName(CellName(c)) == Some(c)
  {
    var s := CellName(c);
    var pre := if c.soft then "s" else "";
    IntStrRoundTrip(c.total);
    assert s == (pre + IntStr(c.total)) + ("_" + [c.dealer]);
    var body := s[..|s| - 2];
    assert body == pre + IntStr(c.total);
    if c.soft {
      assert body[1..] == IntStr(c.total);
    } else {
      assert body == IntStr(c.total) && body[0] == s[0];
    }
  }

  /** The name of a variable parses back to it. */
  lemma NameRoundTrip(k: VarKey)
    ensures ParseName(Name(k)) == Some(k)
  {
    var s := Name(k);
    match k
    case P(d) =>
      assert s[..2] == "p_" && s[2] == d;
    case E(kind, c) =>
      CellNameRoundTrip(c);
      assert ParseKind(KindStr(kind)) == Some(kind);
  }

  /** Distinct variables have distinct names. */
  lemma NameInjective(a: VarKey, b: VarKey)
    ensures Name(a) == Name(b) ==> a == b
  {
    NameRoundTrip(a);
    NameRoundTrip(b);
  }

  /**
   * The names createVariables puts in its `variables` map: p_ for every
   * denomination, and est/ehi/edo/esp for hard and soft totals 2..21.
   */
  predicate Declared(k: VarKey)
  {
    k.P? || 2 <= k.cell.total <= 21
  }
}
