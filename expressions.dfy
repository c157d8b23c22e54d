/**
 * The symbolic expression tree of the calculator (the sealed class Expression
 * and its subclasses in app/src/main/kotlin/Calculator.kt). The tree is generic
 * in the type of variable names; the calculator instantiates it with structured
 * keys whose string rendering is proved injective elsewhere.
 *
 * Values are real numbers. Where the JVM would produce Infinity or NaN from a
 * division by zero, evaluation reports DivisionByZero; where Kotlin throws
 * (an unbound variable, `reduce` over an empty list) evaluation reports an error.
 */
module Expressions {
  import opened Wrappers

  datatype Op = Add | Subtract | Multiply | Divide

  datatype Expr<V> =
    | Product(terms: seq<Expr<V>>)
    | Sum(terms: seq<Expr<V>>)
    | Variable(name: V)
    | Constant(value: real)
    | Binary(left: Expr<V>, right: Expr<V>, op: Op)

  datatype EvalError<V> =
    | Unbound(name: V)   // IllegalArgumentException "Variable ... not found"
    | EmptyReduction     // `reduce` on an empty list of terms
    | DivisionByZero     // the JVM would return an infinity or NaN

  /** The operator overloads `+`, `-`, `*`, `/` of Expression build a binary node. */
  function Plus<V>(a: Expr<V>, b: Expr<V>): Expr<V> { Binary(a, b, Add) }
  function Minus<V>(a: Expr<V>, b: Expr<V>): Expr<V> { Binary(a, b, Subtract) }
  function Times<V>(a: Expr<V>, b: Expr<V>): Expr<V> { Binary(a, b, Multiply) }
  function Over<V>(a: Expr<V>, b: Expr<V>): Expr<V> { Binary(a, b, Divide) }

  function Apply<V>(op: Op, a: real, b: real): Result<real, EvalError<V>>
  {
    match op
    case Add => Ok(a + b)
    case Subtract => Ok(a - b)
    case Multiply => Ok(a * b)
    case Divide => if b == 0.0 then Err(DivisionByZero) else Ok(a / b)
  }

  /** Left fold of a non-empty list of values with `+` (isSum) or `*`. */
  function Reduce(vals: seq<real>, isSum: bool): real
    requires vals != []
  {
    if |vals| == 1 then vals[0]
    else
      var acc := Reduce(vals[..|vals| - 1], isSum);
      if isSum then acc + vals[|vals| - 1] else acc * vals[|vals| - 1]
  }

  /**
   * `evaluate`: every term is evaluated, left to right, before the reduction. An
   * unbound-variable error names a variable the expression mentions and the
   * bindings lack, so with every variable bound it cannot occur.
   */
  function Evaluate<V>(e: Expr<V>, m: map<V, real>): (r: Result<real, EvalError<V>>)
    ensures r.Err? && r.error.Unbound? ==> r.error.name in Vars(e) && r.error.name !in m
    decreases e
  {
    match e
    case Product(ts) => ReduceTerms(ts, m, false)
    case Sum(ts) => ReduceTerms(ts, m, true)
    case Variable(n) => if n in m then Ok(m[n]) else Err(Unbound(n))
    case Constant(c) => Ok(c)
    case Binary(l, r, op) =>
      var lv := Evaluate(l, m);
      if lv.Err? then Err(lv.error)
      else
        var rv := Evaluate(r, m);
        if rv.Err? then Err(rv.error)
        else Apply(op, lv.value, rv.value)
  }

  function ReduceTerms<V>(ts: seq<Expr<V>>, m: map<V, real>, isSum: bool): (r: Result<real, EvalError<V>>)
    ensures r.Err? && r.error.Unbound? ==> r.error.name in VarsOfTerms(ts) && r.error.name !in m
    decreases ts, 1
  {
    var vs := EvaluateTerms(ts, m);
    if vs.Err? then Err(vs.error)
    else if vs.value == [] then Err(EmptyReduction)
    else Ok(Reduce(vs.value, isSum))
  }

  /** `terms.map { it.evaluate(variables) }`: the first failing term, in order, decides the error. */
  function EvaluateTerms<V>(ts: seq<Expr<V>>, m: map<V, real>): (r: Result<seq<real>, EvalError<V>>)
    ensures r.Err? && r.error.Unbound? ==> r.error.name in VarsOfTerms(ts) && r.error.name !in m
    ensures r.Ok? ==> |r.value| == |ts|
    decreases ts, 0
  {
    if ts == [] then Ok([])
    else
      var init := EvaluateTerms(ts[..|ts| - 1], m);
      if init.Err? then Err(init.error)
      else
        var last := Evaluate(ts[|ts| - 1], m);
        if last.Err? then Err(last.error) else Ok(init.value + [last.value])
  }

  /** The variables an expression mentions. */
  function Vars<V>(e: Expr<V>): set<V>
    decreases e
  {
    match e
    case Product(ts) => VarsOfTerms(ts)
    case Sum(ts) => VarsOfTerms(ts)
    case Variable(n) => {n}
    case Constant(_) => {}
    case Binary(l, r, _) => Vars(l) + Vars(r)
  }

  function VarsOfTerms<V>(ts: seq<Expr<V>>): set<V>
    decreases ts
  {
    if ts == [] then {} else VarsOfTerms(ts[..|ts| - 1]) + Vars(ts[|ts| - 1])
  }

  /** A variable of a list of terms is a variable of one of them. */
  lemma {:induction false} VarsOfTermsIn<V>(ts: seq<Expr<V>>, v: V) returns (i: nat)
    requires v in VarsOfTerms(ts)
    ensures i < |ts| && v in Vars(ts[i])
  {
    if v in Vars(ts[|ts| - 1]) {
      i := |ts| - 1;
    } else {
      i := VarsOfTermsIn(ts[..|ts| - 1], v);
    }
  }

  function Symbol(op: Op): string
  {
    match op
    case Add => "+"
    case Subtract => "-"
    case Multiply => "*"
    case Divide => "/"
  }

  /**
   * `print`: a binary node is parenthesised, a Sum or Product is its terms joined
   * by " + " or " * " without parentheses. How a name and a constant are written
   * is a parameter (Double.toString is not modelled).
   */
  function Print<V>(e: Expr<V>, showName: V -> string, showConst: real -> string): (s: string)
    ensures e.Binary? ==> |s| >= 5 && s[0] == '(' && s[|s| - 1] == ')'
    decreases e
  {
    match e
    case Product(ts) => Join(ts, " * ", showName, showConst)
    case Sum(ts) => Join(ts, " + ", showName, showConst)
    case Variable(n) => showName(n)
    case Constant(c) => showConst(c)
    case Binary(l, r, op) =>
      "(" + Print(l, showName, showConst) + " " + Symbol(op) + " " + Print(r, showName, showConst) + ")"
  }

  function Join<V>(ts: seq<Expr<V>>, sep: string, showName: V -> string, showConst: real -> string): string
    decreases ts
  {
    if ts == [] then ""
    else if |ts| == 1 then Print(ts[0], showName, showConst)
    else Join(ts[..|ts| - 1], sep, showName, showConst) + sep + Print(ts[|ts| - 1], showName, showConst)
  }

  /** The number of binary nodes of an expression. */
  function Binaries<V>(e: Expr<V>): nat
    decreases e
  {
    match e
    case Product(ts) => BinariesOfTerms(ts)
    case Sum(ts) => BinariesOfTerms(ts)
    case Variable(_) => 0
    case Constant(_) => 0
    case Binary(l, r, _) => 1 + Binaries(l) + Binaries(r)
  }

  function BinariesOfTerms<V>(ts: seq<Expr<V>>): nat
    decreases ts
  {
    if ts == [] then 0 else BinariesOfTerms(ts[..|ts| - 1]) + Binaries(ts[|ts| - 1])
  }

  /** A name or constant rendering that writes no parentheses. */
  ghost predicate ParenFree<V(!new)>(showName: V -> string, showConst: real -> string)
  {
    (forall n :: '(' !in showName(n) && ')' !in showName(n)) &&
    (forall c :: '(' !in showConst(c) && ')' !in showConst(c))
  }

  /**
   * When names and constants print without parentheses, a printed expression has
   * exactly one opening and one closing parenthesis per binary node: only binary
   * nodes are parenthesised.
   */
  lemma {:induction false} PrintParens<V(!new)>(e: Expr<V>, showName: V -> string, showConst: real -> string)
    requires ParenFree(showName, showConst)
    ensures multiset(Print(e, showName, showConst))['('] == Binaries(e)
    ensures multiset(Print(e, showName, showConst))[')'] == Binaries(e)
    decreases e
  {
    match e
    case Product(ts) => JoinParens(ts, " * ", showName, showConst);
    case Sum(ts) => JoinParens(ts, " + ", showName, showConst);
    case Variable(n) => NoParens(showName(n));
    case Constant(c) => NoParens(showConst(c));
    case Binary(l, r, op) =>
      PrintParens(l, showName, showConst);
      PrintParens(r, showName, showConst);
      BinaryParens(l, r, op, showName, showConst);
  }

  lemma NoParens(s: string)
    requires '(' !in s && ')' !in s
    ensures multiset(s)['('] == 0 && multiset(s)[')'] == 0
  {
  }

  lemma BinaryParens<V>(l: Expr<V>, r: Expr<V>, op: Op, showName: V -> string, showConst: real -> string)
    ensures var s, pl, pr := Print(Binary(l, r, op), showName, showConst), Print(l, showName, showConst), Print(r, showName, showConst);
            multiset(s)['('] == multiset(pl)['('] + multiset(pr)['('] + 1 &&
            multiset(s)[')'] == multiset(pl)[')'] + multiset(pr)[')'] + 1
  {
    PrintBinary(l, r, op, showName, showConst);
    SpacedSymbol(op);
    WrapParens(Print(l, showName, showConst), " " + Symbol(op) + " ", Print(r, showName, showConst));
  }

  /** A binary node prints as its two operands around its operator's symbol, in parentheses. */
  lemma PrintBinary<V>(l: Expr<V>, r: Expr<V>, op: Op, showName: V -> string, showConst: real -> string)
    ensures Print(Binary(l, r, op), showName, showConst) ==
            "(" + Print(l, showName, showConst) + (" " + Symbol(op) + " ") + Print(r, showName, showConst) + ")"
  {
    var pl, pr, sym := Print(l, showName, showConst), Print(r, showName, showConst), Symbol(op);
    assert "(" + pl + " " + sym + " " + pr + ")" == "(" + pl + (" " + sym + " ") + pr + ")";
  }

  lemma SpacedSymbol(op: Op)
    ensures var mid := " " + Symbol(op) + " ";
            '(' !in mid && ')' !in mid
  {
    var mid := " " + Symbol(op) + " ";
    assert |mid| == 3 && mid[0] == ' ' && mid[2] == ' ' && mid[1] in "+-*/";
  }

  lemma WrapParens(pl: string, mid: string, pr: string)
    requires '(' !in mid && ')' !in mid
    ensures var s := "(" + pl + mid + pr + ")";
            multiset(s)['('] == multiset(pl)['('] + multiset(pr)['('] + 1 &&
            multiset(s)[')'] == multiset(pl)[')'] + multiset(pr)[')'] + 1
  {
    assert multiset(mid)['('] == 0 && multiset(mid)[')'] == 0;
  }

  lemma {:induction false} JoinParens<V(!new)>(ts: seq<Expr<V>>, sep: string, showName: V -> string, showConst: real -> string)
    requires ParenFree(showName, showConst)
    requires sep == " * " || sep == " + "
    ensures multiset(Join(ts, sep, showName, showConst))['('] == BinariesOfTerms(ts)
    ensures multiset(Join(ts, sep, showName, showConst))[')'] == BinariesOfTerms(ts)
    decreases ts
  {
    if |ts| == 1 {
      PrintParens(ts[0], showName, showConst);
      JoinOne(ts, sep, showName, showConst);
    } else if |ts| > 1 {
      var init, last := ts[..|ts| - 1], ts[|ts| - 1];
      JoinParens(init, sep, showName, showConst);
      PrintParens(last, showName, showConst);
      JoinSnoc(ts, sep, showName, showConst);
      SepParens(Join(init, sep, showName, showConst), sep, Print(last, showName, showConst));
    }
  }

  lemma JoinSnoc<V>(ts: seq<Expr<V>>, sep: string, showName: V -> string, showConst: real -> string)
    requires |ts| > 1
    ensures Join(ts, sep, showName, showConst) ==
            Join(ts[..|ts| - 1], sep, showName, showConst) + sep + Print(ts[|ts| - 1], showName, showConst)
    ensures BinariesOfTerms(ts) == BinariesOfTerms(ts[..|ts| - 1]) + Binaries(ts[|ts| - 1])
  {
  }

  lemma JoinOne<V>(ts: seq<Expr<V>>, sep: string, showName: V -> string, showConst: real -> string)
    requires |ts| == 1
    ensures Join(ts, sep, showName, showConst) == Print(ts[0], showName, showConst)
    ensures BinariesOfTerms(ts) == Binaries(ts[0])
  {
    assert ts[..0] == [];
  }

  lemma SepParens(a: string, sep: string, b: string)
    requires sep == " * " || sep == " + "
    ensures multiset(a + sep + b)['('] == multiset(a)['('] + multiset(b)['(']
    ensures multiset(a + sep + b)[')'] == multiset(a)[')'] + multiset(b)[')']
  {
    assert multiset(sep)['('] == 0 && multiset(sep)[')'] == 0;
  }

  /**
   * The usage example beside the expression classes: (x + 10) - (y / 5) prints as
   * ((x + 10.0) - (y / 5.0)) and evaluates to 8 at x = 2, y = 20.
   */
  lemma UsageExample(showConst: real -> string)
    requires showConst(10.0) == "10.0" && showConst(5.0) == "5.0"
    ensures var e := Minus(Plus(Variable('x'), Constant(10.0)), Over(Variable('y'), Constant(5.0)));
            Print(e, ShowName, showConst) == "((x + 10.0) - (y / 5.0))" &&
            Evaluate(e, map['x' := 2.0, 'y' := 20.0]) == Ok(8.0)
  {
    var l := Plus(Variable('x'), Constant(10.0));
    var r := Over(Variable('y'), Constant(5.0));
    OperandPrint(Variable('x'), Constant(10.0), Add, ShowName, showConst, "x", "10.0");
    OperandPrint(Variable('y'), Constant(5.0), Divide, ShowName, showConst, "y", "5.0");
    PrintBinary(l, r, Subtract, ShowName, showConst);
    UsageExampleText();
    UsageExampleValue();
  }

  lemma OperandPrint<V>(a: Expr<V>, b: Expr<V>, op: Op, showName: V -> string, showConst: real -> string, pa: string, pb: string)
    requires Print(a, showName, showConst) == pa && Print(b, showName, showConst) == pb
    ensures Print(Binary(a, b, op), showName, showConst) == "(" + pa + (" " + Symbol(op) + " ") + pb + ")"
  {
    PrintBinary(a, b, op, showName, showConst);
  }

  lemma UsageExampleText()
    ensures var pl := "(" + "x" + (" " + Symbol(Add) + " ") + "10.0" + ")";
            var pr := "(" + "y" + (" " + Symbol(Divide) + " ") + "5.0" + ")";
            "(" + pl + (" " + Symbol(Subtract) + " ") + pr + ")" == "((x + 10.0) - (y / 5.0))"
  {
    assert "(" + "x" + (" " + Symbol(Add) + " ") + "10.0" + ")" == "(x + 10.0)";
    assert "(" + "y" + (" " + Symbol(Divide) + " ") + "5.0" + ")" == "(y / 5.0)";
    assert " " + Symbol(Subtract) + " " == " - ";
    assert "(" + "(x + 10.0)" == "((x + 10.0)";
    assert "((x + 10.0)" + " - " == "((x + 10.0) - ";
    assert "((x + 10.0) - " + "(y / 5.0)" == "((x + 10.0) - (y / 5.0)";
  }

  lemma UsageExampleValue()
    ensures Evaluate(Minus(Plus(Variable('x'), Constant(10.0)), Over(Variable('y'), Constant(5.0))),
                     map['x' := 2.0, 'y' := 20.0]) == Ok(8.0)
  {
    var m := map['x' := 2.0, 'y' := 20.0];
    assert Evaluate(Plus(Variable('x'), Constant(10.0)), m) == Ok(12.0);
    assert Evaluate(Over(Variable('y'), Constant(5.0)), m) == Ok(4.0);
  }

  /** `Variable.evaluate` returns the bound value and fails exactly when the name is unbound. */
  lemma VariableEvaluates<V>(n: V, m: map<V, real>)
    ensures n in m ==> Evaluate(Variable(n), m) == Ok(m[n])
    ensures n !in m ==> Evaluate(Variable(n), m) == Err(Unbound(n))
  {
  }

  /** `Constant.evaluate` ignores the bindings. */
  lemma ConstantEvaluates<V>(c: real, m: map<V, real>, m': map<V, real>)
    ensures Evaluate(Constant(c), m) == Evaluate(Constant(c), m') == Ok(c)
  {
  }

  /** A successful evaluation found every variable the expression mentions. */
  lemma {:induction false} OkBindsVars<V>(e: Expr<V>, m: map<V, real>)
    requires Evaluate(e, m).Ok?
    ensures Vars(e) <= m.Keys
    decreases e
  {
    match e
    case Product(ts) => OkBindsVarsTerms(ts, m);
    case Sum(ts) => OkBindsVarsTerms(ts, m);
    case Variable(_) =>
    case Constant(_) =>
    case Binary(l, r, _) =>
      OkBindsVars(l, m);
      OkBindsVars(r, m);
  }

  lemma {:induction false} OkBindsVarsTerms<V>(ts: seq<Expr<V>>, m: map<V, real>)
    requires EvaluateTerms(ts, m).Ok?
    ensures VarsOfTerms(ts) <= m.Keys
    decreases ts
  {
    if ts != [] {
      OkBindsVarsTerms(ts[..|ts| - 1], m);
      OkBindsVars(ts[|ts| - 1], m);
    }
  }

  /** Two binding maps that agree on the variables of an expression evaluate it alike. */
  predicate AgreeOn<V>(vars: set<V>, m1: map<V, real>, m2: map<V, real>)
  {
    forall v :: v in vars ==> (v in m1 <==> v in m2) && (v in m1 ==> m1[v] == m2[v])
  }

  lemma {:induction false} EvaluateFrame<V>(e: Expr<V>, m1: map<V, real>, m2: map<V, real>)
    requires AgreeOn(Vars(e), m1, m2)
    ensures Evaluate(e, m1) == Evaluate(e, m2)
    decreases e
  {
    match e
    case Product(ts) => EvaluateFrameTerms(ts, m1, m2);
    case Sum(ts) => EvaluateFrameTerms(ts, m1, m2);
    case Variable(n) =>
    case Constant(_) =>
    case Binary(l, r, _) =>
      EvaluateFrame(l, m1, m2);
      EvaluateFrame(r, m1, m2);
  }

  lemma {:induction false} EvaluateFrameTerms<V>(ts: seq<Expr<V>>, m1: map<V, real>, m2: map<V, real>)
    requires AgreeOn(VarsOfTerms(ts), m1, m2)
    ensures EvaluateTerms(ts, m1) == EvaluateTerms(ts, m2)
    decreases ts
  {
    if ts != [] {
      EvaluateFrameTerms(ts[..|ts| - 1], m1, m2);
      EvaluateFrame(ts[|ts| - 1], m1, m2);
    }
  }

  /** Adding bindings does not change a result that was already computed. */
  lemma EvaluateExtend<V>(e: Expr<V>, m: map<V, real>, m': map<V, real>)
    requires Evaluate(e, m).Ok?
    requires forall v :: v in m ==> v in m' && m'[v] == m[v]
    ensures Evaluate(e, m') == Evaluate(e, m)
  {
    OkBindsVars(e, m);
    EvaluateFrame(e, m, m');
  }

  function ShowName(n: char): string { [n] }

  /**
   * Because Sum and Product print without parentheses, (x + y) * z and
   * x + y * z print alike although they evaluate differently.
   */
  lemma AmbiguousPrint(showConst: real -> string)
    ensures var x, y, z := Variable('x'), Variable('y'), Variable('z');
            var e1 := Product([Sum([x, y]), z]);
            var e2 := Sum([x, Product([y, z])]);
            var m := map['x' := 1.0, 'y' := 1.0, 'z' := 2.0];
            Print(e1, ShowName, showConst) == "x + y * z" &&
            Print(e2, ShowName, showConst) == "x + y * z" &&
            Evaluate(e1, m) == Ok(4.0) && Evaluate(e2, m) == Ok(3.0)
  {
    var x, y, z := Variable('x'), Variable('y'), Variable('z');
    assert [x, y][..1] == [x] && [y, z][..1] == [y];
    assert [Sum([x, y]), z][..1] == [Sum([x, y])];
    assert [x, Product([y, z])][..1] == [x];
    assert [x][..0] == [] && [y][..0] == [];
    assert Print(x, ShowName, showConst) == "x" && Print(y, ShowName, showConst) == "y";
    assert Join([x, y], " + ", ShowName, showConst) == "x" + " + " + "y";
    assert Join([y, z], " * ", ShowName, showConst) == "y" + " * " + "z";
    assert Print(Sum([x, y]), ShowName, showConst) == "x + y";
    assert Join([Sum([x, y])], " * ", ShowName, showConst) == "x + y";
    assert Print(z, ShowName, showConst) == "z";
    assert Join([Sum([x, y]), z], " * ", ShowName, showConst) == "x + y" + " * " + "z";
    assert Print(Product([y, z]), ShowName, showConst) == "y * z";
    EvaluatesApart();
  }

  /** The two trees of AmbiguousPrint evaluate to 4 and 3 at x = y = 1, z = 2. */
  lemma EvaluatesApart()
    ensures var x, y, z := Variable('x'), Variable('y'), Variable('z');
            var m := map['x' := 1.0, 'y' := 1.0, 'z' := 2.0];
            Evaluate(Product([Sum([x, y]), z]), m) == Ok(4.0) && Evaluate(Sum([x, Product([y, z])]), m) == Ok(3.0)
  {
    var x, y, z := Variable('x'), Variable('y'), Variable('z');
    var m := map['x' := 1.0, 'y' := 1.0, 'z' := 2.0];
    EvaluateTwo(x, y, m, 1.0, 1.0);
    EvaluateTwo(y, z, m, 1.0, 2.0);
    EvaluateTwo(Sum([x, y]), z, m, 2.0, 2.0);
    EvaluateTwo(x, Product([y, z]), m, 1.0, 2.0);
  }

  /** A two-term Sum or Product evaluates both terms and combines them. */
  lemma EvaluateTwo<V>(a: Expr<V>, b: Expr<V>, m: map<V, real>, va: real, vb: real)
    requires Evaluate(a, m) == Ok(va) && Evaluate(b, m) == Ok(vb)
    ensures Evaluate(Sum([a, b]), m) == Ok(va + vb) && Evaluate(Product([a, b]), m) == Ok(va * vb)
  {
    assert [a, b][..1] == [a] && [a][..0] == [];
    assert EvaluateTerms([a], m) == Ok([va]) by { assert [] + [va] == [va]; }
    assert EvaluateTerms([a, b], m) == Ok([va, vb]) by { assert [va] + [vb] == [va, vb]; }
    assert [va, vb][..1] == [va];
    assert Reduce([va, vb], true) == va + vb && Reduce([va, vb], false) == va * vb;
    assert ReduceTerms([a, b], m, true) == Ok(va + vb) && ReduceTerms([a, b], m, false) == Ok(va * vb);
  }
}
