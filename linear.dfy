/** Pyomo expressions over the binary cube, as the model builder sees them
    before they go to the solver: Python's `+` and `*` on variables and
    numbers, kept as a tree. Pyomo folds a product with a factor 0, and a sum
    of numbers, into a plain number; IsNumber says when the whole tree folds
    that way, which is the "type(temp) is float" case of skills_rule. */
module Linear {
  import opened Scenario

  datatype Expr =
    | Const(value: real)                               // a plain Python number
    | Var(skill: Skill, worker: Worker, shift: Shift)  // model.works[skill, worker, shift]
    | Add(left: Expr, right: Expr)
    | Mul(factor: Expr, coef: real)

  /** The value of an expression for the binary values in `cube`. */
  function Eval(e: Expr, cube: Cube): real {
    match e
    case Const(v) => v
    case Var(s, w, h) => Value(cube(s, w, h))
    case Add(a, b) => Eval(a, cube) + Eval(b, cube)
    case Mul(a, c) => Eval(a, cube) * c
  }

  /** Pyomo's `type(expr) is float` test: the expression folds to a plain
      number because no variable survives (a variable only survives if no
      factor 0 multiplies it). */
  predicate IsNumber(e: Expr) {
    match e
    case Const(_) => true
    case Var(_, _, _) => false
    case Add(a, b) => IsNumber(a) && IsNumber(b)
    case Mul(a, c) => c == 0.0 || IsNumber(a)
  }

  /** A number stays the same number whatever the cube. */
  lemma {:induction false} NumberIgnoresCube(e: Expr, cube1: Cube, cube2: Cube)
    requires IsNumber(e)
    ensures Eval(e, cube1) == Eval(e, cube2)
  {
    match e
    case Const(_) =>
    case Add(a, b) =>
      NumberIgnoresCube(a, cube1, cube2);
      NumberIgnoresCube(b, cube1, cube2);
    case Mul(a, c) =>
      if c != 0.0 {
        NumberIgnoresCube(a, cube1, cube2);
        MulCongruence(Eval(a, cube1), Eval(a, cube2), c);
      }
  }

  datatype Relation = AtMost | AtLeast | EqualTo

  /** lhs <= rhs, lhs >= rhs or lhs == rhs. */
  datatype Constraint = Constraint(lhs: Expr, rel: Relation, rhs: real)

  predicate Holds(c: Constraint, cube: Cube) {
    var v := Eval(c.lhs, cube);
    match c.rel
    case AtMost => v <= c.rhs
    case AtLeast => v >= c.rhs
    case EqualTo => v == c.rhs
  }

  predicate AllHold(cs: seq<Constraint>, cube: Cube) {
    forall i | 0 <= i < |cs| :: Holds(cs[i], cube)
  }

  lemma AllHoldAppend(a: seq<Constraint>, b: seq<Constraint>, cube: Cube)
    ensures AllHold(a + b, cube) <==> AllHold(a, cube) && AllHold(b, cube)
  {
    assert forall i | 0 <= i < |a| :: (a + b)[i] == a[i];
    assert forall i | 0 <= i < |b| :: (a + b)[|a| + i] == b[i];
  }

  lemma AllHoldOne(c: Constraint, cube: Cube)
    ensures AllHold([c], cube) <==> Holds(c, cube)
  {
    assert [c][0] == c;
  }

  lemma MulCongruence(x: real, y: real, c: real)
    requires x == y
    ensures x * c == y * c
  {
  }
}
