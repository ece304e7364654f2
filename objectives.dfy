/** The four objectives (the obj_function of each Optimize.max* method) and
    the four measures the methods report afterwards, before rounding.
    Objective m, evaluated on a cube, is measure m of that cube
    (ObjectiveIsMeasure); Formulate pairs it with the shared constraints. */
module Objectives {
  import opened Scenario
  import opened Feasibility
  import opened Linear
  import opened Constraints

  /** The four measures of the result dictionary, in the order the methods
      report them; each also names the model that maximises it. */
  datatype Measure = Output | Preference | GrossProfit | SkillProgression

  // ----- the measures, as sums over the cube -----

  /** Σ over skills of SkillOutput: the measure `output` (solver.py:134-139). */
  function OutputTotal(inp: Inputs, cube: Cube, ss: seq<Skill>): real {
    if ss == [] then 0.0
    else OutputTotal(inp, cube, ss[..|ss| - 1]) + SkillOutput(inp, cube, ss[|ss| - 1])
  }

  /** One skill's output over the shifts hs, each shift's part scaled by the
      skill's gross profit. */
  function SkillProfitOver(inp: Inputs, cube: Cube, s: Skill, hs: seq<Shift>): real {
    if hs == [] then 0.0
    else
      SkillProfitOver(inp, cube, s, hs[..|hs| - 1])
      + OutputAt(inp, cube, s, hs[|hs| - 1], inp.workers) * Length(inp, hs[|hs| - 1]) * Profit(inp, s)
  }

  /** The measure `gross_profit` (solver.py:148-153). */
  function GrossProfitTotal(inp: Inputs, cube: Cube, ss: seq<Skill>): real {
    if ss == [] then 0.0
    else GrossProfitTotal(inp, cube, ss[..|ss| - 1]) + SkillProfitOver(inp, cube, ss[|ss| - 1], inp.shifts)
  }

  /** sum(works[skill, w, h].value * weights[w][skill] for skill in ss) */
  function WeightAt(weights: map<Worker, map<Skill, real>>, cube: Cube, w: Worker, h: Shift, ss: seq<Skill>): real {
    if ss == [] then 0.0
    else WeightAt(weights, cube, w, h, ss[..|ss| - 1]) + Value(cube(ss[|ss| - 1], w, h)) * Entry(weights, w, ss[|ss| - 1])
  }

  /** One worker's weighted assignments over the shifts hs, times shift lengths. */
  function WorkerWeightOver(inp: Inputs, weights: map<Worker, map<Skill, real>>, cube: Cube, w: Worker, hs: seq<Shift>): real {
    if hs == [] then 0.0
    else
      WorkerWeightOver(inp, weights, cube, w, hs[..|hs| - 1])
      + WeightAt(weights, cube, w, hs[|hs| - 1], inp.skills) * Length(inp, hs[|hs| - 1])
  }

  /** Σ over workers: the measures `preference` (weights = preferences,
      solver.py:141-146) and `skill_progression` (weights = progression,
      solver.py:155-160). */
  function WeightTotal(inp: Inputs, weights: map<Worker, map<Skill, real>>, cube: Cube, ws: seq<Worker>): real {
    if ws == [] then 0.0
    else WeightTotal(inp, weights, cube, ws[..|ws| - 1]) + WorkerWeightOver(inp, weights, cube, ws[|ws| - 1], inp.shifts)
  }

  /** Measure m of a cube, before round(…, 2). */
  function MeasureValue(inp: Inputs, cube: Cube, m: Measure): real {
    match m
    case Output => OutputTotal(inp, cube, inp.skills)
    case GrossProfit => GrossProfitTotal(inp, cube, inp.skills)
    case Preference => WeightTotal(inp, inp.preferences, cube, inp.workers)
    case SkillProgression => WeightTotal(inp, inp.progression, cube, inp.workers)
  }

  // ----- the objective expressions -----

  /** The summand of obj_function for one skill and shift: the output term
      times the shift length, and for the gross-profit model times the
      skill's gross profit as well. */
  function SkillShiftTerm(inp: Inputs, s: Skill, h: Shift, profit: bool): Expr {
    var e := Mul(OutputTerm(inp, s, h, inp.workers), Length(inp, h));
    if profit then Mul(e, Profit(inp, s)) else e
  }

  /** `total += …` for the skill s over the shifts hs, starting from acc. */
  function SkillShiftsTotal(inp: Inputs, acc: Expr, s: Skill, hs: seq<Shift>, profit: bool): Expr {
    if hs == [] then acc
    else Add(SkillShiftsTotal(inp, acc, s, hs[..|hs| - 1], profit), SkillShiftTerm(inp, s, hs[|hs| - 1], profit))
  }

  /** The loop of obj_function of maxOutput (profit = false, solver.py:50-55)
      and of maxGrossProfit (profit = true, solver.py:200-205) after the
      skills ss. */
  function SkillMajorTotal(inp: Inputs, ss: seq<Skill>, profit: bool): Expr {
    if ss == [] then Const(0.0)
    else SkillShiftsTotal(inp, SkillMajorTotal(inp, ss[..|ss| - 1], profit), ss[|ss| - 1], inp.shifts, profit)
  }

  /** sum(works[skill, w, h] * weights[w][skill] for skill in ss) */
  function WeightSum(weights: map<Worker, map<Skill, real>>, w: Worker, h: Shift, ss: seq<Skill>): Expr {
    if ss == [] then Const(0.0)
    else Add(WeightSum(weights, w, h, ss[..|ss| - 1]), Mul(Var(ss[|ss| - 1], w, h), Entry(weights, w, ss[|ss| - 1])))
  }

  function WorkerShiftsTotal(inp: Inputs, weights: map<Worker, map<Skill, real>>, acc: Expr, w: Worker, hs: seq<Shift>): Expr {
    if hs == [] then acc
    else
      Add(WorkerShiftsTotal(inp, weights, acc, w, hs[..|hs| - 1]),
          Mul(WeightSum(weights, w, hs[|hs| - 1], inp.skills), Length(inp, hs[|hs| - 1])))
  }

  /** The loop of obj_function of maxPreferences (solver.py:343-348) and of
      maxProgression (solver.py:486-491) after the workers ws. */
  function WorkerMajorTotal(inp: Inputs, weights: map<Worker, map<Skill, real>>, ws: seq<Worker>): Expr {
    if ws == [] then Const(0.0)
    else WorkerShiftsTotal(inp, weights, WorkerMajorTotal(inp, weights, ws[..|ws| - 1]), ws[|ws| - 1], inp.shifts)
  }

  /** The objective of the model that maximises m. */
  function ObjectiveExpr(inp: Inputs, m: Measure): Expr {
    match m
    case Output => SkillMajorTotal(inp, inp.skills, false)
    case GrossProfit => SkillMajorTotal(inp, inp.skills, true)
    case Preference => WorkerMajorTotal(inp, inp.preferences, inp.workers)
    case SkillProgression => WorkerMajorTotal(inp, inp.progression, inp.workers)
  }

  // ----- objective = measure -----

  /** The value of one summand: a product of plain reals, so that the
      inductive lemmas below reason about sums only. */
  function SkillShiftValue(inp: Inputs, cube: Cube, s: Skill, h: Shift, profit: bool): real {
    var v := OutputAt(inp, cube, s, h, inp.workers) * Length(inp, h);
    if profit then v * Profit(inp, s) else v
  }

  lemma SkillShiftTermValue(inp: Inputs, cube: Cube, s: Skill, h: Shift, profit: bool)
    ensures Eval(SkillShiftTerm(inp, s, h, profit), cube) == SkillShiftValue(inp, cube, s, h, profit)
  {
    var t := OutputTerm(inp, s, h, inp.workers);
    OutputTermValue(inp, s, h, inp.workers, cube);
    MulCongruence(Eval(t, cube), OutputAt(inp, cube, s, h, inp.workers), Length(inp, h));
    if profit {
      MulCongruence(Eval(Mul(t, Length(inp, h)), cube), OutputAt(inp, cube, s, h, inp.workers) * Length(inp, h), Profit(inp, s));
    }
  }

  lemma {:induction false} SkillShiftsTotalValue(inp: Inputs, acc: Expr, s: Skill, hs: seq<Shift>, profit: bool, cube: Cube)
    ensures Eval(SkillShiftsTotal(inp, acc, s, hs, profit), cube) ==
      Eval(acc, cube) + (if profit then SkillProfitOver(inp, cube, s, hs) else SkillOutputOver(inp, cube, s, hs))
  {
    if hs != [] {
      SkillShiftsTotalValue(inp, acc, s, hs[..|hs| - 1], profit, cube);
      SkillShiftTermValue(inp, cube, s, hs[|hs| - 1], profit);
    }
  }

  lemma {:induction false} SkillMajorTotalValue(inp: Inputs, ss: seq<Skill>, profit: bool, cube: Cube)
    ensures Eval(SkillMajorTotal(inp, ss, profit), cube) ==
      if profit then GrossProfitTotal(inp, cube, ss) else OutputTotal(inp, cube, ss)
  {
    if ss != [] {
      var init := ss[..|ss| - 1];
      SkillMajorTotalValue(inp, init, profit, cube);
      SkillShiftsTotalValue(inp, SkillMajorTotal(inp, init, profit), ss[|ss| - 1], inp.shifts, profit, cube);
    }
  }

  lemma {:induction false} WeightSumValue(weights: map<Worker, map<Skill, real>>, w: Worker, h: Shift, ss: seq<Skill>, cube: Cube)
    ensures Eval(WeightSum(weights, w, h, ss), cube) == WeightAt(weights, cube, w, h, ss)
  {
    if ss != [] {
      var s := ss[|ss| - 1];
      WeightSumValue(weights, w, h, ss[..|ss| - 1], cube);
      assert Eval(Var(s, w, h), cube) == Value(cube(s, w, h));
      MulCongruence(Eval(Var(s, w, h), cube), Value(cube(s, w, h)), Entry(weights, w, s));
    }
  }

  lemma {:induction false} WorkerShiftsTotalValue(inp: Inputs, weights: map<Worker, map<Skill, real>>, acc: Expr, w: Worker, hs: seq<Shift>, cube: Cube)
    ensures Eval(WorkerShiftsTotal(inp, weights, acc, w, hs), cube) == Eval(acc, cube) + WorkerWeightOver(inp, weights, cube, w, hs)
  {
    if hs != [] {
      var h := hs[|hs| - 1];
      WorkerShiftsTotalValue(inp, weights, acc, w, hs[..|hs| - 1], cube);
      WeightSumValue(weights, w, h, inp.skills, cube);
      MulCongruence(Eval(WeightSum(weights, w, h, inp.skills), cube), WeightAt(weights, cube, w, h, inp.skills), Length(inp, h));
    }
  }

  lemma {:induction false} WorkerMajorTotalValue(inp: Inputs, weights: map<Worker, map<Skill, real>>, ws: seq<Worker>, cube: Cube)
    ensures Eval(WorkerMajorTotal(inp, weights, ws), cube) == WeightTotal(inp, weights, cube, ws)
  {
    if ws != [] {
      var init := ws[..|ws| - 1];
      WorkerMajorTotalValue(inp, weights, init, cube);
      WorkerShiftsTotalValue(inp, weights, WorkerMajorTotal(inp, weights, init), ws[|ws| - 1], inp.shifts, cube);
    }
  }

  /** What each model maximises is exactly the measure of the same name that
      the method reports for the solved cube (before rounding). */
  lemma ObjectiveIsMeasure(inp: Inputs, m: Measure, cube: Cube)
    ensures Eval(ObjectiveExpr(inp, m), cube) == MeasureValue(inp, cube, m)
  {
    match m
    case Output => SkillMajorTotalValue(inp, inp.skills, false, cube);
    case GrossProfit => SkillMajorTotalValue(inp, inp.skills, true, cube);
    case Preference => WorkerMajorTotalValue(inp, inp.preferences, inp.workers, cube);
    case SkillProgression => WorkerMajorTotalValue(inp, inp.progression, inp.workers, cube);
  }

  // ----- gross profit versus output -----

  /** The algebra of one step of both proofs below, away from the sums. */
  lemma Distribute(a: real, b: real, x: real, g: real, g': real, p: real, total: real, out: real)
    requires a == g * b && g' == g && p == g' * x
    requires total == a + p && out == b + x
    ensures total == g * out
  {
  }

  /** One skill's gross profit is its output times its gross profit. */
  lemma {:induction false} SkillProfitIsScaledOutput(inp: Inputs, cube: Cube, s: Skill, hs: seq<Shift>)
    ensures SkillProfitOver(inp, cube, s, hs) == Profit(inp, s) * SkillOutputOver(inp, cube, s, hs)
  {
    if hs != [] {
      var init, h := hs[..|hs| - 1], hs[|hs| - 1];
      SkillProfitIsScaledOutput(inp, cube, s, init);
      var o, l, g := OutputAt(inp, cube, s, h, inp.workers), Length(inp, h), Profit(inp, s);
      assert o * l * g == g * (o * l);
      Distribute(SkillProfitOver(inp, cube, s, init), SkillOutputOver(inp, cube, s, init), o * l, g, g, o * l * g,
                 SkillProfitOver(inp, cube, s, hs), SkillOutputOver(inp, cube, s, hs));
    }
  }

  /** With the same gross profit g for every skill, the gross profit measure
      is g times the output measure. */
  lemma {:induction false} UniformProfit(inp: Inputs, cube: Cube, ss: seq<Skill>, g: real)
    requires forall i | 0 <= i < |ss| :: Profit(inp, ss[i]) == g
    ensures GrossProfitTotal(inp, cube, ss) == g * OutputTotal(inp, cube, ss)
  {
    if ss != [] {
      var init, s := ss[..|ss| - 1], ss[|ss| - 1];
      assert forall i | 0 <= i < |init| :: init[i] == ss[i];
      UniformProfit(inp, cube, init, g);
      SkillProfitIsScaledOutput(inp, cube, s, inp.shifts);
      assert Profit(inp, s) == g;
      Distribute(GrossProfitTotal(inp, cube, init), OutputTotal(inp, cube, init), SkillOutputOver(inp, cube, s, inp.shifts),
                 g, Profit(inp, s), SkillProfitOver(inp, cube, s, inp.shifts), GrossProfitTotal(inp, cube, ss), OutputTotal(inp, cube, ss));
    }
  }

  // ----- building the model -----

  /** obj_function of maxOutput and maxGrossProfit: the double loop over
      skills and shifts. */
  method SkillMajorObjective(inp: Inputs, profit: bool) returns (total: Expr)
    ensures total == SkillMajorTotal(inp, inp.skills, profit)
  {
    total := Const(0.0);
    for i := 0 to |inp.skills|
      invariant total == SkillMajorTotal(inp, inp.skills[..i], profit)
    {
      var s := inp.skills[i];
      assert inp.skills[..i + 1][..i] == inp.skills[..i];
      var start := total;
      for j := 0 to |inp.shifts|
        invariant total == SkillShiftsTotal(inp, start, s, inp.shifts[..j], profit)
      {
        assert inp.shifts[..j + 1][..j] == inp.shifts[..j];
        total := Add(total, SkillShiftTerm(inp, s, inp.shifts[j], profit));
      }
      assert inp.shifts[..|inp.shifts|] == inp.shifts;
    }
    assert inp.skills[..|inp.skills|] == inp.skills;
  }

  /** obj_function of maxPreferences and maxProgression: the double loop over
      workers and shifts. */
  method WorkerMajorObjective(inp: Inputs, weights: map<Worker, map<Skill, real>>) returns (total: Expr)
    ensures total == WorkerMajorTotal(inp, weights, inp.workers)
  {
    total := Const(0.0);
    for i := 0 to |inp.workers|
      invariant total == WorkerMajorTotal(inp, weights, inp.workers[..i])
    {
      var w := inp.workers[i];
      assert inp.workers[..i + 1][..i] == inp.workers[..i];
      var start := total;
      for j := 0 to |inp.shifts|
        invariant total == WorkerShiftsTotal(inp, weights, start, w, inp.shifts[..j])
      {
        var h := inp.shifts[j];
        assert inp.shifts[..j + 1][..j] == inp.shifts[..j];
        total := Add(total, Mul(WeightSum(weights, w, h, inp.skills), Length(inp, h)));
      }
      assert inp.shifts[..|inp.shifts|] == inp.shifts;
    }
    assert inp.workers[..|inp.workers|] == inp.workers;
  }

  /** The model Optimize.max<m> hands to the solver: an objective whose value
      on every cube is measure m, and the shared constraints, which hold
      exactly on the Feasible cubes. */
  method Formulate(inp: Inputs, m: Measure) returns (objective: Expr, constraints: seq<Constraint>)
    requires WellFormed(inp)
    ensures objective == ObjectiveExpr(inp, m)
    ensures forall cube: Cube :: Eval(objective, cube) == MeasureValue(inp, cube, m)
    ensures constraints == SharedConstraints(inp)
    ensures forall cube: Cube :: AllHold(constraints, cube) <==> Feasible(inp, cube)
  {
    match m {
      case Output => objective := SkillMajorObjective(inp, false);
      case GrossProfit => objective := SkillMajorObjective(inp, true);
      case Preference => objective := WorkerMajorObjective(inp, inp.preferences);
      case SkillProgression => objective := WorkerMajorObjective(inp, inp.progression);
    }
    constraints := BuildConstraints(inp);
    forall cube: Cube
      ensures Eval(objective, cube) == MeasureValue(inp, cube, m)
    {
      ObjectiveIsMeasure(inp, m, cube);
    }
  }
}
