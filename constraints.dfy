/** The constraint list that every Optimize.max* method hands to the solver
    (planning/solver.py:59-103, repeated at 209-253, 352-396 and 495-539).
    The *Rows functions say which constraints the source adds, in the order it
    adds them; the Add* methods are the source's loops, proved to add exactly
    those rows; the *Meaning lemmas say what the rows demand of a cube, and
    BuildConstraints ties the whole list to Feasibility.Feasible. */
module Constraints {
  import opened Scenario
  import opened Feasibility
  import opened Linear

  // ----- the Pyomo sums the rows compare -----

  /** sum(works[skill, w, h] for skill in skills); Python's sum starts from 0. */
  function SkillsSum(skills: seq<Skill>, w: Worker, h: Shift): Expr {
    if skills == [] then Const(0.0)
    else Add(SkillsSum(skills[..|skills| - 1], w, h), Var(skills[|skills| - 1], w, h))
  }

  /** sum(works[s, worker, h] for worker in ws) */
  function WorkersSum(s: Skill, ws: seq<Worker>, h: Shift): Expr {
    if ws == [] then Const(0.0)
    else Add(WorkersSum(s, ws[..|ws| - 1], h), Var(s, ws[|ws| - 1], h))
  }

  /** sum(works[s, worker, h] * workerskills[worker][s] for worker in ws) */
  function OutputTerm(inp: Inputs, s: Skill, h: Shift, ws: seq<Worker>): Expr {
    if ws == [] then Const(0.0)
    else Add(OutputTerm(inp, s, h, ws[..|ws| - 1]), Mul(Var(s, ws[|ws| - 1], h), Productivity(inp, ws[|ws| - 1], s)))
  }

  /** The `temp` of skills_rule over the shifts hs:
      sum(OutputTerm(…, workers) * shift_lengths[shift] for shift in hs) */
  function OutputExpr(inp: Inputs, s: Skill, hs: seq<Shift>): Expr {
    if hs == [] then Const(0.0)
    else Add(OutputExpr(inp, s, hs[..|hs| - 1]), Mul(OutputTerm(inp, s, hs[|hs| - 1], inp.workers), Length(inp, hs[|hs| - 1])))
  }

  lemma {:induction false} SkillsSumCounts(skills: seq<Skill>, w: Worker, h: Shift, cube: Cube)
    ensures Eval(SkillsSum(skills, w, h), cube) == SkillCount(cube, skills, w, h) as real
  {
    if skills != [] {
      SkillsSumCounts(skills[..|skills| - 1], w, h, cube);
    }
  }

  lemma {:induction false} WorkersSumCounts(s: Skill, ws: seq<Worker>, h: Shift, cube: Cube)
    ensures Eval(WorkersSum(s, ws, h), cube) == WorkerCount(cube, s, ws, h) as real
  {
    if ws != [] {
      WorkersSumCounts(s, ws[..|ws| - 1], h, cube);
    }
  }

  lemma {:induction false} OutputTermValue(inp: Inputs, s: Skill, h: Shift, ws: seq<Worker>, cube: Cube)
    ensures Eval(OutputTerm(inp, s, h, ws), cube) == OutputAt(inp, cube, s, h, ws)
  {
    if ws != [] {
      var w := ws[|ws| - 1];
      OutputTermValue(inp, s, h, ws[..|ws| - 1], cube);
      assert Eval(Var(s, w, h), cube) == Value(cube(s, w, h));
      MulCongruence(Eval(Var(s, w, h), cube), Value(cube(s, w, h)), Productivity(inp, w, s));
    }
  }

  /** The expression `temp` evaluates to the skill's weighted output. */
  lemma {:induction false} OutputExprValue(inp: Inputs, s: Skill, hs: seq<Shift>, cube: Cube)
    ensures Eval(OutputExpr(inp, s, hs), cube) == SkillOutputOver(inp, cube, s, hs)
  {
    if hs != [] {
      var h := hs[|hs| - 1];
      OutputExprValue(inp, s, hs[..|hs| - 1], cube);
      OutputTermValue(inp, s, h, inp.workers, cube);
      MulCongruence(Eval(OutputTerm(inp, s, h, inp.workers), cube), OutputAt(inp, cube, s, h, inp.workers), Length(inp, h));
    }
  }

  lemma {:induction false} OutputTermConstant(inp: Inputs, s: Skill, h: Shift, ws: seq<Worker>)
    ensures IsNumber(OutputTerm(inp, s, h, ws)) <==> forall w | w in ws :: Productivity(inp, w, s) == 0.0
  {
    if ws != [] {
      var init, w := ws[..|ws| - 1], ws[|ws| - 1];
      OutputTermConstant(inp, s, h, init);
      assert IsNumber(Mul(Var(s, w, h), Productivity(inp, w, s))) <==> Productivity(inp, w, s) == 0.0;
      assert ws == init + [w];
    }
  }

  lemma {:induction false} OutputExprConstant(inp: Inputs, s: Skill, hs: seq<Shift>)
    ensures IsNumber(OutputExpr(inp, s, hs)) <==>
      forall h | h in hs :: Length(inp, h) == 0.0 || forall w | w in inp.workers :: Productivity(inp, w, s) == 0.0
  {
    if hs != [] {
      var init, h := hs[..|hs| - 1], hs[|hs| - 1];
      OutputExprConstant(inp, s, init);
      OutputTermConstant(inp, s, h, inp.workers);
      assert hs == init + [h];
    }
  }

  /** The "type(temp) is float" test of skills_rule holds exactly when the
      skill's output is constant in the sense of Feasibility.OutputConstant. */
  lemma SkipTestMeaning(inp: Inputs, s: Skill)
    ensures IsNumber(OutputExpr(inp, s, inp.shifts)) <==> OutputConstant(inp, s)
  {
    OutputExprConstant(inp, s, inp.shifts);
  }

  // ----- the rows, in the order the source adds them -----

  /** Lines 64-68: 1 >= sum over skills, for each shift and worker. */
  function OneSkillRows(inp: Inputs, hs: seq<Shift>): seq<Constraint> {
    if hs == [] then []
    else OneSkillRows(inp, hs[..|hs| - 1]) + OneSkillRow(inp, hs[|hs| - 1], inp.workers)
  }

  function OneSkillRow(inp: Inputs, h: Shift, ws: seq<Worker>): seq<Constraint> {
    if ws == [] then []
    else OneSkillRow(inp, h, ws[..|ws| - 1]) + [Constraint(SkillsSum(inp.skills, ws[|ws| - 1], h), AtMost, 1.0)]
  }

  /** Lines 71-76: 0 == sum over skills for every zero flag. The dictionary
      is visited in the order of `ws` (its keys are workers, in insertion
      order), each row in the order of the shifts. */
  function AvailabilityRows(inp: Inputs, ws: seq<Worker>): seq<Constraint> {
    if ws == [] then []
    else
      var w := ws[|ws| - 1];
      AvailabilityRows(inp, ws[..|ws| - 1]) + (if w in inp.availability then AvailabilityRow(inp, w, inp.shifts) else [])
  }

  function AvailabilityRow(inp: Inputs, w: Worker, hs: seq<Shift>): seq<Constraint>
    requires w in inp.availability
  {
    if hs == [] then []
    else
      var h := hs[|hs| - 1];
      AvailabilityRow(inp, w, hs[..|hs| - 1])
      + (if h in inp.availability[w] && inp.availability[w][h] == 0
         then [Constraint(SkillsSum(inp.skills, w, h), EqualTo, 0.0)] else [])
  }

  /** Lines 79-83: max_workplaces[skill] >= sum over workers, for each shift and skill. */
  function CapacityRows(inp: Inputs, hs: seq<Shift>): seq<Constraint> {
    if hs == [] then []
    else CapacityRows(inp, hs[..|hs| - 1]) + CapacityRow(inp, hs[|hs| - 1], inp.skills)
  }

  function CapacityRow(inp: Inputs, h: Shift, ss: seq<Skill>): seq<Constraint> {
    if ss == [] then []
    else
      var s := ss[|ss| - 1];
      CapacityRow(inp, h, ss[..|ss| - 1]) + [Constraint(WorkersSum(s, inp.workers, h), AtMost, Capacity(inp, s) as real)]
  }

  /** Lines 86-93 (model.sr): temp <= max_values[skill] unless temp is a number. */
  function MaxRows(inp: Inputs, ss: seq<Skill>): seq<Constraint> {
    if ss == [] then []
    else
      var s := ss[|ss| - 1];
      var e := OutputExpr(inp, s, inp.shifts);
      MaxRows(inp, ss[..|ss| - 1]) + (if IsNumber(e) then [] else [Constraint(e, AtMost, MaxBound(inp, s))])
  }

  /** Lines 96-103 (model.smr): temp >= min_values[skill] unless temp is a number. */
  function MinRows(inp: Inputs, ss: seq<Skill>): seq<Constraint> {
    if ss == [] then []
    else
      var s := ss[|ss| - 1];
      var e := OutputExpr(inp, s, inp.shifts);
      MinRows(inp, ss[..|ss| - 1]) + (if IsNumber(e) then [] else [Constraint(e, AtLeast, MinBound(inp, s))])
  }

  /** The whole constraint set, shared by the four models. */
  function SharedConstraints(inp: Inputs): seq<Constraint> {
    OneSkillRows(inp, inp.shifts)
    + AvailabilityRows(inp, inp.workers)
    + CapacityRows(inp, inp.shifts)
    + MaxRows(inp, inp.skills)
    + MinRows(inp, inp.skills)
  }

  // ----- what the rows demand -----

  lemma {:induction false} OneSkillRowMeaning(inp: Inputs, h: Shift, ws: seq<Worker>, cube: Cube)
    ensures AllHold(OneSkillRow(inp, h, ws), cube) <==>
      forall w | w in ws :: SkillCount(cube, inp.skills, w, h) <= 1
  {
    if ws != [] {
      var init, w := ws[..|ws| - 1], ws[|ws| - 1];
      OneSkillRowMeaning(inp, h, init, cube);
      var c := Constraint(SkillsSum(inp.skills, w, h), AtMost, 1.0);
      AllHoldAppend(OneSkillRow(inp, h, init), [c], cube);
      AllHoldOne(c, cube);
      SkillsSumCounts(inp.skills, w, h, cube);
      assert ws == init + [w];
    }
  }

  lemma {:induction false} OneSkillRowsMeaning(inp: Inputs, hs: seq<Shift>, cube: Cube)
    ensures AllHold(OneSkillRows(inp, hs), cube) <==>
      forall w, h | w in inp.workers && h in hs :: SkillCount(cube, inp.skills, w, h) <= 1
  {
    if hs != [] {
      var init, h := hs[..|hs| - 1], hs[|hs| - 1];
      OneSkillRowsMeaning(inp, init, cube);
      OneSkillRowMeaning(inp, h, inp.workers, cube);
      AllHoldAppend(OneSkillRows(inp, init), OneSkillRow(inp, h, inp.workers), cube);
      assert hs == init + [h];
    }
  }

  lemma {:induction false} AvailabilityRowMeaning(inp: Inputs, w: Worker, hs: seq<Shift>, cube: Cube)
    requires w in inp.availability
    ensures AllHold(AvailabilityRow(inp, w, hs), cube) <==>
      forall h | h in hs && h in inp.availability[w] && inp.availability[w][h] == 0 ::
        SkillCount(cube, inp.skills, w, h) == 0
  {
    if hs != [] {
      var init, h := hs[..|hs| - 1], hs[|hs| - 1];
      var c := Constraint(SkillsSum(inp.skills, w, h), EqualTo, 0.0);
      var row := if h in inp.availability[w] && inp.availability[w][h] == 0 then [c] else [];
      AvailabilityRowMeaning(inp, w, init, cube);
      AllHoldAppend(AvailabilityRow(inp, w, init), row, cube);
      AllHoldOne(c, cube);
      SkillsSumCounts(inp.skills, w, h, cube);
      assert hs == init + [h];
    }
  }

  lemma {:induction false} AvailabilityRowsMeaning(inp: Inputs, ws: seq<Worker>, cube: Cube)
    ensures AllHold(AvailabilityRows(inp, ws), cube) <==>
      forall w, h | w in ws && w in inp.availability && h in inp.shifts && h in inp.availability[w]
                     && inp.availability[w][h] == 0 ::
        SkillCount(cube, inp.skills, w, h) == 0
  {
    if ws != [] {
      var init, w := ws[..|ws| - 1], ws[|ws| - 1];
      var row := if w in inp.availability then AvailabilityRow(inp, w, inp.shifts) else [];
      AvailabilityRowsMeaning(inp, init, cube);
      if w in inp.availability {
        AvailabilityRowMeaning(inp, w, inp.shifts, cube);
      }
      AllHoldAppend(AvailabilityRows(inp, init), row, cube);
      assert ws == init + [w];
    }
  }

  lemma {:induction false} CapacityRowMeaning(inp: Inputs, h: Shift, ss: seq<Skill>, cube: Cube)
    ensures AllHold(CapacityRow(inp, h, ss), cube) <==>
      forall s | s in ss :: WorkerCount(cube, s, inp.workers, h) <= Capacity(inp, s)
  {
    if ss != [] {
      var init, s := ss[..|ss| - 1], ss[|ss| - 1];
      OneCapacityRow(inp, h, s, cube);
      CapacityRowMeaning(inp, h, init, cube);
      var c := Constraint(WorkersSum(s, inp.workers, h), AtMost, Capacity(inp, s) as real);
      AllHoldAppend(CapacityRow(inp, h, init), [c], cube);
      AllHoldOne(c, cube);
      assert ss == init + [s];
    }
  }

  lemma OneCapacityRow(inp: Inputs, h: Shift, s: Skill, cube: Cube)
    ensures Holds(Constraint(WorkersSum(s, inp.workers, h), AtMost, Capacity(inp, s) as real), cube) <==>
      WorkerCount(cube, s, inp.workers, h) <= Capacity(inp, s)
  {
    WorkersSumCounts(s, inp.workers, h, cube);
  }

  lemma {:induction false} CapacityRowsMeaning(inp: Inputs, hs: seq<Shift>, cube: Cube)
    ensures AllHold(CapacityRows(inp, hs), cube) <==>
      forall s, h | s in inp.skills && h in hs :: WorkerCount(cube, s, inp.workers, h) <= Capacity(inp, s)
  {
    if hs != [] {
      var init, h := hs[..|hs| - 1], hs[|hs| - 1];
      CapacityRowsMeaning(inp, init, cube);
      CapacityRowMeaning(inp, h, inp.skills, cube);
      AllHoldAppend(CapacityRows(inp, init), CapacityRow(inp, h, inp.skills), cube);
      assert hs == init + [h];
    }
  }

  lemma {:induction false} MaxRowsMeaning(inp: Inputs, ss: seq<Skill>, cube: Cube)
    ensures AllHold(MaxRows(inp, ss), cube) <==>
      forall s | s in ss && !OutputConstant(inp, s) :: SkillOutput(inp, cube, s) <= MaxBound(inp, s)
  {
    if ss != [] {
      var init, s := ss[..|ss| - 1], ss[|ss| - 1];
      var e := OutputExpr(inp, s, inp.shifts);
      MaxRowsMeaning(inp, init, cube);
      SkipTestMeaning(inp, s);
      OutputExprValue(inp, s, inp.shifts, cube);
      AllHoldAppend(MaxRows(inp, init), if IsNumber(e) then [] else [Constraint(e, AtMost, MaxBound(inp, s))], cube);
      AllHoldOne(Constraint(e, AtMost, MaxBound(inp, s)), cube);
      assert ss == init + [s];
    }
  }

  lemma {:induction false} MinRowsMeaning(inp: Inputs, ss: seq<Skill>, cube: Cube)
    ensures AllHold(MinRows(inp, ss), cube) <==>
      forall s | s in ss && !OutputConstant(inp, s) :: MinBound(inp, s) <= SkillOutput(inp, cube, s)
  {
    if ss != [] {
      var init, s := ss[..|ss| - 1], ss[|ss| - 1];
      var e := OutputExpr(inp, s, inp.shifts);
      MinRowsMeaning(inp, init, cube);
      SkipTestMeaning(inp, s);
      OutputExprValue(inp, s, inp.shifts, cube);
      AllHoldAppend(MinRows(inp, init), if IsNumber(e) then [] else [Constraint(e, AtLeast, MinBound(inp, s))], cube);
      AllHoldOne(Constraint(e, AtLeast, MinBound(inp, s)), cube);
      assert ss == init + [s];
    }
  }

  /** A cube satisfies every constraint the source adds exactly when it is
      Feasible (the four families, with the constant-output skip). */
  lemma SharedConstraintsMeaning(inp: Inputs, cube: Cube)
    requires WellFormed(inp)
    ensures AllHold(SharedConstraints(inp), cube) <==> Feasible(inp, cube)
  {
    var a := OneSkillRows(inp, inp.shifts);
    var b := AvailabilityRows(inp, inp.workers);
    var c := CapacityRows(inp, inp.shifts);
    var d := MaxRows(inp, inp.skills);
    var e := MinRows(inp, inp.skills);
    OneSkillFamily(inp, cube);
    AvailabilityFamily(inp, cube);
    CapacityFamily(inp, cube);
    BoundFamily(inp, cube);
    AllHoldAppend(a + b + c + d, e, cube);
    AllHoldAppend(a + b + c, d, cube);
    AllHoldAppend(a + b, c, cube);
    AllHoldAppend(a, b, cube);
  }

  lemma OneSkillFamily(inp: Inputs, cube: Cube)
    ensures AllHold(OneSkillRows(inp, inp.shifts), cube) <==> OneSkillPerShift(inp, cube)
  {
    OneSkillRowsMeaning(inp, inp.shifts, cube);
  }

  lemma AvailabilityFamily(inp: Inputs, cube: Cube)
    requires WellFormed(inp)
    ensures AllHold(AvailabilityRows(inp, inp.workers), cube) <==> RespectsAvailability(inp, cube)
  {
    AvailabilityRowsMeaning(inp, inp.workers, cube);
  }

  lemma CapacityFamily(inp: Inputs, cube: Cube)
    ensures AllHold(CapacityRows(inp, inp.shifts), cube) <==> WithinCapacity(inp, cube)
  {
    CapacityRowsMeaning(inp, inp.shifts, cube);
  }

  lemma BoundFamily(inp: Inputs, cube: Cube)
    ensures AllHold(MaxRows(inp, inp.skills), cube) && AllHold(MinRows(inp, inp.skills), cube)
      <==> WithinOutputBounds(inp, cube)
  {
    MaxRowsMeaning(inp, inp.skills, cube);
    MinRowsMeaning(inp, inp.skills, cube);
  }

  // ----- the loops that add the rows -----

  /** Lines 64-68. */
  method AddOneSkillRows(inp: Inputs, cs0: seq<Constraint>) returns (cs: seq<Constraint>)
    ensures cs == cs0 + OneSkillRows(inp, inp.shifts)
  {
    cs := cs0;
    for i := 0 to |inp.shifts|
      invariant cs == cs0 + OneSkillRows(inp, inp.shifts[..i])
    {
      var h := inp.shifts[i];
      assert inp.shifts[..i + 1][..i] == inp.shifts[..i];
      var before := cs;
      for j := 0 to |inp.workers|
        invariant cs == before + OneSkillRow(inp, h, inp.workers[..j])
      {
        assert inp.workers[..j + 1][..j] == inp.workers[..j];
        cs := cs + [Constraint(SkillsSum(inp.skills, inp.workers[j], h), AtMost, 1.0)];
      }
      assert inp.workers[..|inp.workers|] == inp.workers;
    }
    assert inp.shifts[..|inp.shifts|] == inp.shifts;
  }

  /** Lines 71-76. */
  method AddAvailabilityRows(inp: Inputs, cs0: seq<Constraint>) returns (cs: seq<Constraint>)
    ensures cs == cs0 + AvailabilityRows(inp, inp.workers)
  {
    cs := cs0;
    for i := 0 to |inp.workers|
      invariant cs == cs0 + AvailabilityRows(inp, inp.workers[..i])
    {
      var w := inp.workers[i];
      assert inp.workers[..i + 1][..i] == inp.workers[..i];
      if w in inp.availability {
        cs := AddWorkerAvailability(inp, w, cs);
      }
    }
    assert inp.workers[..|inp.workers|] == inp.workers;
  }

  /** Lines 72-76 for one worker with an availability entry. */
  method AddWorkerAvailability(inp: Inputs, w: Worker, cs0: seq<Constraint>) returns (cs: seq<Constraint>)
    requires w in inp.availability
    ensures cs == cs0 + AvailabilityRow(inp, w, inp.shifts)
  {
    var timeslot := inp.availability[w];
    cs := cs0;
    for j := 0 to |inp.shifts|
      invariant cs == cs0 + AvailabilityRow(inp, w, inp.shifts[..j])
    {
      var key := inp.shifts[j];
      assert inp.shifts[..j + 1][..j] == inp.shifts[..j];
      if key in timeslot && timeslot[key] == 0 {
        cs := cs + [Constraint(SkillsSum(inp.skills, w, key), EqualTo, 0.0)];
      }
    }
    assert inp.shifts[..|inp.shifts|] == inp.shifts;
  }

  /** Lines 79-83. */
  method AddCapacityRows(inp: Inputs, cs0: seq<Constraint>) returns (cs: seq<Constraint>)
    ensures cs == cs0 + CapacityRows(inp, inp.shifts)
  {
    cs := cs0;
    for i := 0 to |inp.shifts|
      invariant cs == cs0 + CapacityRows(inp, inp.shifts[..i])
    {
      var h := inp.shifts[i];
      assert inp.shifts[..i + 1][..i] == inp.shifts[..i];
      var before := cs;
      for j := 0 to |inp.skills|
        invariant cs == before + CapacityRow(inp, h, inp.skills[..j])
      {
        var s := inp.skills[j];
        assert inp.skills[..j + 1][..j] == inp.skills[..j];
        cs := cs + [Constraint(WorkersSum(s, inp.workers, h), AtMost, Capacity(inp, s) as real)];
      }
      assert inp.skills[..|inp.skills|] == inp.skills;
    }
    assert inp.shifts[..|inp.shifts|] == inp.shifts;
  }

  /** Lines 86-103: Pyomo calls skills_rule and then skills_min_rule once per skill. */
  method AddBoundRows(inp: Inputs, cs0: seq<Constraint>) returns (cs: seq<Constraint>)
    ensures cs == cs0 + MaxRows(inp, inp.skills) + MinRows(inp, inp.skills)
  {
    var upper: seq<Constraint> := [];
    var lower: seq<Constraint> := [];
    for i := 0 to |inp.skills|
      invariant upper == MaxRows(inp, inp.skills[..i])
      invariant lower == MinRows(inp, inp.skills[..i])
    {
      var s := inp.skills[i];
      assert inp.skills[..i + 1][..i] == inp.skills[..i];
      var temp := OutputExpr(inp, s, inp.shifts);
      if !IsNumber(temp) {
        upper := upper + [Constraint(temp, AtMost, MaxBound(inp, s))];
        lower := lower + [Constraint(temp, AtLeast, MinBound(inp, s))];
      }
    }
    assert inp.skills[..|inp.skills|] == inp.skills;
    cs := cs0 + upper + lower;
  }

  /** The constraint part of every Optimize.max* method: the rows it adds,
      which hold of a cube exactly when the cube is Feasible. */
  method BuildConstraints(inp: Inputs) returns (cs: seq<Constraint>)
    requires WellFormed(inp)
    ensures cs == SharedConstraints(inp)
    ensures forall cube: Cube :: AllHold(cs, cube) <==> Feasible(inp, cube)
  {
    cs := AddOneSkillRows(inp, []);
    assert cs == OneSkillRows(inp, inp.shifts);
    cs := AddAvailabilityRows(inp, cs);
    cs := AddCapacityRows(inp, cs);
    cs := AddBoundRows(inp, cs);
    SharedConstraintsExact(inp);
  }

  /** SharedConstraintsMeaning for every cube at once. */
  lemma SharedConstraintsExact(inp: Inputs)
    requires WellFormed(inp)
    ensures forall cube: Cube :: AllHold(SharedConstraints(inp), cube) <==> Feasible(inp, cube)
  {
    forall cube: Cube
      ensures AllHold(SharedConstraints(inp), cube) <==> Feasible(inp, cube)
    {
      SharedConstraintsMeaning(inp, cube);
    }
  }
}
