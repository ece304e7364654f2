/** The shared feasible region of the four optimisation models
    (planning/solver.py:64-103 and its three copies), stated directly over a
    cube of binary values. Constraints.BuildConstraints produces the
    constraint list the source hands to the solver; its contract says that list
    holds of a cube exactly when Feasible does. */
module Feasibility {
  import opened Scenario

  /** Σ over `skills` of works[skill, w, h]. */
  function SkillCount(cube: Cube, skills: seq<Skill>, w: Worker, h: Shift): nat {
    if skills == [] then 0
    else SkillCount(cube, skills[..|skills| - 1], w, h) + Indicator(cube(skills[|skills| - 1], w, h))
  }

  /** Σ over `workers` of works[s, worker, h]. */
  function WorkerCount(cube: Cube, s: Skill, workers: seq<Worker>, h: Shift): nat {
    if workers == [] then 0
    else WorkerCount(cube, s, workers[..|workers| - 1], h) + Indicator(cube(s, workers[|workers| - 1], h))
  }

  /** The inner generator sum(works[s, w, h] * workerskills[w][s] for w in ws). */
  function OutputAt(inp: Inputs, cube: Cube, s: Skill, h: Shift, ws: seq<Worker>): real {
    if ws == [] then 0.0
    else
      var w := ws[|ws| - 1];
      OutputAt(inp, cube, s, h, ws[..|ws| - 1]) + Value(cube(s, w, h)) * Productivity(inp, w, s)
  }

  /** Σ over the shifts `hs` of OutputAt(…, workers) × shift length. */
  function SkillOutputOver(inp: Inputs, cube: Cube, s: Skill, hs: seq<Shift>): real {
    if hs == [] then 0.0
    else
      var h := hs[|hs| - 1];
      SkillOutputOver(inp, cube, s, hs[..|hs| - 1]) + OutputAt(inp, cube, s, h, inp.workers) * Length(inp, h)
  }

  /** The weighted output of one skill: the expression `temp` of skills_rule. */
  function SkillOutput(inp: Inputs, cube: Cube, s: Skill): real {
    SkillOutputOver(inp, cube, s, inp.shifts)
  }

  /** `temp` carries no variable: in every shift either the shift has length
      0 or no worker has a non-zero productivity for the skill (Pyomo folds
      works * 0 and expression * 0 to the number 0). */
  predicate OutputConstant(inp: Inputs, s: Skill) {
    forall h | h in inp.shifts ::
      Length(inp, h) == 0.0 || forall w | w in inp.workers :: Productivity(inp, w, s) == 0.0
  }

  /** Family 1 (solver.py:64-68): at most one skill per worker per shift. */
  predicate OneSkillPerShift(inp: Inputs, cube: Cube) {
    forall w, h | w in inp.workers && h in inp.shifts :: SkillCount(cube, inp.skills, w, h) <= 1
  }

  /** Family 2 (solver.py:71-76): a zero availability flag forces every skill
      of that worker in that shift to 0. */
  predicate RespectsAvailability(inp: Inputs, cube: Cube) {
    forall w, h | w in inp.availability && h in inp.availability[w] && inp.availability[w][h] == 0 ::
      SkillCount(cube, inp.skills, w, h) == 0
  }

  /** Family 3 (solver.py:79-83): at most max_workplaces workers per skill and shift. */
  predicate WithinCapacity(inp: Inputs, cube: Cube) {
    forall s, h | s in inp.skills && h in inp.shifts :: WorkerCount(cube, s, inp.workers, h) <= Capacity(inp, s)
  }

  /** Family 4 (solver.py:87-103): the weighted output of every skill whose
      expression is not constant lies within [min_values, max_values]. */
  predicate WithinOutputBounds(inp: Inputs, cube: Cube) {
    forall s | s in inp.skills && !OutputConstant(inp, s) ::
      MinBound(inp, s) <= SkillOutput(inp, cube, s) <= MaxBound(inp, s)
  }

  predicate Feasible(inp: Inputs, cube: Cube) {
    && OneSkillPerShift(inp, cube)
    && RespectsAvailability(inp, cube)
    && WithinCapacity(inp, cube)
    && WithinOutputBounds(inp, cube)
  }

  /** A zero count means no skill is assigned at all. */
  lemma {:induction false} SkillCountZero(cube: Cube, skills: seq<Skill>, w: Worker, h: Shift)
    ensures SkillCount(cube, skills, w, h) == 0 <==> forall s | s in skills :: !cube(s, w, h)
  {
    if skills != [] {
      var init := skills[..|skills| - 1];
      SkillCountZero(cube, init, w, h);
      assert skills == init + [skills[|skills| - 1]];
    }
  }

  /** Two different assigned skills make the count at least 2. */
  lemma {:induction false} SkillCountTwo(cube: Cube, skills: seq<Skill>, w: Worker, h: Shift, s1: Skill, s2: Skill)
    requires s1 in skills && s2 in skills && s1 != s2
    requires cube(s1, w, h) && cube(s2, w, h)
    ensures SkillCount(cube, skills, w, h) >= 2
  {
    var init, last := skills[..|skills| - 1], skills[|skills| - 1];
    assert skills == init + [last];
    if s1 == last {
      SkillCountZero(cube, init, w, h);
    } else if s2 == last {
      SkillCountZero(cube, init, w, h);
    } else {
      SkillCountTwo(cube, init, w, h, s1, s2);
    }
  }

  /** An assigned worker makes the count of assigned workers positive. */
  lemma {:induction false} WorkerCountPositive(cube: Cube, s: Skill, workers: seq<Worker>, h: Shift, w: Worker)
    requires w in workers && cube(s, w, h)
    ensures WorkerCount(cube, s, workers, h) >= 1
  {
    var init := workers[..|workers| - 1];
    assert workers == init + [workers[|workers| - 1]];
    if w != workers[|workers| - 1] {
      WorkerCountPositive(cube, s, init, h, w);
    }
  }

  lemma {:induction false} OutputAtConstant(inp: Inputs, cube: Cube, s: Skill, h: Shift, ws: seq<Worker>)
    requires forall w | w in ws :: Productivity(inp, w, s) == 0.0
    ensures OutputAt(inp, cube, s, h, ws) == 0.0
  {
    if ws != [] {
      OutputAtConstant(inp, cube, s, h, ws[..|ws| - 1]);
    }
  }

  lemma {:induction false} OutputOverConstant(inp: Inputs, cube: Cube, s: Skill, hs: seq<Shift>)
    requires forall h | h in hs ::
      Length(inp, h) == 0.0 || forall w | w in inp.workers :: Productivity(inp, w, s) == 0.0
    ensures SkillOutputOver(inp, cube, s, hs) == 0.0
  {
    if hs != [] {
      var h := hs[|hs| - 1];
      OutputOverConstant(inp, cube, s, hs[..|hs| - 1]);
      if Length(inp, h) != 0.0 {
        OutputAtConstant(inp, cube, s, h, inp.workers);
      }
    }
  }

  /** Skipping a constant bound loses nothing: a constant expression is 0 for
      every cube, so the skipped comparison would have compared 0 with the bound. */
  lemma ConstantOutputIsZero(inp: Inputs, cube: Cube, s: Skill)
    requires OutputConstant(inp, s)
    ensures SkillOutput(inp, cube, s) == 0.0
  {
    OutputOverConstant(inp, cube, s, inp.shifts);
  }
}
