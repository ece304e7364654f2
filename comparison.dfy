/** The end of planning_result (planning/views.py:424-446): the four
    optimisation runs, the radar-chart table that scales each measure
    against the best of the four runs, and the participation percentages.
    The solver is a parameter: it receives the Pyomo model (objective and
    constraints) and returns the binary assignment cube. */
module Comparison {
  import opened Common
  import opened Scenario
  import opened Feasibility
  import opened Linear
  import opened Constraints
  import opened Objectives
  import opened Extraction
  import opened Assembly

  /** The list `measures`, and the runs in the order of `outputs`: the run
      that maximises Measures[k] sits at position k. */
  const Measures: seq<Measure> := [Output, Preference, GrossProfit, SkillProgression]

  // ----- scaling one measure across the runs (lines 436-442) -----

  /** One entry of outputs_perc: 0 when the best value rounds to 0, else
      the value as a rounded percentage of the best. */
  function Percent(output: real, top: real): int {
    if RoundHalfEven(top) == 0 then 0 else RoundHalfEven(output / top * 100.0)
  }

  function Percentages(outputs: seq<real>): (ps: seq<int>)
    requires |outputs| > 0
    ensures |ps| == |outputs|
  {
    seq(|outputs|, k requires 0 <= k < |outputs| => Percent(outputs[k], MaxOf(outputs)))
  }

  /** Lines 437-442. */
  method PercentRow(outputs: seq<real>) returns (ps: seq<int>)
    requires |outputs| > 0
    ensures ps == Percentages(outputs)
  {
    ps := [];
    for k := 0 to |outputs|
      invariant ps == Percentages(outputs)[..k]
    {
      var top := MaxOf(outputs);
      if RoundHalfEven(top) == 0 {
        ps := ps + [0];
      } else {
        ps := ps + [RoundHalfEven(outputs[k] / top * 100.0)];
      }
    }
  }

  /** When the best value rounds to 0, every entry is 0. */
  lemma PercentagesVanish(outputs: seq<real>)
    requires |outputs| > 0 && RoundHalfEven(MaxOf(outputs)) == 0
    ensures forall k | 0 <= k < |outputs| :: Percentages(outputs)[k] == 0
  {
  }

  /** A value that does not round to 0, as a percentage of itself, is 100. */
  lemma PercentOfItself(x: real)
    requires RoundHalfEven(x) != 0
    ensures Percent(x, x) == 100
  {
    assert x != 0.0;
    SelfRatio(x);
    RoundWhole(100);
  }

  lemma SelfRatio(x: real)
    requires x != 0.0
    ensures x / x * 100.0 == 100.0
  {
    var q := x / x;
    assert q * x == x;
    assert (q - 1.0) * x == 0.0;
  }

  /** The best entry scores 100 unless the best value rounds to 0. */
  lemma TopScoresHundred(outputs: seq<real>, j: nat)
    requires j < |outputs| && forall k | 0 <= k < |outputs| :: outputs[k] <= outputs[j]
    requires RoundHalfEven(outputs[j]) != 0
    ensures Percentages(outputs)[j] == 100
  {
    var top := MaxOf(outputs);
    assert top == outputs[j];
    assert Percentages(outputs)[j] == Percent(outputs[j], top);
    PercentOfItself(top);
  }

  /** For non-negative values every entry is a percentage in [0, 100]. */
  lemma PercentagesInRange(outputs: seq<real>)
    requires |outputs| > 0 && forall k | 0 <= k < |outputs| :: outputs[k] >= 0.0
    ensures forall k | 0 <= k < |outputs| :: 0 <= Percentages(outputs)[k] <= 100
  {
    var top := MaxOf(outputs);
    forall k | 0 <= k < |outputs|
      ensures 0 <= Percentages(outputs)[k] <= 100
    {
      if RoundHalfEven(top) != 0 {
        RatioBounds(outputs[k], top);
        var q := outputs[k] / top * 100.0;
        RoundMonotone(0.0, q);
        RoundMonotone(q, 100.0);
        RoundWhole(0);
        RoundWhole(100);
      }
    }
  }

  /** With a positive best value the scaling keeps the order of the runs. */
  lemma PercentagesKeepOrder(outputs: seq<real>, i: nat, k: nat)
    requires i < |outputs| && k < |outputs| && outputs[i] <= outputs[k]
    requires MaxOf(outputs) > 0.0
    ensures Percentages(outputs)[i] <= Percentages(outputs)[k]
  {
    var top := MaxOf(outputs);
    if RoundHalfEven(top) != 0 {
      QuotientMonotone(outputs[i], outputs[k], top);
      RoundMonotone(outputs[i] / top * 100.0, outputs[k] / top * 100.0);
    }
  }

  lemma QuotientMonotone(a: real, b: real, t: real)
    requires a <= b && t > 0.0
    ensures a / t <= b / t
  {
    var qa, qb := a / t, b / t;
    assert qa * t == a && qb * t == b;
    assert (qb - qa) * t == b - a;
  }

  // ----- the table over the four measures (lines 433-443) -----

  /** `outputs` for one measure: its score under each run. */
  function RowOf(runs: seq<Scores>, m: Measure): (row: seq<real>)
    ensures |row| == |runs| && forall k | 0 <= k < |runs| :: row[k] == ScoreOf(runs[k], m)
  {
    seq(|runs|, k requires 0 <= k < |runs| => ScoreOf(runs[k], m))
  }

  /** measure_results. */
  function ComparisonOf(runs: seq<Scores>): map<Measure, seq<int>>
    requires |runs| > 0
  {
    map m | m in Measures :: Percentages(RowOf(runs, m))
  }

  method CompareRuns(runs: seq<Scores>) returns (results: map<Measure, seq<int>>)
    requires |runs| > 0
    ensures results == ComparisonOf(runs)
  {
    results := map[];
    for i := 0 to |Measures|
      invariant forall m :: m in results <==> m in Measures[..i]
      invariant forall m | m in results :: results[m] == Percentages(RowOf(runs, m))
    {
      var m := Measures[i];
      var row := RowOf(runs, m);
      var ps := PercentRow(row);
      results := results[m := ps];
    }
    assert Measures[..|Measures|] == Measures;
  }

  // ----- one run and the page -----

  /** round(run[2]*100). */
  function ParticipationPercent(p: real): int {
    RoundHalfEven(p * 100.0)
  }

  lemma ParticipationPercentRange(p: real)
    requires 0.0 <= p <= 1.0
    ensures 0 <= ParticipationPercent(p) <= 100
  {
    RoundMonotone(0.0, p * 100.0);
    RoundMonotone(p * 100.0, 100.0);
    RoundWhole(0);
    RoundWhole(100);
  }

  /** The external solver: from the Pyomo model to the solved cube. */
  type Solver = (Expr, seq<Constraint>) -> Cube

  /** What one Optimize.max* call shows on the page. */
  datatype Run = Run(table: Timetable, scores: Scores, participation: int)

  /** The page: the four runs in the order of Measures, and measure_results. */
  datatype Page = Page(runs: seq<Run>, measures: map<Measure, seq<int>>)

  function SolvedCube(inp: Inputs, solve: Solver, m: Measure): Cube {
    solve(ObjectiveExpr(inp, m), SharedConstraints(inp))
  }

  function ScoresOf(inp: Inputs, cube: Cube): Scores {
    Scores(Round2(MeasureValue(inp, cube, Output)), Round2(MeasureValue(inp, cube, Preference)),
           Round2(MeasureValue(inp, cube, GrossProfit)), Round2(MeasureValue(inp, cube, SkillProgression)))
  }

  /** One run. maxOutput's warnings loop raises KeyError when max_values
      names something that is not a skill, before anything is extracted;
      participation() divides by zero when no worker of the table is
      available anywhere. */
  function RunOf(inp: Inputs, solve: Solver, m: Measure): Result<Run> {
    var cube := SolvedCube(inp, solve, m);
    if m == Output && !BoundsNameSkills(inp) then Failure("KeyError")
    else match ParticipationOf(inp, cube)
    case None => Failure("ZeroDivisionError")
    case Some(p) => Success(Run(TimetableOf(inp, cube), ScoresOf(inp, cube), ParticipationPercent(p)))
  }

  /** Optimize.max<m> followed by round(run[2]*100). */
  method SolveRun(inp: Inputs, solve: Solver, m: Measure) returns (r: Result<Run>)
    requires WellFormed(inp)
    ensures r == RunOf(inp, solve, m)
  {
    var objective, constraints := Formulate(inp, m);
    var cube := solve(objective, constraints);
    if m == Output {
      var ok := WarningsLoop(inp);
      if !ok {
        return Failure("KeyError");
      }
    }
    var table, scores, participation := ExtractResults(inp, cube);
    assert ScoreOf(scores, Output) == Round2(MeasureValue(inp, cube, Output));
    assert ScoreOf(scores, Preference) == Round2(MeasureValue(inp, cube, Preference));
    assert ScoreOf(scores, GrossProfit) == Round2(MeasureValue(inp, cube, GrossProfit));
    assert ScoreOf(scores, SkillProgression) == Round2(MeasureValue(inp, cube, SkillProgression));
    if participation.None? {
      return Failure("ZeroDivisionError");
    }
    r := Success(Run(table, scores, ParticipationPercent(participation.value)));
  }

  /** The page from the four runs, failing with the first run that fails in
      the order of the calls (output, gross profit, preferences, progression). */
  function PageFrom(o: Result<Run>, p: Result<Run>, g: Result<Run>, s: Result<Run>): Result<Page> {
    if o.Failure? then Failure(o.error)
    else if g.Failure? then Failure(g.error)
    else if p.Failure? then Failure(p.error)
    else if s.Failure? then Failure(s.error)
    else
      var runs := [o.value, p.value, g.value, s.value];
      Success(Page(runs, ComparisonOf([o.value.scores, p.value.scores, g.value.scores, s.value.scores])))
  }

  function PageOf(form: seq<FormField>, rs: seq<WorkerRecord>, shiftRows: seq<ShiftRow>, skillRows: seq<SkillRow>,
                  d: int, ln: int -> real, fit: (seq<real>, seq<real>) -> real, solve: Solver): Result<Page> {
    match ScenarioOf(form, rs, shiftRows, skillRows, d, ln, fit)
    case Failure(e) => Failure(e)
    case Success(inp) =>
      PageFrom(RunOf(inp, solve, Output), RunOf(inp, solve, Preference),
               RunOf(inp, solve, GrossProfit), RunOf(inp, solve, SkillProgression))
  }

  /** Only the output run can raise KeyError, and it does exactly when
      max_values has a key that is not a skill. */
  lemma RunKeyError(inp: Inputs, solve: Solver, m: Measure)
    ensures RunOf(inp, solve, m) == Failure("KeyError") <==> m == Output && !BoundsNameSkills(inp)
  {
  }

  /** The bound maps name only skills exactly when every `max_` field of the
      form names a skill row. */
  lemma FormBoundsNameSkills(form: seq<FormField>, rs: seq<WorkerRecord>, shiftRows: seq<ShiftRow>, skillRows: seq<SkillRow>,
                             d: int, ln: int -> real, fit: (seq<real>, seq<real>) -> real)
    requires ScenarioOf(form, rs, shiftRows, skillRows, d, ln, fit).Success?
    ensures BoundsNameSkills(ScenarioOf(form, rs, shiftRows, skillRows, d, ln, fit).value) <==>
      forall k | 0 <= k < |form| && StartsWith(form[k].key, "max_") :: NameOf(form[k].key) in SkillNames(skillRows)
  {
    var inp := ScenarioOf(form, rs, shiftRows, skillRows, d, ln, fit).value;
    assert inp.maxValues == BoundsFrom(form, "max_") && inp.skills == SkillNames(skillRows);
    if BoundsNameSkills(inp) {
      forall k | 0 <= k < |form| && StartsWith(form[k].key, "max_")
        ensures NameOf(form[k].key) in SkillNames(skillRows)
      {
        BoundsKeys(form, "max_", NameOf(form[k].key));
      }
    } else {
      var name :| name in inp.maxValues && name !in inp.skills;
      BoundsKeys(form, "max_", name);
    }
  }

  /** A `max_` field that names no skill row (a skill deleted since the form
      was rendered, or a field added by hand) makes the view fail with
      KeyError in maxOutput, the first of the four solves. */
  lemma StrayMaxFieldFails(form: seq<FormField>, rs: seq<WorkerRecord>, shiftRows: seq<ShiftRow>, skillRows: seq<SkillRow>,
                           d: int, ln: int -> real, fit: (seq<real>, seq<real>) -> real, solve: Solver, k: nat)
    requires ScenarioOf(form, rs, shiftRows, skillRows, d, ln, fit).Success?
    requires k < |form| && StartsWith(form[k].key, "max_") && NameOf(form[k].key) !in SkillNames(skillRows)
    ensures PageOf(form, rs, shiftRows, skillRows, d, ln, fit, solve) == Failure("KeyError")
  {
    var inp := ScenarioOf(form, rs, shiftRows, skillRows, d, ln, fit).value;
    FormBoundsNameSkills(form, rs, shiftRows, skillRows, d, ln, fit);
    RunKeyError(inp, solve, Output);
  }

  /** planning_result for a valid form (lines 337-446). */
  method PlanningResult(form: seq<FormField>, rs: seq<WorkerRecord>, shiftRows: seq<ShiftRow>, skillRows: seq<SkillRow>,
                        d: int, ln: int -> real, fit: (seq<real>, seq<real>) -> real, solve: Solver) returns (page: Result<Page>)
    requires ScenarioOf(form, rs, shiftRows, skillRows, d, ln, fit).Success? ==>
      WellFormed(ScenarioOf(form, rs, shiftRows, skillRows, d, ln, fit).value)
    ensures page == PageOf(form, rs, shiftRows, skillRows, d, ln, fit, solve)
  {
    var scenario := AssembleScenario(form, rs, shiftRows, skillRows, d, ln, fit);
    if scenario.Failure? {
      return Failure(scenario.error);
    }
    var inp := scenario.value;
    var o := SolveRun(inp, solve, Output);
    var g := SolveRun(inp, solve, GrossProfit);
    var p := SolveRun(inp, solve, Preference);
    var s := SolveRun(inp, solve, SkillProgression);
    if o.Failure? { return Failure(o.error); }
    if g.Failure? { return Failure(g.error); }
    if p.Failure? { return Failure(p.error); }
    if s.Failure? { return Failure(s.error); }
    var measures := CompareRuns([o.value.scores, p.value.scores, g.value.scores, s.value.scores]);
    page := Success(Page([o.value, p.value, g.value, s.value], measures));
  }

  // ----- what the page promises when the solver does its job -----

  /** The solver's promise: a cube that meets every constraint and that no
      other such cube beats on the objective. */
  ghost predicate SolvedOptimally(solve: Solver, objective: Expr, constraints: seq<Constraint>) {
    && AllHold(constraints, solve(objective, constraints))
    && forall c: Cube :: AllHold(constraints, c) ==> Eval(objective, c) <= Eval(objective, solve(objective, constraints))
  }

  lemma Round2Monotone(x: real, y: real)
    requires x <= y
    ensures Round2(x) <= Round2(y)
  {
    RoundMonotone(x * 100.0, y * 100.0);
  }

  /** Solved optimally, the run for measure m is feasible and scores at least
      as high on m as the run for any other measure. */
  lemma OptimalRunLeads(inp: Inputs, solve: Solver, m: Measure, other: Measure)
    requires WellFormed(inp)
    requires SolvedOptimally(solve, ObjectiveExpr(inp, m), SharedConstraints(inp))
    requires SolvedOptimally(solve, ObjectiveExpr(inp, other), SharedConstraints(inp))
    ensures Feasible(inp, SolvedCube(inp, solve, m))
    ensures ScoreOf(ScoresOf(inp, SolvedCube(inp, solve, other)), m) <= ScoreOf(ScoresOf(inp, SolvedCube(inp, solve, m)), m)
  {
    var best, rival := SolvedCube(inp, solve, m), SolvedCube(inp, solve, other);
    SharedConstraintsMeaning(inp, best);
    SharedConstraintsMeaning(inp, rival);
    ObjectiveIsMeasure(inp, m, best);
    ObjectiveIsMeasure(inp, m, rival);
    assert AllHold(SharedConstraints(inp), rival);
    Round2Monotone(MeasureValue(inp, rival, m), MeasureValue(inp, best, m));
  }

  /** Solved optimally, a run that succeeds shows a participation in [0, 100]. */
  lemma RunParticipation(inp: Inputs, solve: Solver, m: Measure)
    requires WellFormed(inp) && AvailabilityComplete(inp)
    requires SolvedOptimally(solve, ObjectiveExpr(inp, m), SharedConstraints(inp))
    requires RunOf(inp, solve, m).Success?
    ensures 0 <= RunOf(inp, solve, m).value.participation <= 100
  {
    OptimalRunLeads(inp, solve, m, m);
    var cube := SolvedCube(inp, solve, m);
    ParticipationAtMostOne(inp, cube);
    ParticipationPercentRange(ParticipationOf(inp, cube).value);
  }

  /** Solved optimally, each measure's own run has the best score on it, so
      its entry in the table is 100 unless that score rounds to 0. */
  lemma DiagonalEntry(inp: Inputs, solve: Solver, scores: seq<Scores>, j: nat)
    requires WellFormed(inp)
    requires forall m: Measure :: SolvedOptimally(solve, ObjectiveExpr(inp, m), SharedConstraints(inp))
    requires |scores| == 4 && j < 4
    requires forall k | 0 <= k < 4 :: scores[k] == ScoresOf(inp, SolvedCube(inp, solve, Measures[k]))
    requires RoundHalfEven(ScoreOf(scores[j], Measures[j])) != 0
    ensures Percentages(RowOf(scores, Measures[j]))[j] == 100
  {
    var m := Measures[j];
    var row := RowOf(scores, m);
    forall k | 0 <= k < 4
      ensures row[k] <= row[j]
    {
      OptimalRunLeads(inp, solve, m, Measures[k]);
    }
    TopScoresHundred(row, j);
  }

  /** The four runs of one scenario, solved optimally: every participation
      is in [0, 100], and each measure's own run scores 100 on it unless its
      score rounds to 0. */
  lemma ScenarioPage(inp: Inputs, solve: Solver)
    requires WellFormed(inp) && AvailabilityComplete(inp)
    requires forall m: Measure :: SolvedOptimally(solve, ObjectiveExpr(inp, m), SharedConstraints(inp))
    requires PageFrom(RunOf(inp, solve, Output), RunOf(inp, solve, Preference),
                      RunOf(inp, solve, GrossProfit), RunOf(inp, solve, SkillProgression)).Success?
    ensures var page := PageFrom(RunOf(inp, solve, Output), RunOf(inp, solve, Preference),
                                 RunOf(inp, solve, GrossProfit), RunOf(inp, solve, SkillProgression)).value;
      && |page.runs| == 4
      && (forall k | 0 <= k < 4 :: 0 <= page.runs[k].participation <= 100)
      && forall j | 0 <= j < 4 :: RoundHalfEven(ScoreOf(page.runs[j].scores, Measures[j])) != 0 ==>
           page.measures[Measures[j]][j] == 100
  {
    var o, p, g, s := RunOf(inp, solve, Output), RunOf(inp, solve, Preference),
                      RunOf(inp, solve, GrossProfit), RunOf(inp, solve, SkillProgression);
    var runs := [o.value, p.value, g.value, s.value];
    PageOfRuns(o, p, g, s);
    RunsParticipation(inp, solve, runs);
    RunsDiagonal(inp, solve, runs);
  }

  /** A page is made of the four runs, in the order of Measures. */
  lemma PageOfRuns(o: Result<Run>, p: Result<Run>, g: Result<Run>, s: Result<Run>)
    requires PageFrom(o, p, g, s).Success?
    ensures o.Success? && p.Success? && g.Success? && s.Success?
    ensures PageFrom(o, p, g, s).value ==
      Page([o.value, p.value, g.value, s.value], ComparisonOf([o.value.scores, p.value.scores, g.value.scores, s.value.scores]))
  {
  }

  /** The rows of measure_results follow line 436: entry k of the row for m
      is the rounded m-metric of the run that maximised Measures[k], that
      is output, preferences, gross profit, progression, although the runs
      are made in the order output, gross profit, preferences, progression. */
  lemma PageRowOrder(inp: Inputs, solve: Solver, m: Measure)
    requires PageFrom(RunOf(inp, solve, Output), RunOf(inp, solve, Preference),
                      RunOf(inp, solve, GrossProfit), RunOf(inp, solve, SkillProgression)).Success?
    ensures var page := PageFrom(RunOf(inp, solve, Output), RunOf(inp, solve, Preference),
                                 RunOf(inp, solve, GrossProfit), RunOf(inp, solve, SkillProgression)).value;
      var row := RowOf([page.runs[0].scores, page.runs[1].scores, page.runs[2].scores, page.runs[3].scores], m);
      && |page.runs| == 4
      && m in page.measures && page.measures[m] == Percentages(row)
      && forall k | 0 <= k < 4 :: row[k] == Round2(MeasureValue(inp, SolvedCube(inp, solve, Measures[k]), m))
  {
    var o, p, g, s := RunOf(inp, solve, Output), RunOf(inp, solve, Preference),
                      RunOf(inp, solve, GrossProfit), RunOf(inp, solve, SkillProgression);
    PageOfRuns(o, p, g, s);
    var runs := [o.value, p.value, g.value, s.value];
    var row := RowOf([runs[0].scores, runs[1].scores, runs[2].scores, runs[3].scores], m);
    forall k | 0 <= k < 4
      ensures row[k] == Round2(MeasureValue(inp, SolvedCube(inp, solve, Measures[k]), m))
    {
      assert k == 0 || k == 1 || k == 2 || k == 3;
      RunScore(inp, solve, Measures[k], m);
    }
  }

  /** A successful run shows the rounded metrics of its solved cube. */
  lemma RunScore(inp: Inputs, solve: Solver, r: Measure, m: Measure)
    requires RunOf(inp, solve, r).Success?
    ensures ScoreOf(RunOf(inp, solve, r).value.scores, m) == Round2(MeasureValue(inp, SolvedCube(inp, solve, r), m))
  {
  }

  /** The participation of each of the four runs is in [0, 100]. */
  lemma RunsParticipation(inp: Inputs, solve: Solver, runs: seq<Run>)
    requires WellFormed(inp) && AvailabilityComplete(inp)
    requires forall m: Measure :: SolvedOptimally(solve, ObjectiveExpr(inp, m), SharedConstraints(inp))
    requires |runs| == 4
    requires RunOf(inp, solve, Output) == Success(runs[0]) && RunOf(inp, solve, Preference) == Success(runs[1])
    requires RunOf(inp, solve, GrossProfit) == Success(runs[2]) && RunOf(inp, solve, SkillProgression) == Success(runs[3])
    ensures forall k | 0 <= k < 4 :: 0 <= runs[k].participation <= 100
  {
    RunParticipation(inp, solve, Output);
    RunParticipation(inp, solve, Preference);
    RunParticipation(inp, solve, GrossProfit);
    RunParticipation(inp, solve, SkillProgression);
    forall k | 0 <= k < 4
      ensures 0 <= runs[k].participation <= 100
    {
      assert k == 0 || k == 1 || k == 2 || k == 3;
    }
  }

  /** Each measure's own run scores 100 on it unless its score rounds to 0. */
  lemma RunsDiagonal(inp: Inputs, solve: Solver, runs: seq<Run>)
    requires WellFormed(inp)
    requires forall m: Measure :: SolvedOptimally(solve, ObjectiveExpr(inp, m), SharedConstraints(inp))
    requires |runs| == 4
    requires RunOf(inp, solve, Output) == Success(runs[0]) && RunOf(inp, solve, Preference) == Success(runs[1])
    requires RunOf(inp, solve, GrossProfit) == Success(runs[2]) && RunOf(inp, solve, SkillProgression) == Success(runs[3])
    ensures forall j | 0 <= j < 4 :: RoundHalfEven(ScoreOf(runs[j].scores, Measures[j])) != 0 ==>
      ComparisonOf([runs[0].scores, runs[1].scores, runs[2].scores, runs[3].scores])[Measures[j]][j] == 100
  {
    var scores := [runs[0].scores, runs[1].scores, runs[2].scores, runs[3].scores];
    forall k | 0 <= k < 4
      ensures scores[k] == ScoresOf(inp, SolvedCube(inp, solve, Measures[k]))
    {
      assert k == 0 || k == 1 || k == 2 || k == 3;
      assert scores[k] == runs[k].scores;
    }
    forall j | 0 <= j < 4 && RoundHalfEven(ScoreOf(runs[j].scores, Measures[j])) != 0
      ensures ComparisonOf(scores)[Measures[j]][j] == 100
    {
      assert scores[j] == runs[j].scores;
      DiagonalEntry(inp, solve, scores, j);
    }
  }

  /** The radar chart of planning_result, for a form and records that give a
      well-formed scenario and a solver that solves optimally. */
  lemma PageGuarantees(form: seq<FormField>, rs: seq<WorkerRecord>, shiftRows: seq<ShiftRow>, skillRows: seq<SkillRow>,
                       d: int, ln: int -> real, fit: (seq<real>, seq<real>) -> real, solve: Solver)
    requires ScenarioOf(form, rs, shiftRows, skillRows, d, ln, fit).Success?
    requires WellFormed(ScenarioOf(form, rs, shiftRows, skillRows, d, ln, fit).value)
    requires AvailabilityComplete(ScenarioOf(form, rs, shiftRows, skillRows, d, ln, fit).value)
    requires forall m: Measure :: SolvedOptimally(solve, ObjectiveExpr(ScenarioOf(form, rs, shiftRows, skillRows, d, ln, fit).value, m),
                                                  SharedConstraints(ScenarioOf(form, rs, shiftRows, skillRows, d, ln, fit).value))
    requires PageOf(form, rs, shiftRows, skillRows, d, ln, fit, solve).Success?
    ensures var page := PageOf(form, rs, shiftRows, skillRows, d, ln, fit, solve).value;
      && |page.runs| == 4
      && (forall k | 0 <= k < 4 :: 0 <= page.runs[k].participation <= 100)
      && forall j | 0 <= j < 4 :: RoundHalfEven(ScoreOf(page.runs[j].scores, Measures[j])) != 0 ==>
           page.measures[Measures[j]][j] == 100
  {
    ScenarioPage(ScenarioOf(form, rs, shiftRows, skillRows, d, ln, fit).value, solve);
  }
}
