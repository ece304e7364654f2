# spdss scheduling core in Dafny

spdss plans one day of work. The planner picks a date and sets, per skill, a
minimum and a maximum output. Then `planning_result` (planning/views.py) reads
three things from the database:

- who is available on that date, and for which shifts;
- each worker's productivity history per skill, and their preferred skill;
- the shift lengths, and each skill's workplaces and gross profit.

From these it builds twelve dictionaries. It hands them to the four
`Optimize.max*` methods (planning/solver.py). Each method builds a binary
assignment cube `works[skill, worker, shift]` under one shared set of
constraints and maximises one objective:

| Method | Maximises |
|---|---|
| `maxOutput` | total output |
| `maxPreferences` | preference |
| `maxGrossProfit` | gross profit |
| `maxProgression` | skill progression |

The CBC solver fills the cube. Each method then reads back three things:

- a timetable;
- four metrics, rounded to two decimals;
- a participation ratio.

The view places the four runs side by side as percentages of the best run.

The model follows that structure, one module per stage:

| Module | File | Contents |
|---|---|---|
| `Common` | common.dfy | `Option`, `Result`, list distinctness, `max()` of a list, and Python's `round` (ties to even) on exact reals |
| `Scenario` | scenario.dfy | The twelve optimiser arguments (`Inputs`), the cube, and `WellFormed`: every dictionary key the constraints, objectives and metrics read is present |
| `Feasibility` | feasibility.dfy | The four constraint families as a predicate `Feasible` on the cube |
| `Linear` | linear.dfy | Pyomo's linear expressions and constraints as a small syntax tree with an evaluator, and the "is a plain number" test Pyomo's `type(temp) is float` amounts to |
| `Constraints` | constraints.dfy | The loops that add constraints to the `ConstraintList`, and the proof that the list holds exactly when `Feasible` does |
| `Objectives` | objectives.dfy | The four `obj_function` expressions and the four metrics, and the proof that each objective evaluates to its metric |
| `Extraction` | extraction.dfy | `timetable`, the metric loops and `participation`, proved against specification functions, plus what a feasible cube guarantees about them |
| `Assembly` | assembly.dfy | `planning_result` up to the solver calls: bound parsing, availability flags, productivity, preference and progression, and the shift and skill tables |
| `Comparison` | comparison.dfy | The four runs, the percentage table, the participation percentages, and what they guarantee when the solver solves optimally |

Nothing is solved. The solver is a parameter `Solver = (Expr,
seq<Constraint>) -> Cube`. Lemmas that need an optimum take it as a hypothesis
(`SolvedOptimally`). Other parameters stand for outside code:

- the curve-fit slope and `np.log` are functions;
- the database rows are sequences in query order;
- dates are day numbers (`date.toordinal()`).

Where the source and its documentation disagree, the model follows the source:

- The progression rate divides the slope by `max(x)`, which is the logarithm of the longest observation span, not by the span itself.
- When a worker has observations for a skill but none on or before the planning date, the lookup `order_by('-date')[0]` raises `IndexError` (`Failure("IndexError")` here). It is not treated as a productivity of 0.
- The bound maps hold every `max_` field the form posts, not only those of existing skills. maxOutput's `warnings` loop indexes the cube with each of their keys, so a field naming no skill (a skill deleted since the form was rendered, or a field added by hand) raises `KeyError` (`Failure("KeyError")` here) and the view fails.

## Model

| member | source | states |
|---|---|---|
| Common.MaxOf | planning/views.py:403 | `max()` of a non-empty list: the result is an element and no element exceeds it |
| Common.RoundHalfEven | planning/views.py:439-442 | `round()`: the result is within 0.5 of the argument; on a tie it is even |
| Common.Round2 | planning/solver.py:139 | `round(x, 2)`: the result is within 0.005 of x |
| Feasibility.SkillCountZero | planning/solver.py:64-68 | A worker has no skill in a shift exactly when the count of skills is 0 |
| Feasibility.SkillCountTwo | planning/solver.py:64-68 | Two different skills in one shift make the count at least 2, which the one-skill rule forbids |
| Feasibility.WorkerCountPositive | planning/solver.py:79-83 | An assigned worker counts towards the workplaces of that skill and shift |
| Feasibility.ConstantOutputIsZero | planning/solver.py:87-103 | When the bound is skipped, the skill's output is 0 on every cube |
| Linear.NumberIgnoresCube | planning/solver.py:89 | An expression that is a plain number has the same value on every cube |
| Constraints.SkillsSumCounts | planning/solver.py:67 | `sum(works[skill, w, h] for skill in skills)` evaluates to the number of skills assigned |
| Constraints.WorkersSumCounts | planning/solver.py:82 | `sum(works[s, worker, h] for worker in workers)` evaluates to the number of workers assigned |
| Constraints.OutputTermValue | planning/solver.py:88 | The inner sum evaluates to the skill's output in one shift |
| Constraints.OutputExprValue | planning/solver.py:88 | `temp` evaluates to the skill's output over all shifts |
| Constraints.OutputTermConstant | planning/solver.py:88-89 | The inner sum is a plain number exactly when every worker's productivity for the skill is 0 |
| Constraints.OutputExprConstant | planning/solver.py:88-89 | `temp` is a plain number exactly when every term drops out: each shift has length 0 or all productivities for the skill are 0 |
| Constraints.SkipTestMeaning | planning/solver.py:87-103 | The skip test holds exactly when the skill's output does not depend on the cube |
| Constraints.OneSkillRowMeaning | planning/solver.py:65-68 | The rows for one shift hold exactly when each worker has at most one skill in it |
| Constraints.OneSkillRowsMeaning | planning/solver.py:64-68 | The one-skill rows hold exactly when no worker has two skills in a shift |
| Constraints.AvailabilityRowMeaning | planning/solver.py:72-76 | One worker's rows hold exactly when the worker has no skill in any shift flagged 0 |
| Constraints.AvailabilityRowsMeaning | planning/solver.py:71-76 | The availability rows hold exactly when no worker is assigned to a shift flagged 0 |
| Constraints.CapacityRowMeaning | planning/solver.py:80-83 | One shift's rows hold exactly when no skill has more workers than its workplaces |
| Constraints.CapacityRowsMeaning | planning/solver.py:79-83 | The workplace rows hold exactly when no skill exceeds its workplaces in any shift |
| Constraints.MaxRowsMeaning | planning/solver.py:86-93 | The max rows hold exactly when every skill whose output is not constant stays at or below its maximum |
| Constraints.MinRowsMeaning | planning/solver.py:96-103 | The min rows hold exactly when every skill whose output is not constant reaches its minimum |
| Constraints.SharedConstraintsMeaning | planning/solver.py:64-103 | All the constraints hold exactly when the cube is `Feasible` |
| Constraints.AddOneSkillRows | planning/solver.py:64-68 | The loop appends exactly the one-skill rows, in order |
| Constraints.AddAvailabilityRows | planning/solver.py:71-76 | The loop appends exactly the availability rows, in order |
| Constraints.AddWorkerAvailability | planning/solver.py:72-76 | For one worker, the shift loop appends a zero row exactly for the shifts flagged 0 |
| Constraints.AddCapacityRows | planning/solver.py:79-83 | The loop appends exactly the workplace rows, in order |
| Constraints.AddBoundRows | planning/solver.py:86-103 | The loop yields the max rows, then the min rows, each skipped where `temp` is a plain number |
| Constraints.BuildConstraints | planning/solver.py:59-103 | The constraint list that is built holds on a cube exactly when the cube is feasible |
| Objectives.SkillShiftTermValue | planning/solver.py:54 | One summand of the output and gross-profit objectives evaluates to output × length, times profit for gross profit |
| Objectives.SkillShiftsTotalValue | planning/solver.py:53-54 | The shift loop adds the skill's output (or profit) over those shifts |
| Objectives.SkillMajorTotalValue | planning/solver.py:50-55 | The objective of maxOutput (and of maxGrossProfit) evaluates to the output (or gross-profit) metric |
| Objectives.WeightSumValue | planning/solver.py:347 | The inner sum evaluates to the worker's weighted assignments in a shift |
| Objectives.WorkerShiftsTotalValue | planning/solver.py:346-347 | The shift loop adds the worker's weighted assignments × shift length |
| Objectives.WorkerMajorTotalValue | planning/solver.py:343-348 | The objective of maxPreferences (and of maxProgression) evaluates to the preference (or progression) metric |
| Objectives.ObjectiveIsMeasure | planning/solver.py:486-491 | Each of the four objectives, evaluated on a cube, is the matching metric of that cube before rounding |
| Objectives.SkillProfitIsScaledOutput | planning/solver.py:148-153 | A skill's gross profit is its gross profit per unit times its output |
| Objectives.UniformProfit | planning/solver.py:134-153 | With one gross profit g for all skills, the gross-profit metric is g × the output metric |
| Objectives.SkillMajorObjective | planning/solver.py:200-205 | The `total +=` loop builds exactly the skill-major objective expression |
| Objectives.WorkerMajorObjective | planning/solver.py:343-348 | The `total +=` loop builds exactly the worker-major objective expression |
| Objectives.Formulate | planning/solver.py:214-253 | Each method's model: its objective evaluates to its metric, and its constraints hold exactly on feasible cubes |
| Extraction.AssignedMembership | planning/solver.py:115-116 | A worker is in a cell exactly when the cube assigns them that skill and shift |
| Extraction.AssignedAppend | planning/solver.py:112-116 | Cells are filled in the order of `workers` |
| Extraction.AssignedCount | planning/solver.py:115-116 | A cell's length is the number of workers the cube assigns there |
| Extraction.AssignedDistinct | planning/solver.py:112-116 | No worker appears twice in a cell |
| Extraction.PlaceInShifts | planning/solver.py:114-116 | The shift loop appends the worker to the cells of one skill where the cube says so |
| Extraction.PlaceWorker | planning/solver.py:113-116 | The skill loop adds one worker to every cell where the cube says so |
| Extraction.BuildTimetable | planning/solver.py:110-117 | `timetable` returns exactly `TimetableOf`: every shift and skill present, each cell the assigned workers in `workers` order |
| Extraction.TimetableMembership | planning/solver.py:110-117 | A worker is in `table[shift][skill]` exactly when the cube assigns them there |
| Extraction.OneSkillInTimetable | planning/solver.py:64-68 | For a feasible cube no worker appears under two skills of the same shift |
| Extraction.UnavailableNotInTimetable | planning/solver.py:71-76 | For a feasible cube, a worker flagged 0 for a shift appears in none of its cells |
| Extraction.TimetableWithinCapacity | planning/solver.py:79-83 | For a feasible cube every cell has distinct workers, no more than the skill's workplaces |
| Extraction.LoadExchange | planning/solver.py:127-131 | Counting a worker's assignments skill-major or shift-major gives the same number |
| Extraction.LoadWithinAvailability | planning/solver.py:119-131 | For a feasible cube a worker's assignments are at most their available shifts |
| Extraction.DeployedWithinTotal | planning/solver.py:119-132 | For a feasible cube, `deployed` is at most `total` |
| Extraction.ParticipationAtMostOne | planning/solver.py:119-132 | For a feasible cube with availability for every worker, participation lies in [0, 1] |
| Extraction.Participation | planning/solver.py:119-132 | The two counting loops give deployed/total, or no value where total is 0 (ZeroDivisionError) |
| Extraction.AddSkillShifts | planning/solver.py:151-152 | The shift loop for one skill adds that skill's output, or its gross profit, to the running total |
| Extraction.SkillMajorMeasure | planning/solver.py:148-153 | The `output` and `grossprofit` loops give the metric rounded to 2 decimals |
| Extraction.WorkerMajorMeasure | planning/solver.py:155-160 | The `preference` and `skillprogression` loops give the metric rounded to 2 decimals |
| Extraction.WarningsLoop | planning/solver.py:162-167 | The loop over `max_values` gets through exactly when every key of `max_values` is a skill, and otherwise raises KeyError |
| Extraction.ExtractResults | planning/solver.py:169 | The method's result: the timetable, each score equal to the rounded metric, and the participation |
| Assembly.FoldMapValue | planning/views.py:413-422 | A key filled in a loop holds the value of the last item with that key, so each item's value when no later item repeats the key |
| Assembly.FoldMapKeys | planning/views.py:413-422 | A dictionary filled in a loop has exactly the keys of the loop's items |
| Assembly.ParseBounds | planning/views.py:340-345 | The loop fills `min_values` and `max_values` as `BoundsFrom` says |
| Assembly.BoundsLookup | planning/views.py:340-345 | With distinct keys, a field `min_<s>` (or `max_<s>`) sets the bound of `s` to its value |
| Assembly.OtherFieldIgnored | planning/views.py:340-345 | A field with neither prefix, such as `date`, changes neither map |
| Assembly.BoundsKeys | planning/views.py:340-345 | A skill has a bound exactly when some field with the prefix names it |
| Assembly.AvailabilityFlags | planning/views.py:357-363 | The shift loop fills `user_availability` as `FlagsOf` says |
| Assembly.FlagsMeaning | planning/views.py:358-362 | Every shift gets a flag; it is 1 exactly when the shift is in the worker's availability, else 0 |
| Assembly.LatestNone | planning/views.py:370 | The productivity lookup finds nothing exactly when every observation is after the date |
| Assembly.LatestFound | planning/views.py:370 | Otherwise it finds an observation on or before the date, with no later such observation |
| Assembly.PreferenceWeights | planning/views.py:369-378 | Preference is in {0, 1, 2}. It is 0 exactly for a skill without history, whose productivity is then 0. It is 2 exactly for the preferred skill with history |
| Assembly.SeriesX | planning/views.py:390-397 | x has one entry per observation, and x[0] = 0 |
| Assembly.Series | planning/views.py:390-399 | The loop with `i` and `dt` builds x (0, then ln of the days since the first observation) and y (the productivities) |
| Assembly.ProgressionSign | planning/views.py:383-403 | With two or more observations, max(x) ≥ 0. The rate is 0.5 when max(x) = 0. Otherwise it is positive exactly when the slope is positive, and negative exactly when the slope is negative |
| Assembly.ProfilesKeys | planning/views.py:368-404 | A worker's three skill maps have exactly the skills as keys |
| Assembly.SkillProfiles | planning/views.py:365-404 | The skill loop gives `ProfilesOf`: productivity, preference and progression per skill, or IndexError |
| Assembly.ShiftTable | planning/views.py:418-422 | The loop builds `model_shift_lengths` and `model_shifts` |
| Assembly.SkillTable | planning/views.py:410-416 | The loop builds `model_max_workplaces`, `model_gross_profit` and `model_skills` |
| Assembly.ProfilesValue | planning/views.py:368-403 | For every skill, the three maps hold the productivity and preference weight read from that skill's history, and its progression rate |
| Assembly.TablesValue | planning/views.py:354-407 | A worker whose name no later Availability row repeats gets its own flag row and its own three skill maps |
| Assembly.TablesShape | planning/views.py:349-407 | The worker loop gives every listed worker a full row of 0/1 flags and an entry for every skill in the three maps |
| Assembly.AssembleScenario | planning/views.py:337-424 | The view's loops give `ScenarioOf`: the twelve optimiser arguments, or the first error |
| Assembly.ScenarioWorkerValues | planning/views.py:354-407 | With distinct worker names, the scenario stores each worker's flags and, per skill, the productivity, preference weight and progression rate from that worker's history |
| Assembly.ScenarioShiftValue | planning/views.py:418-422 | With distinct shift names, shift k of the list is row k's name, and its length is row k's length |
| Assembly.ScenarioSkillValue | planning/views.py:410-416 | With distinct skill names, skill k of the list is row k's name, and its workplaces and gross profit are row k's |
| Assembly.AssembledWellFormed | planning/views.py:337-430 | For distinct, non-empty names and a `min_` and `max_` field per skill, the arguments are `WellFormed` and every worker has complete 0/1 availability |
| Comparison.PercentRow | planning/views.py:437-442 | The loop fills `outputs_perc` as `Percentages` says |
| Comparison.Percentages | planning/views.py:437-443 | One percentage per run |
| Comparison.PercentagesVanish | planning/views.py:439-440 | When round(max(outputs)) is 0, every entry is 0 |
| Comparison.TopScoresHundred | planning/views.py:441-442 | Otherwise the entry of the best run is 100 |
| Comparison.PercentagesInRange | planning/views.py:437-442 | For non-negative metrics every entry is in [0, 100] |
| Comparison.PercentagesKeepOrder | planning/views.py:441-442 | With a positive best value the percentages keep the order of the runs |
| Comparison.PageRowOrder | planning/views.py:427-443 | Entry k of `measure_results[m]` is computed from the rounded m-metric of the run that maximised the k-th of output, preferences, gross profit, progression. The row is in the order of line 436, not the call order of lines 427-430 |
| Comparison.CompareRuns | planning/views.py:433-443 | The loop over `measures` gives `ComparisonOf`: one scaled row per measure |
| Comparison.ParticipationPercentRange | planning/views.py:446 | `round(participation*100)` of a ratio in [0, 1] is in [0, 100] |
| Comparison.SolveRun | planning/views.py:427-430 | One `Optimize.max*` call, solved by the parameter, and the participation percentage; for maxOutput the KeyError of the warnings loop comes first |
| Comparison.RunKeyError | planning/solver.py:162-167 | Only the maxOutput run raises KeyError, and it does exactly when `max_values` has a key that is not a skill |
| Comparison.FormBoundsNameSkills | planning/views.py:340-345 | `max_values` names only skills exactly when every `max_` field of the form names a skill row |
| Comparison.StrayMaxFieldFails | planning/solver.py:162-166 | A `max_` field naming no skill row makes the view fail with KeyError, in maxOutput, the first solve |
| Comparison.PlanningResult | planning/views.py:330-446 | The whole view on a valid form gives `PageOf`: four runs and the percentage table, or the first error (IndexError in the assembly, KeyError in maxOutput, ZeroDivisionError in a participation) |
| Comparison.Round2Monotone | planning/solver.py:139 | Rounding to two decimals keeps order |
| Comparison.OptimalRunLeads | planning/views.py:427-436 | With an optimal solver, the run for a measure is feasible and scores at least as high on it as any other run |
| Comparison.RunParticipation | planning/views.py:446 | With an optimal solver, each run's participation percentage is in [0, 100] |
| Comparison.DiagonalEntry | planning/views.py:433-443 | With an optimal solver, each measure's own run scores 100 on it, unless that score rounds to 0 |
| Comparison.ScenarioPage | planning/views.py:427-446 | The four runs of one scenario give four participations in [0, 100] and a table whose diagonal is 100 |
| Comparison.PageGuarantees | planning/views.py:330-446 | The same guarantees for the page built from a form and records that make a well-formed scenario |

## Left out

- The CBC solve and the Pyomo model objects (planning/solver.py:46-48, 106-107). The solver is a parameter. The solver's status is not inspected, as in the source. Optimality is only a lemma hypothesis (`SolvedOptimally`).
- `ProgressFit.curveFit` (planning/solver.py:10-17) and `np.log` (planning/views.py:397). They are function parameters. Two observations on the same date would give `np.log(0)`, which is minus infinity and no `real`. For database rows this cannot arise: `unique_together = ('date', 'worker', 'skill')` (planning/models.py:85) makes the dates of one worker and skill distinct.
- The totals of the `warnings` loop of maxOutput (planning/solver.py:162-167): they are appended to a list that is never returned. The loop's KeyError is modelled (`Extraction.WarningsLoop`).
- Floating point: all arithmetic is exact `real`, and `round` is exact banker's rounding. Float summation error and binary representation of decimals are not modelled.
- Common.Round2: states only the ±0.005 bound, because Python's `round(x, 2)` on a binary float can differ from decimal rounding at exact ties.
- KeyError paths of the optimiser other than the `warnings` loop. Every optimiser operation requires `Scenario.WellFormed`, under which every key the constraints, objectives and metrics read exists. `Assembly.AssembledWellFormed` states when the view produces such arguments. `WellFormed` says nothing about extra keys of `max_values`; the one loop that reads them is modelled with its KeyError (`Comparison.RunKeyError`).
- Scenario.WellFormed: requires non-empty shift, worker and skill lists. With one of them empty, a sum is the number 0 and Pyomo refuses the resulting Boolean constraint; that path is not modelled.
- Constraints.SkipTestMeaning: the skip test `type(temp) is float` (planning/solver.py:89, 99) is modelled as "temp folds to a plain number". The Python type of the folded number depends on Pyomo's folding rules, which are not part of this model. If Pyomo folds `expression * 0` to the integer `0`, the source and the model part ways on one input: every shift length is 0 (the default of `Shifts.length`, planning/models.py:64) while some productivity of the skill is non-zero. There `temp` would be the int `0` and the test false. The rule would then return the Boolean `0 <= max_values[skill]`, which Pyomo's `Constraint` refuses, so the view fails. The model instead skips the bound and goes on solving. When all productivities of the skill are 0 and the lengths are floats, `temp` is the float `0.0` and the skip matches the source.
- Duplicate names. A `Shifts`, `Skills` or `Availability` row repeating a name keeps the last value in the dictionaries, as the folds do. The guarantees about the assembled scenario assume distinct names.
- Same-date productivity rows: `unique_together` (planning/models.py:85) rules out two rows of one worker and skill on one date, so the database's `-date` order is total. The model accepts histories with equal dates anyway, since `DateOrdered` is non-strict, and then takes the later row in the list. This adds a case the source never meets and changes no result for database rows.
- `float(...)` parsing of the form fields and the form validation (planning/views.py:332-335). The fields arrive as numbers; a non-numeric field's ValueError is not modelled.
- The Django ORM, the rendering of the page, the other views, the URL routes, the admin and the migrations. Database rows are parameters.
- The order of the four solver calls (planning/views.py:427-430) is kept; nothing runs concurrently.
- Availability dictionary order (planning/solver.py:71, 121) is modelled as the order of `workers`, restricted to workers with an availability row. This yields the same constraints and the same count.
