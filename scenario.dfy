/** The data one scheduling run hands to the optimiser: the twelve arguments
    of Optimize.maxOutput (and its three siblings), and the assignment cube
    that the external solver fills in.

    Python reads the nested dictionaries with `d[k]`, which raises KeyError
    on a missing key. The lookups below are total (they give 0 for a missing
    key) and every operation requires WellFormed, under which every key the
    source reads is present, so the default is never what is read. */
module Scenario {
  import opened Common

  type Skill = string
  type Worker = string
  type Shift = string

  /** works[skill, worker, shift]: true iff the worker does the skill in the shift. */
  type Cube = (Skill, Worker, Shift) -> bool

  datatype Inputs = Inputs(
    shifts: seq<Shift>,
    workers: seq<Worker>,
    skills: seq<Skill>,
    minValues: map<Skill, real>,
    maxValues: map<Skill, real>,
    workerSkills: map<Worker, map<Skill, real>>,  // output per time unit
    availability: map<Worker, map<Shift, int>>,   // 1 available, 0 not
    shiftLengths: map<Shift, real>,
    maxWorkplaces: map<Skill, int>,
    grossProfit: map<Skill, real>,
    preferences: map<Worker, map<Skill, real>>,
    progression: map<Worker, map<Skill, real>>)

  /** A per-worker, per-skill table with an entry for every pair. */
  predicate Covers(m: map<Worker, map<Skill, real>>, workers: seq<Worker>, skills: seq<Skill>) {
    forall w | w in workers :: w in m && forall s | s in skills :: s in m[w]
  }

  /** Every key the constraints, objectives and metrics read exists (extra
      keys of max_values are allowed: the one loop that reads them raises
      KeyError, which the runs model); the three index lists are non-empty
      (otherwise a sum over an empty list is the number 0, the constraint
      becomes a plain Boolean and Pyomo refuses it) and name distinct entities
      (they index the binary variable cube). */
  predicate WellFormed(inp: Inputs) {
    && inp.shifts != [] && inp.workers != [] && inp.skills != []
    && Distinct(inp.shifts) && Distinct(inp.workers) && Distinct(inp.skills)
    && Covers(inp.workerSkills, inp.workers, inp.skills)
    && Covers(inp.preferences, inp.workers, inp.skills)
    && Covers(inp.progression, inp.workers, inp.skills)
    && (forall h | h in inp.shifts :: h in inp.shiftLengths)
    && (forall s | s in inp.skills ::
          s in inp.maxWorkplaces && s in inp.grossProfit && s in inp.minValues && s in inp.maxValues)
    && (forall w | w in inp.availability ::
          w in inp.workers
          && (forall h | h in inp.availability[w] :: h in inp.shifts)
          && (forall h | h in inp.shifts :: h in inp.availability[w]))
  }

  /** Every worker has an availability row, and every flag is 0 or 1 (as the
      scenario assembly produces them). */
  predicate AvailabilityComplete(inp: Inputs) {
    && (forall w | w in inp.workers :: w in inp.availability)
    && (forall w, h | w in inp.availability && h in inp.availability[w] ::
          inp.availability[w][h] == 0 || inp.availability[w][h] == 1)
  }

  function Entry(m: map<Worker, map<Skill, real>>, w: Worker, s: Skill): real {
    if w in m && s in m[w] then m[w][s] else 0.0
  }

  function Productivity(inp: Inputs, w: Worker, s: Skill): real {
    Entry(inp.workerSkills, w, s)
  }

  function Length(inp: Inputs, h: Shift): real {
    if h in inp.shiftLengths then inp.shiftLengths[h] else 0.0
  }

  function Capacity(inp: Inputs, s: Skill): int {
    if s in inp.maxWorkplaces then inp.maxWorkplaces[s] else 0
  }

  function Profit(inp: Inputs, s: Skill): real {
    if s in inp.grossProfit then inp.grossProfit[s] else 0.0
  }

  function MinBound(inp: Inputs, s: Skill): real {
    if s in inp.minValues then inp.minValues[s] else 0.0
  }

  function MaxBound(inp: Inputs, s: Skill): real {
    if s in inp.maxValues then inp.maxValues[s] else 0.0
  }

  /** A binary variable's value as a count: 1 for true, 0 for false. */
  function Indicator(b: bool): nat {
    if b then 1 else 0
  }

  /** works[...].value of a solved binary variable, as the float Python multiplies. */
  function Value(b: bool): real {
    if b then 1.0 else 0.0
  }
}
