/** What each Optimize.max* method derives from the solved cube
    (planning/solver.py:110-169): the timetable, the four rounded measures
    and the participation ratio. The cube is a parameter: whatever values
    the external solver left in model.works. */
module Extraction {
  import opened Common
  import opened Scenario
  import opened Feasibility
  import opened Objectives

  // ----- timetable -----

  /** shift -> skill -> the workers doing that skill in that shift. */
  type Timetable = map<Shift, map<Skill, seq<Worker>>>

  /** The workers of ws, in their order, that the cube puts on skill s in shift h. */
  function Assigned(cube: Cube, s: Skill, h: Shift, ws: seq<Worker>): seq<Worker> {
    if ws == [] then []
    else Assigned(cube, s, h, ws[..|ws| - 1]) + (if cube(s, ws[|ws| - 1], h) then [ws[|ws| - 1]] else [])
  }

  /** The table the timetable function returns: a key for every shift, in
      it a key for every skill, and under it the assigned workers. */
  function TimetableOf(inp: Inputs, cube: Cube): Timetable {
    map h | h in inp.shifts :: map s | s in inp.skills :: Assigned(cube, s, h, inp.workers)
  }

  lemma {:induction false} AssignedMembership(cube: Cube, s: Skill, h: Shift, ws: seq<Worker>, w: Worker)
    ensures w in Assigned(cube, s, h, ws) <==> w in ws && cube(s, w, h)
  {
    if ws != [] {
      var init := ws[..|ws| - 1];
      AssignedMembership(cube, s, h, init, w);
      assert ws == init + [ws[|ws| - 1]];
    }
  }

  /** Workers are appended in the order of the worker list: the cell for a
      concatenation is the concatenation of the cells. */
  lemma {:induction false} AssignedAppend(cube: Cube, s: Skill, h: Shift, ws1: seq<Worker>, ws2: seq<Worker>)
    ensures Assigned(cube, s, h, ws1 + ws2) == Assigned(cube, s, h, ws1) + Assigned(cube, s, h, ws2)
  {
    if ws2 == [] {
      assert ws1 + ws2 == ws1;
    } else {
      var init, w := ws2[..|ws2| - 1], ws2[|ws2| - 1];
      AssignedAppend(cube, s, h, ws1, init);
      assert (ws1 + ws2)[..|ws1 + ws2| - 1] == ws1 + init;
    }
  }

  /** A cell holds as many workers as the capacity constraint counts. */
  lemma {:induction false} AssignedCount(cube: Cube, s: Skill, h: Shift, ws: seq<Worker>)
    ensures |Assigned(cube, s, h, ws)| == WorkerCount(cube, s, ws, h)
  {
    if ws != [] {
      AssignedCount(cube, s, h, ws[..|ws| - 1]);
    }
  }

  /** No worker is listed twice in one cell. */
  lemma {:induction false} AssignedDistinct(cube: Cube, s: Skill, h: Shift, ws: seq<Worker>)
    requires Distinct(ws)
    ensures Distinct(Assigned(cube, s, h, ws))
  {
    if ws != [] {
      var init, w := ws[..|ws| - 1], ws[|ws| - 1];
      DistinctPrefix(ws, |ws| - 1);
      AssignedDistinct(cube, s, h, init);
      AssignedMembership(cube, s, h, init, w);
      assert w !in init by {
        forall i | 0 <= i < |init| ensures init[i] != w {
          assert init[i] == ws[i];
        }
      }
    }
  }

  /** A key for every shift and in it a key for every skill, and no others. */
  ghost predicate Shaped(inp: Inputs, table: Timetable) {
    && (forall h :: h in table <==> h in inp.shifts)
    && (forall h | h in table :: forall s :: s in table[h] <==> s in inp.skills)
  }

  /** Every cell lists the assigned workers among the first i. */
  ghost predicate Filled(inp: Inputs, cube: Cube, table: Timetable, i: nat)
    requires i <= |inp.workers|
  {
    && Shaped(inp, table)
    && forall h, s | h in inp.shifts && s in inp.skills ::
         table[h][s] == Assigned(cube, s, h, inp.workers[..i])
  }

  /** Worker workers[i] has been placed in the cells of the skills before j,
      and in those of skill j for the shifts before l. */
  ghost predicate Placed(inp: Inputs, j: nat, l: nat, s: Skill, h: Shift)
    requires j <= |inp.skills| && l <= |inp.shifts|
  {
    s in inp.skills[..j] || (j < |inp.skills| && s == inp.skills[j] && h in inp.shifts[..l])
  }

  ghost predicate Filling(inp: Inputs, cube: Cube, table: Timetable, i: nat, j: nat, l: nat)
    requires i < |inp.workers| && j <= |inp.skills| && l <= |inp.shifts|
  {
    var w := inp.workers[i];
    && Shaped(inp, table)
    && forall h, s | h in inp.shifts && s in inp.skills ::
         table[h][s] ==
           Assigned(cube, s, h, inp.workers[..i]) + (if Placed(inp, j, l, s, h) && cube(s, w, h) then [w] else [])
  }

  /** table[h][s].append(w) */
  function Place(table: Timetable, h: Shift, s: Skill, w: Worker): Timetable
    requires h in table && s in table[h]
  {
    table[h := table[h][s := table[h][s] + [w]]]
  }

  /** Appending to one cell leaves the shape and every other cell alone. */
  lemma AppendToCell(inp: Inputs, table: Timetable, h0: Shift, s0: Skill, w: Worker)
    requires Shaped(inp, table) && h0 in inp.shifts && s0 in inp.skills
    ensures Shaped(inp, Place(table, h0, s0, w))
    ensures forall h, s | h in inp.shifts && s in inp.skills ::
      Place(table, h0, s0, w)[h][s] == if h == h0 && s == s0 then table[h][s] + [w] else table[h][s]
  {
  }

  /** The body of the innermost loop when the cube assigns the worker: the
      worker is appended and Filling holds one shift further. */
  lemma ShiftStepPlace(inp: Inputs, cube: Cube, table: Timetable, i: nat, j: nat, l: nat)
    requires Distinct(inp.shifts) && Distinct(inp.skills)
    requires i < |inp.workers| && j < |inp.skills| && l < |inp.shifts|
    requires Filling(inp, cube, table, i, j, l)
    requires cube(inp.skills[j], inp.workers[i], inp.shifts[l])
    ensures inp.shifts[l] in table && inp.skills[j] in table[inp.shifts[l]]
    ensures Filling(inp, cube, Place(table, inp.shifts[l], inp.skills[j], inp.workers[i]), i, j, l + 1)
  {
    var w, s0, h0 := inp.workers[i], inp.skills[j], inp.shifts[l];
    var t := Place(table, h0, s0, w);
    assert Shaped(inp, t) by {
      AppendToCell(inp, table, h0, s0, w);
    }
    forall h, s | h in inp.shifts && s in inp.skills
      ensures t[h][s] == Assigned(cube, s, h, inp.workers[..i]) + (if Placed(inp, j, l + 1, s, h) && cube(s, w, h) then [w] else [])
    {
      PlacedCell(inp, cube, table, i, j, l, h, s);
    }
  }

  /** One cell after the append. */
  lemma PlacedCell(inp: Inputs, cube: Cube, table: Timetable, i: nat, j: nat, l: nat, h: Shift, s: Skill)
    requires Distinct(inp.shifts) && Distinct(inp.skills)
    requires i < |inp.workers| && j < |inp.skills| && l < |inp.shifts|
    requires Filling(inp, cube, table, i, j, l)
    requires cube(inp.skills[j], inp.workers[i], inp.shifts[l])
    requires h in inp.shifts && s in inp.skills
    ensures Place(table, inp.shifts[l], inp.skills[j], inp.workers[i])[h][s] ==
      Assigned(cube, s, h, inp.workers[..i]) + (if Placed(inp, j, l + 1, s, h) && cube(s, inp.workers[i], h) then [inp.workers[i]] else [])
  {
    PlacedStep(inp, j, l);
  }

  /** The body of the innermost loop when it does not: nothing changes and
      Filling holds one shift further. */
  lemma ShiftStepSkip(inp: Inputs, cube: Cube, table: Timetable, i: nat, j: nat, l: nat)
    requires Distinct(inp.shifts) && Distinct(inp.skills)
    requires i < |inp.workers| && j < |inp.skills| && l < |inp.shifts|
    requires Filling(inp, cube, table, i, j, l)
    requires !cube(inp.skills[j], inp.workers[i], inp.shifts[l])
    ensures Filling(inp, cube, table, i, j, l + 1)
  {
    PlacedStep(inp, j, l);
  }

  /** The innermost loop of lines 114-116 for worker i and skill j. */
  method PlaceInShifts(inp: Inputs, cube: Cube, table0: Timetable, i: nat, j: nat) returns (table: Timetable)
    requires Distinct(inp.shifts) && Distinct(inp.skills)
    requires i < |inp.workers| && j < |inp.skills|
    requires Filling(inp, cube, table0, i, j, 0)
    ensures Filling(inp, cube, table, i, j + 1, 0)
  {
    table := table0;
    var w, s := inp.workers[i], inp.skills[j];
    for l := 0 to |inp.shifts|
      invariant Filling(inp, cube, table, i, j, l)
    {
      var h := inp.shifts[l];
      if cube(s, w, h) {
        ShiftStepPlace(inp, cube, table, i, j, l);
        table := Place(table, h, s, w);
      } else {
        ShiftStepSkip(inp, cube, table, i, j, l);
      }
    }
    NextSkill(inp, cube, table, i, j);
  }

  lemma PlacedStep(inp: Inputs, j: nat, l: nat)
    requires Distinct(inp.shifts) && Distinct(inp.skills)
    requires j < |inp.skills| && l < |inp.shifts|
    ensures !Placed(inp, j, l, inp.skills[j], inp.shifts[l])
    ensures forall h, s | h in inp.shifts && s in inp.skills ::
      Placed(inp, j, l + 1, s, h) <==> Placed(inp, j, l, s, h) || (s == inp.skills[j] && h == inp.shifts[l])
  {
    assert inp.shifts[..l + 1] == inp.shifts[..l] + [inp.shifts[l]];
    assert inp.skills[j] !in inp.skills[..j] by {
      forall k | 0 <= k < j ensures inp.skills[..j][k] != inp.skills[j] {}
    }
    assert inp.shifts[l] !in inp.shifts[..l] by {
      forall k | 0 <= k < l ensures inp.shifts[..l][k] != inp.shifts[l] {}
    }
  }

  /** Having done every shift of skill j is having done the skills up to j. */
  lemma NextSkill(inp: Inputs, cube: Cube, table: Timetable, i: nat, j: nat)
    requires i < |inp.workers| && j < |inp.skills|
    requires Filling(inp, cube, table, i, j, |inp.shifts|)
    ensures Filling(inp, cube, table, i, j + 1, 0)
  {
    assert inp.skills[..j + 1] == inp.skills[..j] + [inp.skills[j]];
    assert inp.shifts[..|inp.shifts|] == inp.shifts;
    assert forall h, s | h in inp.shifts && s in inp.skills ::
      Placed(inp, j + 1, 0, s, h) <==> Placed(inp, j, |inp.shifts|, s, h);
  }

  lemma StartWorker(inp: Inputs, cube: Cube, table: Timetable, i: nat)
    requires i < |inp.workers| && Filled(inp, cube, table, i)
    ensures Filling(inp, cube, table, i, 0, 0)
  {
    forall h, s | h in inp.shifts && s in inp.skills
      ensures !Placed(inp, 0, 0, s, h)
    {
    }
  }

  lemma FinishWorker(inp: Inputs, cube: Cube, table: Timetable, i: nat)
    requires i < |inp.workers| && Filling(inp, cube, table, i, |inp.skills|, 0)
    ensures Filled(inp, cube, table, i + 1)
  {
    var ws := inp.workers[..i + 1];
    assert ws[..|ws| - 1] == inp.workers[..i];
    assert inp.skills[..|inp.skills|] == inp.skills;
    forall h, s | h in inp.shifts && s in inp.skills
      ensures table[h][s] == Assigned(cube, s, h, ws)
    {
      assert Placed(inp, |inp.skills|, 0, s, h);
    }
  }

  /** Lines 113-116 for worker i. */
  method PlaceWorker(inp: Inputs, cube: Cube, table0: Timetable, i: nat) returns (table: Timetable)
    requires Distinct(inp.shifts) && Distinct(inp.skills)
    requires i < |inp.workers|
    requires Filled(inp, cube, table0, i)
    ensures Filled(inp, cube, table, i + 1)
  {
    table := table0;
    StartWorker(inp, cube, table, i);
    for j := 0 to |inp.skills|
      invariant Filling(inp, cube, table, i, j, 0)
    {
      table := PlaceInShifts(inp, cube, table, i, j);
    }
    FinishWorker(inp, cube, table, i);
  }

  /** {shift: {skill: [] for skill in skills} for shift in shifts} */
  function EmptyTable(inp: Inputs): Timetable {
    map h | h in inp.shifts :: map s | s in inp.skills :: []
  }

  /** The table of empty cells: Filled for no worker yet. */
  lemma EmptyTableFilled(inp: Inputs, cube: Cube)
    ensures Filled(inp, cube, EmptyTable(inp), 0)
  {
    assert inp.workers[..0] == [];
  }

  /** Once every worker is placed, the table is TimetableOf. */
  lemma FilledIsTimetable(inp: Inputs, cube: Cube, table: Timetable)
    requires Filled(inp, cube, table, |inp.workers|)
    ensures table == TimetableOf(inp, cube)
  {
    var t := TimetableOf(inp, cube);
    assert inp.workers[..|inp.workers|] == inp.workers;
    forall h | h in inp.shifts
      ensures table[h] == t[h]
    {
      assert table[h].Keys == t[h].Keys;
    }
    assert table.Keys == t.Keys;
  }

  /** Lines 110-117: the table is built with every cell empty, then filled
      worker by worker, skill by skill, shift by shift. */
  method BuildTimetable(inp: Inputs, cube: Cube) returns (table: Timetable)
    requires Distinct(inp.shifts) && Distinct(inp.skills)
    ensures table == TimetableOf(inp, cube)
  {
    table := EmptyTable(inp);
    EmptyTableFilled(inp, cube);
    for i := 0 to |inp.workers|
      invariant Filled(inp, cube, table, i)
    {
      table := PlaceWorker(inp, cube, table, i);
    }
    FilledIsTimetable(inp, cube, table);
  }

  /** A worker is in table[h][s] exactly when the cube assigns them skill s in shift h. */
  lemma TimetableMembership(inp: Inputs, cube: Cube, h: Shift, s: Skill, w: Worker)
    requires h in inp.shifts && s in inp.skills
    ensures w in TimetableOf(inp, cube)[h][s] <==> w in inp.workers && cube(s, w, h)
  {
    AssignedMembership(cube, s, h, inp.workers, w);
  }

  /** In a feasible cube no worker is listed under two skills of one shift. */
  lemma OneSkillInTimetable(inp: Inputs, cube: Cube, h: Shift, s1: Skill, s2: Skill, w: Worker)
    requires Feasible(inp, cube)
    requires h in inp.shifts && s1 in inp.skills && s2 in inp.skills && s1 != s2
    ensures !(w in TimetableOf(inp, cube)[h][s1] && w in TimetableOf(inp, cube)[h][s2])
  {
    TimetableMembership(inp, cube, h, s1, w);
    TimetableMembership(inp, cube, h, s2, w);
    if w in inp.workers && cube(s1, w, h) && cube(s2, w, h) {
      SkillCountTwo(cube, inp.skills, w, h, s1, s2);
    }
  }

  /** In a feasible cube a worker whose availability flag for a shift is 0
      is listed under no skill of that shift. */
  lemma UnavailableNotInTimetable(inp: Inputs, cube: Cube, h: Shift, s: Skill, w: Worker)
    requires Feasible(inp, cube)
    requires h in inp.shifts && s in inp.skills
    requires w in inp.availability && h in inp.availability[w] && inp.availability[w][h] == 0
    ensures w !in TimetableOf(inp, cube)[h][s]
  {
    TimetableMembership(inp, cube, h, s, w);
    SkillCountZero(cube, inp.skills, w, h);
  }

  /** In a feasible cube no cell lists more workers than max_workplaces, and
      none lists a worker twice. */
  lemma TimetableWithinCapacity(inp: Inputs, cube: Cube, h: Shift, s: Skill)
    requires WellFormed(inp) && Feasible(inp, cube)
    requires h in inp.shifts && s in inp.skills
    ensures |TimetableOf(inp, cube)[h][s]| <= Capacity(inp, s)
    ensures Distinct(TimetableOf(inp, cube)[h][s])
  {
    AssignedCount(cube, s, h, inp.workers);
    AssignedDistinct(cube, s, h, inp.workers);
  }

  // ----- participation -----

  /** 1 when the availability row of w marks h available, else 0. */
  function AvailableIn(inp: Inputs, w: Worker, h: Shift): nat
    requires w in inp.availability
  {
    if h in inp.availability[w] && inp.availability[w][h] == 1 then 1 else 0
  }

  /** Σ over hs of AvailableIn. */
  function AvailableOver(inp: Inputs, w: Worker, hs: seq<Shift>): nat
    requires w in inp.availability
  {
    if hs == [] then 0
    else AvailableOver(inp, w, hs[..|hs| - 1]) + AvailableIn(inp, w, hs[|hs| - 1])
  }

  /** `total` of participation: available (worker, shift) pairs, the
      availability dictionary visited in the order of ws. */
  function AvailableTotal(inp: Inputs, ws: seq<Worker>): nat {
    if ws == [] then 0
    else
      var w := ws[|ws| - 1];
      AvailableTotal(inp, ws[..|ws| - 1]) + (if w in inp.availability then AvailableOver(inp, w, inp.shifts) else 0)
  }

  /** The shifts of hs in which w does skill s. */
  function ShiftLoad(cube: Cube, s: Skill, w: Worker, hs: seq<Shift>): nat {
    if hs == [] then 0
    else ShiftLoad(cube, s, w, hs[..|hs| - 1]) + Indicator(cube(s, w, hs[|hs| - 1]))
  }

  /** All assignments of w, counted skill by skill as the loop does. */
  function WorkerLoad(cube: Cube, w: Worker, ss: seq<Skill>, hs: seq<Shift>): nat {
    if ss == [] then 0
    else WorkerLoad(cube, w, ss[..|ss| - 1], hs) + ShiftLoad(cube, ss[|ss| - 1], w, hs)
  }

  /** `deployed` of participation: the ones in the cube. */
  function DeployedTotal(inp: Inputs, cube: Cube, ws: seq<Worker>): nat {
    if ws == [] then 0
    else DeployedTotal(inp, cube, ws[..|ws| - 1]) + WorkerLoad(cube, ws[|ws| - 1], inp.skills, inp.shifts)
  }

  /** deployed / total, or None where Python raises ZeroDivisionError. */
  function ParticipationOf(inp: Inputs, cube: Cube): Option<real> {
    var total := AvailableTotal(inp, inp.workers);
    if total == 0 then None
    else Some(DeployedTotal(inp, cube, inp.workers) as real / total as real)
  }

  /** The same assignments of w, counted shift by shift. */
  function LoadByShift(cube: Cube, w: Worker, ss: seq<Skill>, hs: seq<Shift>): nat {
    if hs == [] then 0
    else LoadByShift(cube, w, ss, hs[..|hs| - 1]) + SkillCount(cube, ss, w, hs[|hs| - 1])
  }

  lemma {:induction false} LoadByShiftSplit(cube: Cube, w: Worker, ss: seq<Skill>, hs: seq<Shift>)
    requires ss != []
    ensures LoadByShift(cube, w, ss, hs) ==
      LoadByShift(cube, w, ss[..|ss| - 1], hs) + ShiftLoad(cube, ss[|ss| - 1], w, hs)
  {
    if hs != [] {
      LoadByShiftSplit(cube, w, ss, hs[..|hs| - 1]);
    }
  }

  /** Counting skill by skill or shift by shift gives the same number. */
  lemma {:induction false} LoadExchange(cube: Cube, w: Worker, ss: seq<Skill>, hs: seq<Shift>)
    ensures WorkerLoad(cube, w, ss, hs) == LoadByShift(cube, w, ss, hs)
  {
    if ss == [] {
      LoadByShiftEmpty(cube, w, hs);
    } else {
      LoadExchange(cube, w, ss[..|ss| - 1], hs);
      LoadByShiftSplit(cube, w, ss, hs);
    }
  }

  lemma {:induction false} LoadByShiftEmpty(cube: Cube, w: Worker, hs: seq<Shift>)
    ensures LoadByShift(cube, w, [], hs) == 0
  {
    if hs != [] {
      LoadByShiftEmpty(cube, w, hs[..|hs| - 1]);
    }
  }

  /** In a feasible cube a worker is busy in at most the shifts they are
      available for. */
  lemma {:induction false} LoadWithinAvailability(inp: Inputs, cube: Cube, w: Worker, hs: seq<Shift>)
    requires WellFormed(inp) && AvailabilityComplete(inp) && Feasible(inp, cube)
    requires w in inp.workers && forall h | h in hs :: h in inp.shifts
    ensures w in inp.availability
    ensures LoadByShift(cube, w, inp.skills, hs) <= AvailableOver(inp, w, hs)
  {
    if hs != [] {
      var h := hs[|hs| - 1];
      LoadWithinAvailability(inp, cube, w, hs[..|hs| - 1]);
      assert SkillCount(cube, inp.skills, w, h) <= 1;
      if inp.availability[w][h] == 0 {
        assert SkillCount(cube, inp.skills, w, h) == 0;
      }
    }
  }

  lemma {:induction false} DeployedWithinTotal(inp: Inputs, cube: Cube, ws: seq<Worker>)
    requires WellFormed(inp) && AvailabilityComplete(inp) && Feasible(inp, cube)
    requires forall w | w in ws :: w in inp.workers
    ensures DeployedTotal(inp, cube, ws) <= AvailableTotal(inp, ws)
  {
    if ws != [] {
      var w := ws[|ws| - 1];
      DeployedWithinTotal(inp, cube, ws[..|ws| - 1]);
      LoadExchange(cube, w, inp.skills, inp.shifts);
      LoadWithinAvailability(inp, cube, w, inp.shifts);
    }
  }

  /** For a feasible cube, when every worker has a full row of 0/1 flags,
      participation is a ratio between 0 and 1. */
  lemma ParticipationAtMostOne(inp: Inputs, cube: Cube)
    requires WellFormed(inp) && AvailabilityComplete(inp) && Feasible(inp, cube)
    requires ParticipationOf(inp, cube).Some?
    ensures 0.0 <= ParticipationOf(inp, cube).value <= 1.0
  {
    DeployedWithinTotal(inp, cube, inp.workers);
    RatioBounds(DeployedTotal(inp, cube, inp.workers) as real, AvailableTotal(inp, inp.workers) as real);
  }

  /** Lines 119-132. */
  method Participation(inp: Inputs, cube: Cube) returns (p: Option<real>)
    ensures p == ParticipationOf(inp, cube)
  {
    var total := 0;
    for i := 0 to |inp.workers|
      invariant total == AvailableTotal(inp, inp.workers[..i])
    {
      var w := inp.workers[i];
      assert inp.workers[..i + 1][..i] == inp.workers[..i];
      if w in inp.availability {
        var start := total;
        for j := 0 to |inp.shifts|
          invariant total == start + AvailableOver(inp, w, inp.shifts[..j])
        {
          var h := inp.shifts[j];
          assert inp.shifts[..j + 1][..j] == inp.shifts[..j];
          if h in inp.availability[w] && inp.availability[w][h] == 1 {
            total := total + 1;
          }
        }
        assert inp.shifts[..|inp.shifts|] == inp.shifts;
      }
    }
    assert inp.workers[..|inp.workers|] == inp.workers;
    var deployed := 0;
    for i := 0 to |inp.workers|
      invariant deployed == DeployedTotal(inp, cube, inp.workers[..i])
    {
      var w := inp.workers[i];
      assert inp.workers[..i + 1][..i] == inp.workers[..i];
      var before := deployed;
      for j := 0 to |inp.skills|
        invariant deployed == before + WorkerLoad(cube, w, inp.skills[..j], inp.shifts)
      {
        var s := inp.skills[j];
        assert inp.skills[..j + 1][..j] == inp.skills[..j];
        var start := deployed;
        for l := 0 to |inp.shifts|
          invariant deployed == start + ShiftLoad(cube, s, w, inp.shifts[..l])
        {
          assert inp.shifts[..l + 1][..l] == inp.shifts[..l];
          if cube(s, w, inp.shifts[l]) {
            deployed := deployed + 1;
          }
        }
        assert inp.shifts[..|inp.shifts|] == inp.shifts;
      }
      assert inp.skills[..|inp.skills|] == inp.skills;
    }
    assert inp.workers[..|inp.workers|] == inp.workers;
    if total == 0 {
      p := None;
    } else {
      p := Some(deployed as real / total as real);
    }
  }

  // ----- the four measures -----

  /** The shift loop of `output` and `grossprofit` for one skill, adding to v0. */
  method AddSkillShifts(inp: Inputs, cube: Cube, s: Skill, profit: bool, v0: real) returns (v: real)
    ensures profit ==> v == v0 + SkillProfitOver(inp, cube, s, inp.shifts)
    ensures !profit ==> v == v0 + SkillOutputOver(inp, cube, s, inp.shifts)
  {
    v := v0;
    for j := 0 to |inp.shifts|
      invariant profit ==> v == v0 + SkillProfitOver(inp, cube, s, inp.shifts[..j])
      invariant !profit ==> v == v0 + SkillOutputOver(inp, cube, s, inp.shifts[..j])
    {
      var h := inp.shifts[j];
      assert inp.shifts[..j + 1][..j] == inp.shifts[..j];
      if profit {
        v := v + OutputAt(inp, cube, s, h, inp.workers) * Length(inp, h) * Profit(inp, s);
      } else {
        v := v + OutputAt(inp, cube, s, h, inp.workers) * Length(inp, h);
      }
    }
    assert inp.shifts[..|inp.shifts|] == inp.shifts;
  }

  /** Lines 134-139 (output) and 148-153 (grossprofit). */
  method SkillMajorMeasure(inp: Inputs, cube: Cube, profit: bool) returns (r: real)
    ensures r == Round2(if profit then MeasureValue(inp, cube, GrossProfit) else MeasureValue(inp, cube, Output))
  {
    var v := 0.0;
    for i := 0 to |inp.skills|
      invariant profit ==> v == GrossProfitTotal(inp, cube, inp.skills[..i])
      invariant !profit ==> v == OutputTotal(inp, cube, inp.skills[..i])
    {
      var s := inp.skills[i];
      assert inp.skills[..i + 1][..i] == inp.skills[..i];
      v := AddSkillShifts(inp, cube, s, profit, v);
    }
    assert inp.skills[..|inp.skills|] == inp.skills;
    r := Round2(v);
  }

  /** Lines 141-146 (preference) and 155-160 (skillprogression). */
  method WorkerMajorMeasure(inp: Inputs, cube: Cube, weights: map<Worker, map<Skill, real>>) returns (r: real)
    ensures r == Round2(WeightTotal(inp, weights, cube, inp.workers))
  {
    var v := 0.0;
    for i := 0 to |inp.workers|
      invariant v == WeightTotal(inp, weights, cube, inp.workers[..i])
    {
      var w := inp.workers[i];
      assert inp.workers[..i + 1][..i] == inp.workers[..i];
      var start := v;
      for j := 0 to |inp.shifts|
        invariant v == start + WorkerWeightOver(inp, weights, cube, w, inp.shifts[..j])
      {
        var h := inp.shifts[j];
        assert inp.shifts[..j + 1][..j] == inp.shifts[..j];
        v := v + WeightAt(weights, cube, w, h, inp.skills) * Length(inp, h);
      }
      assert inp.shifts[..|inp.shifts|] == inp.shifts;
    }
    assert inp.workers[..|inp.workers|] == inp.workers;
    r := Round2(v);
  }

  /** The result dictionary {'output', 'preference', 'gross_profit', 'skill_progression'}. */
  datatype Scores = Scores(output: real, preference: real, grossProfit: real, skillProgression: real)

  function ScoreOf(sc: Scores, m: Measure): real {
    match m
    case Output => sc.output
    case Preference => sc.preference
    case GrossProfit => sc.grossProfit
    case SkillProgression => sc.skillProgression
  }

  /** Line 169: [timetable, scores, participation] for the solved cube; each
      score is its measure rounded to two decimals. */
  // ----- the warnings loop of maxOutput (lines 162-167) -----

  /** The loop reads model.works[skill, worker, shift] and
      workerskills[worker][skill] for every key of max_values. With a
      worker and a shift to read (WellFormed lists are non-empty), it gets
      through exactly when every such key is a skill. */
  predicate BoundsNameSkills(inp: Inputs) {
    forall s | s in inp.maxValues :: s in inp.skills
  }

  /** The key walk of the warnings loop: false where it raises KeyError.
      The totals it appends to `warnings` are never returned. */
  method WarningsLoop(inp: Inputs) returns (ok: bool)
    ensures ok <==> BoundsNameSkills(inp)
  {
    var keys := inp.maxValues.Keys;
    while keys != {}
      invariant keys <= inp.maxValues.Keys
      invariant forall s | s in inp.maxValues && s !in keys :: s in inp.skills
      decreases keys
    {
      var s :| s in keys;
      if s !in inp.skills {
        return false;
      }
      keys := keys - {s};
    }
    return true;
  }

  method ExtractResults(inp: Inputs, cube: Cube) returns (table: Timetable, scores: Scores, participation: Option<real>)
    requires Distinct(inp.shifts) && Distinct(inp.skills)
    ensures table == TimetableOf(inp, cube)
    ensures forall m: Measure :: ScoreOf(scores, m) == Round2(MeasureValue(inp, cube, m))
    ensures participation == ParticipationOf(inp, cube)
  {
    table := BuildTimetable(inp, cube);
    var output := SkillMajorMeasure(inp, cube, false);
    var preference := WorkerMajorMeasure(inp, cube, inp.preferences);
    var grossProfit := SkillMajorMeasure(inp, cube, true);
    var progression := WorkerMajorMeasure(inp, cube, inp.progression);
    scores := Scores(output, preference, grossProfit, progression);
    participation := Participation(inp, cube);
  }
}
