/** How planning_result (planning/views.py:330-446) turns the submitted form
    and the stored records into the twelve arguments of the optimiser:
    bound maps from the form, availability flags, productivity, preference
    and progression per worker and skill, and the shift and skill tables.
    The database rows arrive as parameters, in the order the queries return
    them; dates are day numbers (date.toordinal()). np.log and the
    curve-fit slope are parameters too. */
module Assembly {
  import opened Common
  import opened Scenario

  // ----- generic: a dictionary filled in a loop, d[key] = value -----

  function FoldMap<T, K, V>(xs: seq<T>, key: T -> K, val: T -> V): map<K, V> {
    if xs == [] then map[]
    else FoldMap(xs[..|xs| - 1], key, val)[key(xs[|xs| - 1]) := val(xs[|xs| - 1])]
  }

  lemma {:induction false} FoldMapKeys<T, K, V>(xs: seq<T>, key: T -> K, val: T -> V, k: K)
    ensures k in FoldMap(xs, key, val) <==> exists i | 0 <= i < |xs| :: key(xs[i]) == k
  {
    if xs != [] {
      var init := xs[..|xs| - 1];
      FoldMapKeys(init, key, val, k);
      if exists i | 0 <= i < |init| :: key(init[i]) == k {
        var i :| 0 <= i < |init| && key(init[i]) == k;
        assert key(xs[i]) == k;
      }
      if exists i | 0 <= i < |xs| :: key(xs[i]) == k {
        var i :| 0 <= i < |xs| && key(xs[i]) == k;
        if i < |init| {
          assert key(init[i]) == k;
        }
      }
    }
  }

  /** The value stored under the key of item i is that item's value, as long
      as no later item has the same key (a later one would overwrite it). */
  lemma {:induction false} FoldMapValue<T, K, V>(xs: seq<T>, key: T -> K, val: T -> V, i: nat)
    requires i < |xs|
    requires forall j | i < j < |xs| :: key(xs[j]) != key(xs[i])
    ensures key(xs[i]) in FoldMap(xs, key, val) && FoldMap(xs, key, val)[key(xs[i])] == val(xs[i])
  {
    if i < |xs| - 1 {
      var init := xs[..|xs| - 1];
      assert init[i] == xs[i];
      assert forall j | i < j < |init| :: key(init[j]) != key(init[i]) by {
        forall j | i < j < |init| ensures key(init[j]) != key(init[i]) {
          assert init[j] == xs[j];
        }
      }
      FoldMapValue(init, key, val, i);
    }
  }

  // ----- bounds from the form (lines 338-345) -----

  /** One entry of request.POST.dict(), its value already a float. */
  datatype FormField = FormField(key: string, value: real)

  predicate StartsWith(s: string, prefix: string) {
    |prefix| <= |s| && s[..|prefix|] == prefix
  }

  /** setting[4:] (the empty string for a key shorter than 4). */
  function NameOf(key: string): string {
    if |key| >= 4 then key[4..] else ""
  }

  /** The bound map after the fields fs, for prefix "min_" or "max_". */
  function BoundsFrom(fs: seq<FormField>, prefix: string): map<Skill, real> {
    if fs == [] then map[]
    else
      var f := fs[|fs| - 1];
      var m := BoundsFrom(fs[..|fs| - 1], prefix);
      if StartsWith(f.key, prefix) then m[NameOf(f.key) := f.value] else m
  }

  /** Lines 340-345. */
  method ParseBounds(fs: seq<FormField>) returns (minValues: map<Skill, real>, maxValues: map<Skill, real>)
    ensures minValues == BoundsFrom(fs, "min_")
    ensures maxValues == BoundsFrom(fs, "max_")
  {
    minValues, maxValues := map[], map[];
    for i := 0 to |fs|
      invariant minValues == BoundsFrom(fs[..i], "min_")
      invariant maxValues == BoundsFrom(fs[..i], "max_")
    {
      var setting := fs[i];
      assert fs[..i + 1][..i] == fs[..i];
      var name := NameOf(setting.key);
      if StartsWith(setting.key, "min_") {
        minValues := minValues[name := setting.value];
      } else if StartsWith(setting.key, "max_") {
        maxValues := maxValues[name := setting.value];
      }
    }
    assert fs[..|fs|] == fs;
  }

  /** The form is a dictionary: no key occurs twice. */
  predicate DistinctKeys(fs: seq<FormField>) {
    forall i, j | 0 <= i < j < |fs| :: fs[i].key != fs[j].key
  }

  lemma PrefixName(key: string, prefix: string)
    requires |prefix| == 4 && StartsWith(key, prefix)
    ensures key == prefix + NameOf(key)
  {
  }

  /** A field `min_<name>` (or `max_<name>`) sets the bound of <name> to its value. */
  lemma {:induction false} BoundsLookup(fs: seq<FormField>, prefix: string, k: nat)
    requires DistinctKeys(fs) && |prefix| == 4
    requires k < |fs| && StartsWith(fs[k].key, prefix)
    ensures NameOf(fs[k].key) in BoundsFrom(fs, prefix)
    ensures BoundsFrom(fs, prefix)[NameOf(fs[k].key)] == fs[k].value
  {
    var init, last := fs[..|fs| - 1], fs[|fs| - 1];
    if k < |fs| - 1 {
      assert init[k] == fs[k];
      BoundsLookup(init, prefix, k);
      if StartsWith(last.key, prefix) && NameOf(last.key) == NameOf(fs[k].key) {
        PrefixName(last.key, prefix);
        PrefixName(fs[k].key, prefix);
        assert false;
      }
    }
  }

  /** A field whose key has neither prefix (such as `date`) changes neither map. */
  lemma {:induction false} OtherFieldIgnored(fs1: seq<FormField>, f: FormField, fs2: seq<FormField>, prefix: string)
    requires !StartsWith(f.key, prefix)
    ensures BoundsFrom(fs1 + [f] + fs2, prefix) == BoundsFrom(fs1 + fs2, prefix)
  {
    if fs2 == [] {
      assert (fs1 + [f])[..|fs1|] == fs1;
      assert fs1 + [f] + fs2 == fs1 + [f];
      assert fs1 + fs2 == fs1;
    } else {
      var init, last := fs2[..|fs2| - 1], fs2[|fs2| - 1];
      OtherFieldIgnored(fs1, f, init, prefix);
      assert (fs1 + [f] + fs2)[..|fs1 + [f] + fs2| - 1] == fs1 + [f] + init;
      assert (fs1 + fs2)[..|fs1 + fs2| - 1] == fs1 + init;
    }
  }

  /** Only prefixed fields name bounds. */
  lemma {:induction false} BoundsKeys(fs: seq<FormField>, prefix: string, name: Skill)
    ensures name in BoundsFrom(fs, prefix) <==>
      exists k | 0 <= k < |fs| :: StartsWith(fs[k].key, prefix) && NameOf(fs[k].key) == name
  {
    if fs != [] {
      var init := fs[..|fs| - 1];
      BoundsKeys(init, prefix, name);
      if exists k | 0 <= k < |init| :: StartsWith(init[k].key, prefix) && NameOf(init[k].key) == name {
        var k :| 0 <= k < |init| && StartsWith(init[k].key, prefix) && NameOf(init[k].key) == name;
        assert fs[k] == init[k];
      }
      if exists k | 0 <= k < |fs| :: StartsWith(fs[k].key, prefix) && NameOf(fs[k].key) == name {
        var k :| 0 <= k < |fs| && StartsWith(fs[k].key, prefix) && NameOf(fs[k].key) == name;
        if k < |init| {
          assert init[k] == fs[k];
        }
      }
    }
  }

  // ----- availability flags (lines 357-363) -----

  /** user_availability after the shifts hs: 1 for a shift in the worker's
      availability for the date, 0 otherwise. */
  function FlagsOf(hs: seq<Shift>, available: set<Shift>): map<Shift, int> {
    if hs == [] then map[]
    else
      var h := hs[|hs| - 1];
      FlagsOf(hs[..|hs| - 1], available)[h := if h in available then 1 else 0]
  }

  method AvailabilityFlags(hs: seq<Shift>, available: set<Shift>) returns (flags: map<Shift, int>)
    ensures flags == FlagsOf(hs, available)
  {
    flags := map[];
    for i := 0 to |hs|
      invariant flags == FlagsOf(hs[..i], available)
    {
      var h := hs[i];
      assert hs[..i + 1][..i] == hs[..i];
      if h in available {
        flags := flags[h := 1];
      } else {
        flags := flags[h := 0];
      }
    }
    assert hs[..|hs|] == hs;
  }

  /** Every shift gets a flag, and the flag is 1 exactly for the available shifts. */
  lemma {:induction false} FlagsMeaning(hs: seq<Shift>, available: set<Shift>, h: Shift)
    ensures h in FlagsOf(hs, available) <==> h in hs
    ensures h in hs ==> FlagsOf(hs, available)[h] == if h in available then 1 else 0
  {
    if hs != [] {
      var init := hs[..|hs| - 1];
      FlagsMeaning(init, available, h);
      assert hs == init + [hs[|hs| - 1]];
    }
  }

  // ----- productivity and preference (lines 368-378) -----

  /** One WorkerSkills row: the productivity measured on a date. */
  datatype Observation = Observation(date: int, productivity: real)

  predicate DateOrdered(obs: seq<Observation>) {
    forall i, j | 0 <= i < j < |obs| :: obs[i].date <= obs[j].date
  }

  /** filter(date__lte=d).order_by('-date')[0] on the rows in date order:
      the last observation on or before d, or None where the query is empty
      and `[0]` raises IndexError. */
  function LatestOnOrBefore(obs: seq<Observation>, d: int): Option<real> {
    if obs == [] then None
    else if obs[|obs| - 1].date <= d then Some(obs[|obs| - 1].productivity)
    else LatestOnOrBefore(obs[..|obs| - 1], d)
  }

  /** The lookup finds nothing exactly when every observation is after d. */
  lemma {:induction false} LatestNone(obs: seq<Observation>, d: int)
    ensures LatestOnOrBefore(obs, d).None? <==> forall i | 0 <= i < |obs| :: obs[i].date > d
  {
    if obs != [] {
      var init, n := obs[..|obs| - 1], |obs| - 1;
      LatestNone(init, d);
      if obs[n].date > d {
        assert forall i | 0 <= i < n :: obs[i] == init[i];
      }
    }
  }

  /** Otherwise it finds an observation on or before d with no later one on
      or before d. */
  lemma {:induction false} LatestFound(obs: seq<Observation>, d: int)
    requires DateOrdered(obs) && LatestOnOrBefore(obs, d).Some?
    ensures exists k | 0 <= k < |obs| ::
      && obs[k].date <= d && obs[k].productivity == LatestOnOrBefore(obs, d).value
      && forall i | 0 <= i < |obs| && obs[i].date <= d :: obs[i].date <= obs[k].date
  {
    var init, n := obs[..|obs| - 1], |obs| - 1;
    if obs[n].date > d {
      assert DateOrdered(init);
      LatestFound(init, d);
      var k :| 0 <= k < |init| && init[k].date <= d && init[k].productivity == LatestOnOrBefore(init, d).value
        && forall i | 0 <= i < |init| && init[i].date <= d :: init[i].date <= init[k].date;
      assert obs[k] == init[k];
      forall i | 0 <= i < |obs| && obs[i].date <= d
        ensures obs[i].date <= obs[k].date
      {
        assert obs[i] == init[i];
      }
    } else {
      forall i | 0 <= i < |obs| && obs[i].date <= d
        ensures obs[i].date <= obs[n].date
      {
        if i < n {
          assert obs[i].date <= obs[n].date;
        }
      }
    }
  }

  /** (productivity, preference) of one worker for one skill: (0, 0) with
      no observation at all; otherwise the latest productivity on or before
      the date and 2 for the worker's preferred skill, 1 for another. */
  function ProductivityAndPreference(obs: seq<Observation>, preferred: Option<Skill>, s: Skill, d: int): Result<(real, real)> {
    if obs == [] then Success((0.0, 0.0))
    else
      match LatestOnOrBefore(obs, d)
      case None => Failure("IndexError")
      case Some(p) => Success((p, if preferred == Some(s) then 2.0 else 1.0))
  }

  /** The preference weight is 0, 1 or 2, and it is 0 exactly for a skill
      the worker has no observation of, when the productivity is 0 too. */
  lemma PreferenceWeights(obs: seq<Observation>, preferred: Option<Skill>, s: Skill, d: int)
    requires ProductivityAndPreference(obs, preferred, s, d).Success?
    ensures var (p, w) := ProductivityAndPreference(obs, preferred, s, d).value;
      && (w == 0.0 || w == 1.0 || w == 2.0)
      && (w == 0.0 <==> obs == [])
      && (obs == [] ==> p == 0.0)
      && (w == 2.0 <==> obs != [] && preferred == Some(s))
  {
  }

  // ----- progression (lines 380-403) -----

  /** datetime.date(2000, 1, 1).toordinal(), the default of `dt`. */
  const DefaultDate: int := 730120

  /** The x vector: 0 for the first observation, then ln of the days since
      the first observation. */
  function SeriesX(obs: seq<Observation>, ln: int -> real): (x: seq<real>)
    ensures |x| == |obs|
    ensures |obs| > 0 ==> x[0] == 0.0
  {
    seq(|obs|, k requires 0 <= k < |obs| => if k == 0 then 0.0 else ln(obs[k].date - obs[0].date))
  }

  /** The y vector: the productivities. */
  function SeriesY(obs: seq<Observation>): seq<real> {
    seq(|obs|, k requires 0 <= k < |obs| => obs[k].productivity)
  }

  /** Lines 390-399: the loop with the counter i and the first date dt. */
  method Series(obs: seq<Observation>, ln: int -> real) returns (x: seq<real>, y: seq<real>)
    ensures x == SeriesX(obs, ln) && y == SeriesY(obs)
  {
    x, y := [], [];
    var i := 0;
    var dt := DefaultDate;
    for k := 0 to |obs|
      invariant i == k
      invariant k > 0 ==> dt == obs[0].date
      invariant x == SeriesX(obs[..k], ln)
      invariant y == SeriesY(obs[..k])
    {
      var o := obs[k];
      if i == 0 {
        x := x + [0.0];
        dt := o.date;
      } else {
        x := x + [ln(o.date - dt)];
      }
      y := y + [o.productivity];
      i := i + 1;
    }
    assert obs[..|obs|] == obs;
  }

  /** user_progression[skill]: 0 with no observation, 0.5 with one, and
      otherwise the fitted slope over max(x), or 0.5 when max(x) is 0. */
  function ProgressionRate(obs: seq<Observation>, ln: int -> real, fit: (seq<real>, seq<real>) -> real): real {
    if |obs| == 0 then 0.0
    else if |obs| == 1 then 0.5
    else
      var x := SeriesX(obs, ln);
      var m := MaxOf(x);
      if m != 0.0 then fit(x, SeriesY(obs)) / m else 0.5
  }

  /** With two or more observations max(x) is never negative (x[0] is 0),
      so the rate has the sign of the slope (positive, negative or zero with
      it), and is 0.5 when max(x) is 0. */
  lemma ProgressionSign(obs: seq<Observation>, ln: int -> real, fit: (seq<real>, seq<real>) -> real)
    requires |obs| >= 2
    ensures MaxOf(SeriesX(obs, ln)) >= 0.0
    ensures MaxOf(SeriesX(obs, ln)) == 0.0 ==> ProgressionRate(obs, ln, fit) == 0.5
    ensures MaxOf(SeriesX(obs, ln)) != 0.0 ==>
      && (ProgressionRate(obs, ln, fit) > 0.0 <==> fit(SeriesX(obs, ln), SeriesY(obs)) > 0.0)
      && (ProgressionRate(obs, ln, fit) < 0.0 <==> fit(SeriesX(obs, ln), SeriesY(obs)) < 0.0)
  {
    var x := SeriesX(obs, ln);
    assert x[0] == 0.0;
    var m := MaxOf(x);
    if m != 0.0 {
      var slope := fit(x, SeriesY(obs));
      QuotientSign(slope, m);
    }
  }

  lemma QuotientSign(a: real, m: real)
    requires m > 0.0
    ensures a / m > 0.0 <==> a > 0.0
    ensures a / m < 0.0 <==> a < 0.0
  {
    assert (a / m) * m == a;
  }

  // ----- one worker's skill tables (lines 365-407) -----

  /** An Availability row of the date, with what the queries read about its worker. */
  datatype WorkerRecord = WorkerRecord(
    name: Worker,
    preferred: Option<Skill>,
    available: set<Shift>,                    // the shifts of the availability row
    history: map<Skill, seq<Observation>>)    // WorkerSkills rows per skill, in date order

  function History(r: WorkerRecord, s: Skill): seq<Observation> {
    if s in r.history then r.history[s] else []
  }

  datatype Profiles = Profiles(productivity: map<Skill, real>, preference: map<Skill, real>, progression: map<Skill, real>)

  /** user_workerskills, user_preferences and user_progression after the skills ss. */
  function ProfilesOf(r: WorkerRecord, ss: seq<Skill>, d: int, ln: int -> real, fit: (seq<real>, seq<real>) -> real): Result<Profiles> {
    if ss == [] then Success(Profiles(map[], map[], map[]))
    else
      var s := ss[|ss| - 1];
      match ProfilesOf(r, ss[..|ss| - 1], d, ln, fit)
      case Failure(e) => Failure(e)
      case Success(ps) =>
        match ProductivityAndPreference(History(r, s), r.preferred, s, d)
        case Failure(e) => Failure(e)
        case Success(pp) =>
          Success(Profiles(ps.productivity[s := pp.0], ps.preference[s := pp.1],
                           ps.progression[s := ProgressionRate(History(r, s), ln, fit)]))
  }

  /** Once a prefix fails, the whole loop fails with the same error. */
  lemma {:induction false} ProfilesFailurePersists(r: WorkerRecord, ss: seq<Skill>, n: nat, d: int, ln: int -> real, fit: (seq<real>, seq<real>) -> real)
    requires n <= |ss| && ProfilesOf(r, ss[..n], d, ln, fit).Failure?
    ensures ProfilesOf(r, ss, d, ln, fit) == ProfilesOf(r, ss[..n], d, ln, fit)
    decreases |ss| - n
  {
    if n < |ss| {
      assert ss[..n + 1][..n] == ss[..n];
      ProfilesFailurePersists(r, ss, n + 1, d, ln, fit);
    } else {
      assert ss[..n] == ss;
    }
  }

  /** A successful run gives every skill of ss an entry in each of the three maps. */
  lemma {:induction false} ProfilesKeys(r: WorkerRecord, ss: seq<Skill>, d: int, ln: int -> real, fit: (seq<real>, seq<real>) -> real, s: Skill)
    requires ProfilesOf(r, ss, d, ln, fit).Success?
    ensures var ps := ProfilesOf(r, ss, d, ln, fit).value;
      (s in ps.productivity <==> s in ss) && (s in ps.preference <==> s in ss) && (s in ps.progression <==> s in ss)
  {
    if ss != [] {
      var init := ss[..|ss| - 1];
      ProfilesKeys(r, init, d, ln, fit, s);
      assert ss == init + [ss[|ss| - 1]];
    }
  }

  /** A successful run stores for each skill of ss the productivity and
      preference of lines 369-378 and the progression of lines 380-403,
      all read from that skill's history. */
  lemma {:induction false} ProfilesValue(r: WorkerRecord, ss: seq<Skill>, d: int, ln: int -> real, fit: (seq<real>, seq<real>) -> real, s: Skill)
    requires ProfilesOf(r, ss, d, ln, fit).Success? && s in ss
    ensures ProductivityAndPreference(History(r, s), r.preferred, s, d).Success?
    ensures var ps, pp := ProfilesOf(r, ss, d, ln, fit).value, ProductivityAndPreference(History(r, s), r.preferred, s, d).value;
      && s in ps.productivity && ps.productivity[s] == pp.0
      && s in ps.preference && ps.preference[s] == pp.1
      && s in ps.progression && ps.progression[s] == ProgressionRate(History(r, s), ln, fit)
  {
    var init, last := ss[..|ss| - 1], ss[|ss| - 1];
    assert ss == init + [last];
    if s != last {
      assert s in init;
      ProfilesValue(r, init, d, ln, fit, s);
    }
  }

  /** Lines 368-404 for one worker. */
  method SkillProfiles(r: WorkerRecord, ss: seq<Skill>, d: int, ln: int -> real, fit: (seq<real>, seq<real>) -> real) returns (result: Result<Profiles>)
    ensures result == ProfilesOf(r, ss, d, ln, fit)
  {
    var productivity, preference, progression := map[], map[], map[];
    for i := 0 to |ss|
      invariant ProfilesOf(r, ss[..i], d, ln, fit) == Success(Profiles(productivity, preference, progression))
    {
      var s := ss[i];
      assert ss[..i + 1][..i] == ss[..i];
      var obs := History(r, s);
      var pp := ProductivityAndPreference(obs, r.preferred, s, d);
      if pp.Failure? {
        ProfilesFailurePersists(r, ss, i + 1, d, ln, fit);
        return Failure(pp.error);
      }
      productivity := productivity[s := pp.value.0];
      preference := preference[s := pp.value.1];
      var rate: real;
      if |obs| == 0 {
        rate := 0.0;
      } else if |obs| == 1 {
        rate := 0.5;
      } else {
        var x, y := Series(obs, ln);
        var slope := fit(x, y);
        rate := if MaxOf(x) != 0.0 then slope / MaxOf(x) else 0.5;
      }
      progression := progression[s := rate];
    }
    assert ss[..|ss| - 0] == ss;
    result := Success(Profiles(productivity, preference, progression));
  }

  // ----- all workers (lines 349-407) -----

  /** model_workers and the four per-worker dictionaries. */
  datatype WorkerTables = WorkerTables(
    workers: seq<Worker>,
    availability: map<Worker, map<Shift, int>>,
    workerSkills: map<Worker, map<Skill, real>>,
    preferences: map<Worker, map<Skill, real>>,
    progression: map<Worker, map<Skill, real>>)

  function WorkerTablesOf(rs: seq<WorkerRecord>, hs: seq<Shift>, ss: seq<Skill>, d: int, ln: int -> real, fit: (seq<real>, seq<real>) -> real): Result<WorkerTables> {
    if rs == [] then Success(WorkerTables([], map[], map[], map[], map[]))
    else
      var r := rs[|rs| - 1];
      match WorkerTablesOf(rs[..|rs| - 1], hs, ss, d, ln, fit)
      case Failure(e) => Failure(e)
      case Success(t) =>
        match ProfilesOf(r, ss, d, ln, fit)
        case Failure(e) => Failure(e)
        case Success(ps) =>
          Success(WorkerTables(t.workers + [r.name],
                               t.availability[r.name := FlagsOf(hs, r.available)],
                               t.workerSkills[r.name := ps.productivity],
                               t.preferences[r.name := ps.preference],
                               t.progression[r.name := ps.progression]))
  }

  lemma {:induction false} TablesFailurePersists(rs: seq<WorkerRecord>, n: nat, hs: seq<Shift>, ss: seq<Skill>, d: int, ln: int -> real, fit: (seq<real>, seq<real>) -> real)
    requires n <= |rs| && WorkerTablesOf(rs[..n], hs, ss, d, ln, fit).Failure?
    ensures WorkerTablesOf(rs, hs, ss, d, ln, fit) == WorkerTablesOf(rs[..n], hs, ss, d, ln, fit)
    decreases |rs| - n
  {
    if n < |rs| {
      assert rs[..n + 1][..n] == rs[..n];
      TablesFailurePersists(rs, n + 1, hs, ss, d, ln, fit);
    } else {
      assert rs[..n] == rs;
    }
  }

  /** The shape WellFormed and AvailabilityComplete ask of the worker tables. */
  ghost predicate TablesShaped(t: WorkerTables, rs: seq<WorkerRecord>, hs: seq<Shift>, ss: seq<Skill>) {
    && t.workers == seq(|rs|, i requires 0 <= i < |rs| => rs[i].name)
    && (forall w :: w in t.availability <==> w in t.workers)
    && (forall w | w in t.availability ::
          (forall h :: h in t.availability[w] <==> h in hs)
          && forall h | h in t.availability[w] :: t.availability[w][h] == 0 || t.availability[w][h] == 1)
    && (forall w | w in t.workers ::
          w in t.workerSkills && w in t.preferences && w in t.progression
          && forall s | s in ss :: s in t.workerSkills[w] && s in t.preferences[w] && s in t.progression[w])
  }

  lemma {:induction false} TablesShape(rs: seq<WorkerRecord>, hs: seq<Shift>, ss: seq<Skill>, d: int, ln: int -> real, fit: (seq<real>, seq<real>) -> real)
    requires WorkerTablesOf(rs, hs, ss, d, ln, fit).Success?
    ensures TablesShaped(WorkerTablesOf(rs, hs, ss, d, ln, fit).value, rs, hs, ss)
  {
    if rs != [] {
      var init, r := rs[..|rs| - 1], rs[|rs| - 1];
      TablesShape(init, hs, ss, d, ln, fit);
      var t := WorkerTablesOf(init, hs, ss, d, ln, fit).value;
      var t' := WorkerTablesOf(rs, hs, ss, d, ln, fit).value;
      assert t'.workers == seq(|rs|, i requires 0 <= i < |rs| => rs[i].name);
      forall h
        ensures h in FlagsOf(hs, r.available) <==> h in hs
        ensures h in hs ==> FlagsOf(hs, r.available)[h] == 0 || FlagsOf(hs, r.available)[h] == 1
      {
        FlagsMeaning(hs, r.available, h);
      }
      forall s
        ensures var ps := ProfilesOf(r, ss, d, ln, fit).value;
          (s in ps.productivity <==> s in ss) && (s in ps.preference <==> s in ss) && (s in ps.progression <==> s in ss)
      {
        ProfilesKeys(r, ss, d, ln, fit, s);
      }
    }
  }

  /** The row of worker rs[i], when no later Availability row has the same
      name: its flags and its three skill maps, as ProfilesOf gives them. */
  lemma {:induction false} TablesValue(rs: seq<WorkerRecord>, hs: seq<Shift>, ss: seq<Skill>, d: int, ln: int -> real, fit: (seq<real>, seq<real>) -> real, i: nat)
    requires WorkerTablesOf(rs, hs, ss, d, ln, fit).Success?
    requires i < |rs| && forall j | i < j < |rs| :: rs[j].name != rs[i].name
    ensures ProfilesOf(rs[i], ss, d, ln, fit).Success?
    ensures var t, w, ps := WorkerTablesOf(rs, hs, ss, d, ln, fit).value, rs[i].name, ProfilesOf(rs[i], ss, d, ln, fit).value;
      && w in t.availability && t.availability[w] == FlagsOf(hs, rs[i].available)
      && w in t.workerSkills && t.workerSkills[w] == ps.productivity
      && w in t.preferences && t.preferences[w] == ps.preference
      && w in t.progression && t.progression[w] == ps.progression
  {
    var init := rs[..|rs| - 1];
    if i < |rs| - 1 {
      assert init[i] == rs[i];
      assert forall j | i < j < |init| :: init[j].name != init[i].name by {
        forall j | i < j < |init| ensures init[j].name != init[i].name {
          assert init[j] == rs[j];
        }
      }
      TablesValue(init, hs, ss, d, ln, fit, i);
    }
  }

  // ----- shifts and skills (lines 409-422) -----

  /** A Shifts row and a Skills row. */
  datatype ShiftRow = ShiftRow(name: Shift, length: real)
  datatype SkillRow = SkillRow(name: Skill, workplaces: int, grossProfit: real)

  function ShiftName(r: ShiftRow): Shift { r.name }
  function ShiftLength(r: ShiftRow): real { r.length }
  function SkillName(r: SkillRow): Skill { r.name }
  function SkillWorkplaces(r: SkillRow): int { r.workplaces }
  function SkillGrossProfit(r: SkillRow): real { r.grossProfit }

  /** The name column of a table, in row order. */
  function NamesOf<T>(rows: seq<T>, name: T -> string): (names: seq<string>)
    ensures |names| == |rows| && forall i | 0 <= i < |rows| :: names[i] == name(rows[i])
  {
    seq(|rows|, i requires 0 <= i < |rows| => name(rows[i]))
  }

  function ShiftNames(rows: seq<ShiftRow>): seq<Shift> {
    NamesOf(rows, ShiftName)
  }

  function SkillNames(rows: seq<SkillRow>): seq<Skill> {
    NamesOf(rows, SkillName)
  }

  /** Lines 418-422. */
  method ShiftTable(rows: seq<ShiftRow>) returns (lengths: map<Shift, real>, names: seq<Shift>)
    ensures lengths == FoldMap(rows, ShiftName, ShiftLength)
    ensures names == ShiftNames(rows)
  {
    lengths, names := map[], [];
    for i := 0 to |rows|
      invariant lengths == FoldMap(rows[..i], ShiftName, ShiftLength)
      invariant names == ShiftNames(rows[..i])
    {
      assert rows[..i + 1][..i] == rows[..i];
      lengths := lengths[rows[i].name := rows[i].length];
      names := names + [rows[i].name];
    }
    assert rows[..|rows|] == rows;
  }

  /** Lines 410-416. */
  method SkillTable(rows: seq<SkillRow>) returns (workplaces: map<Skill, int>, profit: map<Skill, real>, names: seq<Skill>)
    ensures workplaces == FoldMap(rows, SkillName, SkillWorkplaces)
    ensures profit == FoldMap(rows, SkillName, SkillGrossProfit)
    ensures names == SkillNames(rows)
  {
    workplaces, profit, names := map[], map[], [];
    for i := 0 to |rows|
      invariant workplaces == FoldMap(rows[..i], SkillName, SkillWorkplaces)
      invariant profit == FoldMap(rows[..i], SkillName, SkillGrossProfit)
      invariant names == SkillNames(rows[..i])
    {
      assert rows[..i + 1][..i] == rows[..i];
      workplaces := workplaces[rows[i].name := rows[i].workplaces];
      profit := profit[rows[i].name := rows[i].grossProfit];
      names := names + [rows[i].name];
    }
    assert rows[..|rows|] == rows;
  }

  // ----- the whole scenario -----

  /** The twelve arguments planning_result passes to each Optimize.max*
      method, or the error that stops it first. */
  function ScenarioOf(form: seq<FormField>, rs: seq<WorkerRecord>, shiftRows: seq<ShiftRow>, skillRows: seq<SkillRow>,
                      d: int, ln: int -> real, fit: (seq<real>, seq<real>) -> real): Result<Inputs> {
    var hs := ShiftNames(shiftRows);
    var ss := SkillNames(skillRows);
    match WorkerTablesOf(rs, hs, ss, d, ln, fit)
    case Failure(e) => Failure(e)
    case Success(t) =>
      Success(Inputs(hs, t.workers, ss, BoundsFrom(form, "min_"), BoundsFrom(form, "max_"),
                     t.workerSkills, t.availability, FoldMap(shiftRows, ShiftName, ShiftLength),
                     FoldMap(skillRows, SkillName, SkillWorkplaces), FoldMap(skillRows, SkillName, SkillGrossProfit),
                     t.preferences, t.progression))
  }

  /** Lines 337-424: the loops of planning_result up to the solver calls. */
  method AssembleScenario(form: seq<FormField>, rs: seq<WorkerRecord>, shiftRows: seq<ShiftRow>, skillRows: seq<SkillRow>,
                          d: int, ln: int -> real, fit: (seq<real>, seq<real>) -> real) returns (result: Result<Inputs>)
    ensures result == ScenarioOf(form, rs, shiftRows, skillRows, d, ln, fit)
  {
    var minValues, maxValues := ParseBounds(form);
    var shiftLengths, shifts := ShiftTable(shiftRows);
    var maxWorkplaces, grossProfit, skills := SkillTable(skillRows);
    var t := WorkerTables([], map[], map[], map[], map[]);
    for i := 0 to |rs|
      invariant WorkerTablesOf(rs[..i], shifts, skills, d, ln, fit) == Success(t)
    {
      var r := rs[i];
      assert rs[..i + 1][..i] == rs[..i];
      var flags := AvailabilityFlags(shifts, r.available);
      var profiles := SkillProfiles(r, skills, d, ln, fit);
      if profiles.Failure? {
        TablesFailurePersists(rs, i + 1, shifts, skills, d, ln, fit);
        return Failure(profiles.error);
      }
      t := WorkerTables(t.workers + [r.name], t.availability[r.name := flags],
                        t.workerSkills[r.name := profiles.value.productivity],
                        t.preferences[r.name := profiles.value.preference],
                        t.progression[r.name := profiles.value.progression]);
    }
    assert rs[..|rs|] == rs;
    result := Success(Inputs(shifts, t.workers, skills, minValues, maxValues, t.workerSkills, t.availability,
                             shiftLengths, maxWorkplaces, grossProfit, t.preferences, t.progression));
  }

  /** With distinct, non-empty worker, shift and skill lists and a min_ and
      max_ field for every skill, the assembled scenario is one the
      optimiser reads without a KeyError, and every worker has a full row
      of 0/1 availability flags. */
  lemma AssembledWellFormed(form: seq<FormField>, rs: seq<WorkerRecord>, shiftRows: seq<ShiftRow>, skillRows: seq<SkillRow>,
                            d: int, ln: int -> real, fit: (seq<real>, seq<real>) -> real)
    requires rs != [] && shiftRows != [] && skillRows != []
    requires Distinct(seq(|rs|, i requires 0 <= i < |rs| => rs[i].name))
    requires Distinct(ShiftNames(shiftRows)) && Distinct(SkillNames(skillRows))
    requires forall s | s in SkillNames(skillRows) :: s in BoundsFrom(form, "min_") && s in BoundsFrom(form, "max_")
    requires ScenarioOf(form, rs, shiftRows, skillRows, d, ln, fit).Success?
    ensures WellFormed(ScenarioOf(form, rs, shiftRows, skillRows, d, ln, fit).value)
    ensures AvailabilityComplete(ScenarioOf(form, rs, shiftRows, skillRows, d, ln, fit).value)
  {
    var hs, ss := ShiftNames(shiftRows), SkillNames(skillRows);
    TablesShape(rs, hs, ss, d, ln, fit);
    forall h | h in hs
      ensures h in FoldMap(shiftRows, ShiftName, ShiftLength)
    {
      var i :| 0 <= i < |hs| && hs[i] == h;
      FoldMapKeys(shiftRows, ShiftName, ShiftLength, h);
      assert ShiftName(shiftRows[i]) == h;
    }
    forall s | s in ss
      ensures s in FoldMap(skillRows, SkillName, SkillWorkplaces) && s in FoldMap(skillRows, SkillName, SkillGrossProfit)
    {
      var i :| 0 <= i < |ss| && ss[i] == s;
      FoldMapKeys(skillRows, SkillName, SkillWorkplaces, s);
      FoldMapKeys(skillRows, SkillName, SkillGrossProfit, s);
      assert SkillName(skillRows[i]) == s;
    }
  }

  /** What the assembled scenario holds for worker rs[i] and skill s: the
      flags of lines 357-363 and the three values of lines 368-403 read from
      that worker's history of s. */
  lemma ScenarioWorkerValues(form: seq<FormField>, rs: seq<WorkerRecord>, shiftRows: seq<ShiftRow>, skillRows: seq<SkillRow>,
                             d: int, ln: int -> real, fit: (seq<real>, seq<real>) -> real, i: nat, s: Skill)
    requires ScenarioOf(form, rs, shiftRows, skillRows, d, ln, fit).Success?
    requires i < |rs| && Distinct(seq(|rs|, k requires 0 <= k < |rs| => rs[k].name))
    requires s in SkillNames(skillRows)
    ensures ProductivityAndPreference(History(rs[i], s), rs[i].preferred, s, d).Success?
    ensures var inp, w := ScenarioOf(form, rs, shiftRows, skillRows, d, ln, fit).value, rs[i].name;
      var pp := ProductivityAndPreference(History(rs[i], s), rs[i].preferred, s, d).value;
      && w in inp.availability && inp.availability[w] == FlagsOf(ShiftNames(shiftRows), rs[i].available)
      && w in inp.workerSkills && s in inp.workerSkills[w] && inp.workerSkills[w][s] == pp.0
      && w in inp.preferences && s in inp.preferences[w] && inp.preferences[w][s] == pp.1
      && w in inp.progression && s in inp.progression[w] && inp.progression[w][s] == ProgressionRate(History(rs[i], s), ln, fit)
  {
    var hs, ss := ShiftNames(shiftRows), SkillNames(skillRows);
    var names := seq(|rs|, k requires 0 <= k < |rs| => rs[k].name);
    forall j | i < j < |rs|
      ensures rs[j].name != rs[i].name
    {
      assert names[i] == rs[i].name && names[j] == rs[j].name;
    }
    TablesValue(rs, hs, ss, d, ln, fit, i);
    ProfilesValue(rs[i], ss, d, ln, fit, s);
  }

  /** What the assembled scenario holds for Shifts row k: its length under
      its name (lines 420-422). */
  lemma ScenarioShiftValue(form: seq<FormField>, rs: seq<WorkerRecord>, shiftRows: seq<ShiftRow>, skillRows: seq<SkillRow>,
                           d: int, ln: int -> real, fit: (seq<real>, seq<real>) -> real, k: nat)
    requires ScenarioOf(form, rs, shiftRows, skillRows, d, ln, fit).Success?
    requires k < |shiftRows| && Distinct(ShiftNames(shiftRows))
    ensures var inp := ScenarioOf(form, rs, shiftRows, skillRows, d, ln, fit).value;
      && inp.shifts[k] == shiftRows[k].name
      && shiftRows[k].name in inp.shiftLengths && inp.shiftLengths[shiftRows[k].name] == shiftRows[k].length
  {
    var hs := ShiftNames(shiftRows);
    forall j | k < j < |shiftRows|
      ensures ShiftName(shiftRows[j]) != ShiftName(shiftRows[k])
    {
      assert hs[k] == ShiftName(shiftRows[k]) && hs[j] == ShiftName(shiftRows[j]);
    }
    FoldMapValue(shiftRows, ShiftName, ShiftLength, k);
  }

  /** What the assembled scenario holds for Skills row k: its workplaces and
      gross profit under its name (lines 413-416). */
  lemma ScenarioSkillValue(form: seq<FormField>, rs: seq<WorkerRecord>, shiftRows: seq<ShiftRow>, skillRows: seq<SkillRow>,
                           d: int, ln: int -> real, fit: (seq<real>, seq<real>) -> real, k: nat)
    requires ScenarioOf(form, rs, shiftRows, skillRows, d, ln, fit).Success?
    requires k < |skillRows| && Distinct(SkillNames(skillRows))
    ensures var inp, s := ScenarioOf(form, rs, shiftRows, skillRows, d, ln, fit).value, skillRows[k].name;
      && inp.skills[k] == s
      && s in inp.maxWorkplaces && inp.maxWorkplaces[s] == skillRows[k].workplaces
      && s in inp.grossProfit && inp.grossProfit[s] == skillRows[k].grossProfit
  {
    var ss := SkillNames(skillRows);
    forall j | k < j < |skillRows|
      ensures SkillName(skillRows[j]) != SkillName(skillRows[k])
    {
      assert ss[k] == SkillName(skillRows[k]) && ss[j] == SkillName(skillRows[j]);
    }
    FoldMapValue(skillRows, SkillName, SkillWorkplaces, k);
    FoldMapValue(skillRows, SkillName, SkillGrossProfit, k);
  }
}
