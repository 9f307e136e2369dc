/**
 * Imports that overlap, one repository call at a time. A lookup that finds nothing may be followed by a creation that
 * meets the same row made by another import: the unique indexes, which ignore case, report a duplicate, and the
 * import goes on with the row that exists.
 */
module ImportRuns {
  import opened Wrappers
  import opened Totals
  import opened Catalog

  /** What the import knows about its current row. */
  datatype Stage = Begin | NoMake | HasMake(make: nat) | NoModel(make: nat)

  datatype Call = Call(vt: VehicleType, rows: seq<Row>, done: nat, stage: Stage, counters: Counters)

  datatype State = State(tables: Tables, calls: map<nat, Call>)

  datatype Event = Start(call: nat, vt: VehicleType, rows: seq<Row>) | Step(call: nat)

  function Skip(c: Call): Call {
    c.(done := c.done + 1, stage := Begin, counters := c.counters.(skipped := c.counters.skipped + 1))
  }

  /** The next repository call of an import. */
  function StepCall(t: Tables, c: Call): (Tables, Call)
    requires c.done < |c.rows|
  {
    var row := c.rows[c.done];
    var makeName, modelName := Trim(row.make), Trim(row.model);
    match c.stage
    case Begin =>
      if makeName == "" || modelName == "" then (t, Skip(c))
      else
        var found := FindMake(t.makes, c.vt, makeName);
        (t, c.(stage := if found.Some? then HasMake(found.value) else NoMake))
    case NoMake =>
      var (t', id, created) := ResolveMake(t, c.vt, makeName);
      var made := if created then c.counters.makesCreated + 1 else c.counters.makesCreated;
      (t', c.(stage := HasMake(id), counters := c.counters.(makesCreated := made)))
    case HasMake(m) =>
      if FindModel(t.models, m, modelName).Some? then (t, Skip(c)) else (t, c.(stage := NoModel(m)))
    case NoModel(m) =>
      if FindModel(t.models, m, modelName).Some? then (t, Skip(c))
      else
        var model := Model(m, modelName, if c.vt.Car? then row.category else "");
        (t.(models := t.models + [model]),
         c.(done := c.done + 1, stage := Begin, counters := c.counters.(modelsCreated := c.counters.modelsCreated + 1)))
  }

  /** An event that is not possible in the current state changes nothing. */
  function Next(s: State, e: Event): State {
    match e
    case Start(call, vt, rows) =>
      if call in s.calls then s else s.(calls := s.calls[call := Call(vt, rows, 0, Begin, NOTHING)])
    case Step(call) =>
      if call in s.calls && s.calls[call].done < |s.calls[call].rows| then
        var (t, c) := StepCall(s.tables, s.calls[call]);
        State(t, s.calls[call := c])
      else s
  }

  function After(t: Tables, events: seq<Event>): State
    decreases |events|
  {
    if events == [] then State(t, map[]) else Next(After(t, events[..|events| - 1]), events[|events| - 1])
  }

  // ---- undisturbed ----

  function Steps(t: Tables, c: Call, n: nat): (Tables, Call)
    requires c.done < |c.rows|
  {
    if n == 0 then (t, c)
    else
      var (t', c') := Steps(t, c, n - 1);
      if c'.done != c.done || c'.done >= |c'.rows| then (t', c') else StepCall(t', c')
  }

  lemma OneMoreStep(t: Tables, c: Call, n: nat)
    requires c.done < |c.rows|
    ensures var (t', c') := Steps(t, c, n);
      Steps(t, c, n + 1) == if c'.done != c.done || c'.done >= |c'.rows| then (t', c') else StepCall(t', c')
  {
  }

  /** With nothing in between, the calls for a row do what the import without overlap does. */
  lemma RowAlone(t: Tables, c: Call)
    requires c.done < |c.rows| && c.stage.Begin?
    ensures var i := ImportRow(Import(t, c.counters), c.vt, c.rows[c.done]);
      Steps(t, c, 4) == (i.tables, c.(done := c.done + 1, counters := i.counters))
  {
    hide Trim, FindMake, FindModel, Lower;
    var row := c.rows[c.done];
    TrimTwice(row.make);
    FindMakeAppend(t.makes, Make(c.vt, Trim(row.make)), c.vt, Trim(row.make));
    assert Steps(t, c, 0) == (t, c);
    OneMoreStep(t, c, 0);
    OneMoreStep(t, c, 1);
    OneMoreStep(t, c, 2);
    OneMoreStep(t, c, 3);
  }

  // ---- in any interleaving ----

  /**
   * Every row that is done is in the catalogue and counted once, and the make found for the current row is its make.
   */
  predicate CallOk(t: Tables, c: Call) {
    && c.done <= |c.rows| && (c.done == |c.rows| ==> c.stage.Begin?)
    && c.counters.modelsCreated + c.counters.skipped == c.done
    && (forall k :: 0 <= k < c.done ==> Present(t, c.vt, c.rows[k]))
    && (!c.stage.Begin? ==> Trim(c.rows[c.done].make) != "" && Trim(c.rows[c.done].model) != "")
    && (c.stage.HasMake? || c.stage.NoModel? ==>
          FindMake(t.makes, c.vt, Trim(c.rows[c.done].make)) == Some(c.stage.make))
  }

  /** One row was added, or none. */
  predicate Grows(t: Tables, t': Tables) {
    || t' == t
    || (t'.models == t.models && |t'.makes| == |t.makes| + 1 && t'.makes[..|t.makes|] == t.makes)
    || (t'.makes == t.makes && |t'.models| == |t.models| + 1 && t'.models[..|t.models|] == t.models)
  }

  lemma FindStays(t: Tables, t': Tables, vt: VehicleType, name: string)
    requires Grows(t, t')
    ensures FindMake(t.makes, vt, name).Some? ==> FindMake(t'.makes, vt, name) == FindMake(t.makes, vt, name)
  {
    if |t'.makes| == |t.makes| + 1 {
      assert t'.makes == t.makes + [t'.makes[|t.makes|]];
      FindMakeAppend(t.makes, t'.makes[|t.makes|], vt, name);
    }
  }

  lemma FindModelStays(t: Tables, t': Tables, make: nat, name: string)
    requires Grows(t, t')
    ensures FindModel(t.models, make, name).Some? ==> FindModel(t'.models, make, name).Some?
  {
    if |t'.models| == |t.models| + 1 {
      assert t'.models == t.models + [t'.models[|t.models|]];
      FindModelAppend(t.models, t'.models[|t.models|], make, name);
    }
  }

  lemma StaysPresent(t: Tables, t': Tables, vt: VehicleType, row: Row)
    requires Grows(t, t') && Present(t, vt, row)
    ensures Present(t', vt, row)
  {
    hide Trim, FindMake, FindModel, Grows;
    FindStays(t, t', vt, Trim(row.make));
    var make := FindMake(t.makes, vt, Trim(row.make));
    if make.Some? {
      FindModelStays(t, t', make.value, Trim(row.model));
    }
  }

  lemma OtherCallStaysOk(t: Tables, t': Tables, c: Call)
    requires Grows(t, t') && CallOk(t, c)
    ensures CallOk(t', c)
  {
    hide Trim, FindMake, Present, Grows;
    forall k | 0 <= k < c.done ensures Present(t', c.vt, c.rows[k]) {
      StaysPresent(t, t', c.vt, c.rows[k]);
    }
    if c.done < |c.rows| {
      FindStays(t, t', c.vt, Trim(c.rows[c.done].make));
    }
  }

  lemma StepGrows(t: Tables, c: Call)
    requires c.done < |c.rows|
    ensures Grows(t, StepCall(t, c).0)
  {
    hide Trim, FindMake, FindModel;
  }

  /** The step finishes the current row. */
  predicate Finishes(t: Tables, c: Call)
    requires c.done < |c.rows|
  {
    StepCall(t, c).1.done != c.done
  }

  lemma FinishedIsPresent(t: Tables, c: Call)
    requires c.done < |c.rows| && CallOk(t, c) && Finishes(t, c)
    ensures Present(StepCall(t, c).0, c.vt, c.rows[c.done])
  {
    hide Trim, FindMake, FindModel, Lower;
    var row := c.rows[c.done];
    TrimTwice(row.model);
    if c.stage.NoModel? {
      FindModelAppend(t.models, Model(c.stage.make, Trim(row.model), if c.vt.Car? then row.category else ""),
                      c.stage.make, Trim(row.model));
    }
  }

  lemma StepKeepsCallOk(t: Tables, c: Call)
    requires c.done < |c.rows| && CallOk(t, c)
    ensures var (t', c') := StepCall(t, c); CallOk(t', c')
  {
    hide Trim, FindMake, FindModel, Lower, Present;
    var (t', c') := StepCall(t, c);
    var row := c.rows[c.done];
    StepGrows(t, c);
    OtherCallStaysOk(t, t', c);
    TrimTwice(row.make);
    FindMakeAppend(t.makes, Make(c.vt, Trim(row.make)), c.vt, Trim(row.make));
    if Finishes(t, c) {
      FinishedIsPresent(t, c);
    }
  }

  lemma StepKeepsNoTwins(t: Tables, c: Call)
    requires c.done < |c.rows| && CallOk(t, c) && NoTwins(t)
    ensures NoTwins(StepCall(t, c).0)
  {
    hide Trim, Lower, FindMake, FindModel, Present;
    var row := c.rows[c.done];
    TrimTwice(row.make);
    TrimTwice(row.model);
    FindMakeLaw(t.makes, c.vt, Trim(row.make));
    if c.stage.NoModel? {
      FindModelLaw(t.models, c.stage.make, Trim(row.model));
    }
  }

  // -- the counters of all imports --

  function MakesMade(calls: map<nat, Call>): map<nat, int> {
    map k | k in calls :: calls[k].counters.makesCreated
  }

  function ModelsMade(calls: map<nat, Call>): map<nat, int> {
    map k | k in calls :: calls[k].counters.modelsCreated
  }

  lemma OneCallChanges(calls: map<nat, Call>, k: nat, c: Call)
    ensures Total(MakesMade(calls[k := c])) ==
      Total(MakesMade(calls)) - (if k in calls then calls[k].counters.makesCreated else 0) + c.counters.makesCreated
    ensures Total(ModelsMade(calls[k := c])) ==
      Total(ModelsMade(calls)) - (if k in calls then calls[k].counters.modelsCreated else 0) + c.counters.modelsCreated
  {
    TotalUpdate(MakesMade(calls), k, c.counters.makesCreated);
    assert MakesMade(calls[k := c]) == MakesMade(calls)[k := c.counters.makesCreated];
    TotalUpdate(ModelsMade(calls), k, c.counters.modelsCreated);
    assert ModelsMade(calls[k := c]) == ModelsMade(calls)[k := c.counters.modelsCreated];
  }

  lemma StepCounts(t: Tables, c: Call)
    requires c.done < |c.rows|
    ensures var (t', c') := StepCall(t, c);
      && |t'.makes| - |t.makes| == c'.counters.makesCreated - c.counters.makesCreated
      && |t'.models| - |t.models| == c'.counters.modelsCreated - c.counters.modelsCreated
  {
    hide Trim, FindMake, FindModel;
  }

  ghost predicate Ok(t: Tables, s: State) {
    && NoTwins(s.tables) && (forall k :: k in s.calls ==> CallOk(s.tables, s.calls[k]))
    && |s.tables.makes| == |t.makes| + Total(MakesMade(s.calls))
    && |s.tables.models| == |t.models| + Total(ModelsMade(s.calls))
  }

  lemma NextKeepsOk(t: Tables, s: State, e: Event)
    requires Ok(t, s)
    ensures Ok(t, Next(s, e))
  {
    hide NoTwins, CallOk, StepCall;
    match e
    case Start(call, vt, rows) =>
      if call !in s.calls {
        NewCallOk(s.tables, vt, rows);
        OneCallChanges(s.calls, call, Call(vt, rows, 0, Begin, NOTHING));
      }
    case Step(call) =>
      if call in s.calls && s.calls[call].done < |s.calls[call].rows| {
        var c := s.calls[call];
        var (t', c') := StepCall(s.tables, c);
        StepKeepsNoTwins(s.tables, c);
        StepKeepsCallOk(s.tables, c);
        StepGrows(s.tables, c);
        StepCounts(s.tables, c);
        OneCallChanges(s.calls, call, c');
        forall k | k in s.calls && k != call ensures CallOk(t', s.calls[k]) {
          OtherCallStaysOk(s.tables, t', s.calls[k]);
        }
      }
  }

  lemma NewCallOk(t: Tables, vt: VehicleType, rows: seq<Row>)
    ensures CallOk(t, Call(vt, rows, 0, Begin, NOTHING))
  {
  }

  lemma {:induction false} RunKeepsOk(t: Tables, events: seq<Event>)
    requires NoTwins(t)
    ensures Ok(t, After(t, events))
    decreases |events|
  {
    hide Next, Ok;
    if events == [] {
      NothingImported(t);
    } else {
      RunKeepsOk(t, events[..|events| - 1]);
      NextKeepsOk(t, After(t, events[..|events| - 1]), events[|events| - 1]);
    }
  }

  lemma NothingImported(t: Tables)
    requires NoTwins(t)
    ensures Ok(t, State(t, map[]))
  {
    hide NoTwins;
    assert MakesMade(map[]) == map[] && ModelsMade(map[]) == map[];
  }

  /**
   * However imports overlap: no two makes of a type and no two models of a make agree up to case, every row an import
   * is done with is in the catalogue and was counted once, and the counters of all imports together are the growth of
   * the tables.
   */
  lemma OverlappingImports(t: Tables, events: seq<Event>)
    requires NoTwins(t)
    ensures var s := After(t, events);
      && NoTwins(s.tables)
      && (forall k :: k in s.calls ==>
            var c := s.calls[k];
            && c.done <= |c.rows| && c.counters.modelsCreated + c.counters.skipped == c.done
            && forall j :: 0 <= j < c.done ==> Present(s.tables, c.vt, c.rows[j]))
      && |s.tables.makes| == |t.makes| + Total(MakesMade(s.calls))
      && |s.tables.models| == |t.models| + Total(ModelsMade(s.calls))
  {
    hide NoTwins, After, Present;
    RunKeepsOk(t, events);
  }
}
