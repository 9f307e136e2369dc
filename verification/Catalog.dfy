/** The vehicle catalogue and its bulk importer. Names are ASCII; rows are found by trimmed, lower-cased name. */
module Catalog {
  import opened Wrappers

  datatype VehicleType = Car | Okada | Keke | Bus

  /** A row's id is its place in the table. */
  datatype Make = Make(vehicleType: VehicleType, name: string)
  datatype Model = Model(make: nat, name: string, category: string)

  datatype Tables = Tables(makes: seq<Make>, models: seq<Model>)

  datatype Row = Row(make: string, model: string, category: string)

  datatype Counters = Counters(makesCreated: nat, modelsCreated: nat, skipped: nat)

  datatype Error = InvalidVehicleType

  function ParseVehicleType(s: string): (r: Option<VehicleType>)
    ensures r == Some(Car) <==> s == "car"
    ensures r == Some(Okada) <==> s == "okada"
    ensures r == Some(Keke) <==> s == "keke"
    ensures r == Some(Bus) <==> s == "bus"
  {
    if s == "car" then Some(Car) else if s == "okada" then Some(Okada)
    else if s == "keke" then Some(Keke) else if s == "bus" then Some(Bus) else None
  }

  // ---- names ----

  predicate Space(c: char) {
    c == ' ' || '\t' <= c <= '\r'
  }

  function TrimLeft(s: string): string {
    if s != [] && Space(s[0]) then TrimLeft(s[1..]) else s
  }

  function TrimRight(s: string): string {
    if s != [] && Space(s[|s| - 1]) then TrimRight(s[..|s| - 1]) else s
  }

  function Trim(s: string): string {
    TrimRight(TrimLeft(s))
  }

  function LowerChar(c: char): char {
    if 'A' <= c <= 'Z' then c - 'A' + 'a' else c
  }

  function Lower(s: string): string {
    seq(|s|, i requires 0 <= i < |s| => LowerChar(s[i]))
  }

  // ---- lookups ----

  /** FindMakeByName: the first make of the type with this name, ignoring case. */
  function FindMake(makes: seq<Make>, vt: VehicleType, name: string): Option<nat> {
    if makes == [] then None
    else
      var last := |makes| - 1;
      var earlier := FindMake(makes[..last], vt, name);
      if earlier.Some? then earlier
      else if makes[last].vehicleType == vt && Lower(makes[last].name) == Lower(Trim(name)) then Some(last)
      else None
  }

  function FindModel(models: seq<Model>, make: nat, name: string): Option<nat> {
    if models == [] then None
    else
      var last := |models| - 1;
      var earlier := FindModel(models[..last], make, name);
      if earlier.Some? then earlier
      else if models[last].make == make && Lower(models[last].name) == Lower(Trim(name)) then Some(last)
      else None
  }

  // ---- importing without a cache ----

  datatype Import = Import(tables: Tables, counters: Counters)

  /** The row's make, created if the catalogue does not have it. */
  function ResolveMake(t: Tables, vt: VehicleType, makeName: string): (Tables, nat, bool) {
    match FindMake(t.makes, vt, makeName)
    case Some(id) => (t, id, false)
    case None => (t.(makes := t.makes + [Make(vt, makeName)]), |t.makes|, true)
  }

  function ImportRow(i: Import, vt: VehicleType, row: Row): Import {
    var makeName, modelName := Trim(row.make), Trim(row.model);
    if makeName == "" || modelName == "" then i.(counters := i.counters.(skipped := i.counters.skipped + 1))
    else
      var (t, make, created) := ResolveMake(i.tables, vt, makeName);
      var c := if created then i.counters.(makesCreated := i.counters.makesCreated + 1) else i.counters;
      if FindModel(t.models, make, modelName).Some? then Import(t, c.(skipped := c.skipped + 1))
      else
        var model := Model(make, modelName, if vt.Car? then row.category else "");
        Import(t.(models := t.models + [model]), c.(modelsCreated := c.modelsCreated + 1))
  }

  function ImportAll(i: Import, vt: VehicleType, rows: seq<Row>): Import {
    if rows == [] then i else ImportRow(ImportAll(i, vt, rows[..|rows| - 1]), vt, rows[|rows| - 1])
  }

  const NOTHING := Counters(0, 0, 0)

  // ---- laws of trimming and lookup ----

  lemma {:induction false} TrimRightEnds(s: string)
    ensures var t := TrimRight(s); t == [] || !Space(t[|t| - 1])
    ensures TrimRight(s) <= s
  {
    if s != [] && Space(s[|s| - 1]) {
      TrimRightEnds(s[..|s| - 1]);
    }
  }

  lemma {:induction false} TrimLeftStarts(s: string)
    ensures var t := TrimLeft(s); t == [] || !Space(t[0])
  {
    if s != [] && Space(s[0]) {
      TrimLeftStarts(s[1..]);
    }
  }

  lemma TrimTwice(s: string)
    ensures Trim(Trim(s)) == Trim(s)
  {
    TrimLeftStarts(s);
    TrimRightEnds(TrimLeft(s));
  }

  /** A found make has the type and name asked for, and no earlier one has. */
  lemma {:induction false} FindMakeLaw(makes: seq<Make>, vt: VehicleType, name: string)
    ensures match FindMake(makes, vt, name)
      case Some(i) => i < |makes| && makes[i].vehicleType == vt && Lower(makes[i].name) == Lower(Trim(name))
                      && forall j :: 0 <= j < i ==>
                        !(makes[j].vehicleType == vt && Lower(makes[j].name) == Lower(Trim(name)))
      case None => forall j :: 0 <= j < |makes| ==>
        !(makes[j].vehicleType == vt && Lower(makes[j].name) == Lower(Trim(name)))
  {
    if makes != [] {
      FindMakeLaw(makes[..|makes| - 1], vt, name);
    }
  }

  lemma FindMakeAppend(makes: seq<Make>, m: Make, vt: VehicleType, name: string)
    ensures FindMake(makes + [m], vt, name) ==
      if FindMake(makes, vt, name).Some? then FindMake(makes, vt, name)
      else if m.vehicleType == vt && Lower(m.name) == Lower(Trim(name)) then Some(|makes|) else None
  {
    assert (makes + [m])[..|makes|] == makes;
  }

  lemma FindModelAppend(models: seq<Model>, m: Model, make: nat, name: string)
    ensures FindModel(models + [m], make, name) ==
      if FindModel(models, make, name).Some? then FindModel(models, make, name)
      else if m.make == make && Lower(m.name) == Lower(Trim(name)) then Some(|models|) else None
  {
    assert (models + [m])[..|models|] == models;
  }

  // ---- what an import promises ----

  /** Every row of the sheet is either a new model or skipped. */
  lemma {:induction false} EveryRowCounts(i: Import, vt: VehicleType, rows: seq<Row>)
    ensures var c := ImportAll(i, vt, rows).counters;
      c.modelsCreated + c.skipped == i.counters.modelsCreated + i.counters.skipped + |rows|
  {
    if rows != [] {
      EveryRowCounts(i, vt, rows[..|rows| - 1]);
    }
  }

  /** The counters are what was added to the tables. */
  lemma {:induction false} CountersMatchTables(i: Import, vt: VehicleType, rows: seq<Row>)
    ensures var i' := ImportAll(i, vt, rows);
      && i.tables.makes <= i'.tables.makes && i.tables.models <= i'.tables.models
      && |i'.tables.makes| - |i.tables.makes| == i'.counters.makesCreated - i.counters.makesCreated
      && |i'.tables.models| - |i.tables.models| == i'.counters.modelsCreated - i.counters.modelsCreated
  {
    if rows != [] {
      CountersMatchTables(i, vt, rows[..|rows| - 1]);
    }
  }

  /** A sheet imported in two parts gives the same catalogue and counters. */
  lemma {:induction false} ImportInParts(i: Import, vt: VehicleType, a: seq<Row>, b: seq<Row>)
    ensures ImportAll(i, vt, a + b) == ImportAll(ImportAll(i, vt, a), vt, b)
  {
    if b == [] {
      assert a + b == a;
    } else {
      ImportInParts(i, vt, a, b[..|b| - 1]);
      assert (a + b)[..|a + b| - 1] == a + b[..|b| - 1];
    }
  }

  /** The row would create nothing. */
  predicate Present(t: Tables, vt: VehicleType, row: Row) {
    var makeName, modelName := Trim(row.make), Trim(row.model);
    makeName == "" || modelName == "" ||
    (var make := FindMake(t.makes, vt, makeName);
     make.Some? && FindModel(t.models, make.value, modelName).Some?)
  }

  lemma ImportedIsPresent(i: Import, vt: VehicleType, row: Row)
    ensures Present(ImportRow(i, vt, row).tables, vt, row)
  {
    hide Trim, Lower;
    var makeName, modelName := Trim(row.make), Trim(row.model);
    TrimTwice(row.make);
    TrimTwice(row.model);
    if makeName != "" && modelName != "" {
      FindMakeAppend(i.tables.makes, Make(vt, makeName), vt, makeName);
      var (t, make, _) := ResolveMake(i.tables, vt, makeName);
      FindModelAppend(t.models, Model(make, modelName, if vt.Car? then row.category else ""), make, modelName);
    }
  }

  lemma PresentStays(i: Import, vt: VehicleType, row: Row, other: Row)
    requires Present(i.tables, vt, other)
    ensures Present(ImportRow(i, vt, row).tables, vt, other)
  {
    hide Trim, Lower, FindMake, FindModel;
    var makeName := Trim(row.make);
    var (t, make, _) := ResolveMake(i.tables, vt, makeName);
    FindMakeAppend(i.tables.makes, Make(vt, makeName), vt, Trim(other.make));
    var m := FindMake(i.tables.makes, vt, Trim(other.make));
    if m.Some? {
      FindModelAppend(t.models, Model(make, Trim(row.model), if vt.Car? then row.category else ""), m.value,
                      Trim(other.model));
    }
  }

  lemma {:induction false} AllPresent(i: Import, vt: VehicleType, rows: seq<Row>)
    ensures forall k :: 0 <= k < |rows| ==> Present(ImportAll(i, vt, rows).tables, vt, rows[k])
  {
    if rows != [] {
      var front, last := rows[..|rows| - 1], rows[|rows| - 1];
      AllPresent(i, vt, front);
      hide Present, ImportRow;
      ImportedIsPresent(ImportAll(i, vt, front), vt, last);
      forall k | 0 <= k < |front| ensures Present(ImportAll(i, vt, rows).tables, vt, rows[k]) {
        PresentStays(ImportAll(i, vt, front), vt, last, front[k]);
      }
    }
  }

  lemma {:induction false} PresentCreatesNothing(t: Tables, vt: VehicleType, rows: seq<Row>)
    requires forall k :: 0 <= k < |rows| ==> Present(t, vt, rows[k])
    ensures ImportAll(Import(t, NOTHING), vt, rows) == Import(t, Counters(0, 0, |rows|))
  {
    if rows != [] {
      PresentCreatesNothing(t, vt, rows[..|rows| - 1]);
      SkipsPresent(t, vt, rows[|rows| - 1], |rows| - 1);
    }
  }

  lemma SkipsPresent(t: Tables, vt: VehicleType, row: Row, n: nat)
    requires Present(t, vt, row)
    ensures ImportRow(Import(t, Counters(0, 0, n)), vt, row) == Import(t, Counters(0, 0, n + 1))
  {
    hide Trim, Lower, FindMake, FindModel;
  }

  /** Importing a sheet again, or any sheet of rows from it, creates nothing and skips every row. */
  lemma ReimportCreatesNothing(i: Import, vt: VehicleType, rows: seq<Row>, again: seq<Row>)
    requires forall k :: 0 <= k < |again| ==> again[k] in rows
    ensures var t := ImportAll(i, vt, rows).tables;
      ImportAll(Import(t, NOTHING), vt, again) == Import(t, Counters(0, 0, |again|))
  {
    hide Present;
    AllPresent(i, vt, rows);
    PresentCreatesNothing(ImportAll(i, vt, rows).tables, vt, again);
  }

  // ---- an import that a database error cuts short ----

  /** What a row leaves behind when its make could be created and its model could not. */
  function Broken(t: Tables, vt: VehicleType, row: Row): Tables {
    if Trim(row.make) == "" || Trim(row.model) == "" then t else ResolveMake(t, vt, Trim(row.make)).0
  }

  lemma BrokenThenImported(t: Tables, vt: VehicleType, row: Row, c: Counters, d: Counters)
    ensures ImportRow(Import(Broken(t, vt, row), c), vt, row).tables == ImportRow(Import(t, d), vt, row).tables
  {
    hide Trim, Lower, FindMake, FindModel;
    TrimTwice(row.make);
    FindMakeAppend(t.makes, Make(vt, Trim(row.make)), vt, Trim(row.make));
  }

  lemma PresentAfterBroken(t: Tables, vt: VehicleType, row: Row, other: Row)
    requires Present(t, vt, other)
    ensures Present(Broken(t, vt, row), vt, other)
  {
    hide Trim, Lower, FindMake, FindModel;
    FindMakeAppend(t.makes, Make(vt, Trim(row.make)), vt, Trim(other.make));
  }

  lemma {:induction false} TablesOnly(i: Import, j: Import, vt: VehicleType, rows: seq<Row>)
    requires i.tables == j.tables
    ensures ImportAll(i, vt, rows).tables == ImportAll(j, vt, rows).tables
  {
    hide Trim, Lower, FindMake, FindModel;
    if rows != [] {
      TablesOnly(i, j, vt, rows[..|rows| - 1]);
    }
  }

  /**
   * An import that a database error ends at row k, before or after that row's make was created, is made good by
   * importing the whole sheet again: the catalogue is then the one an undisturbed import gives.
   */
  lemma RetryAfterOutage(t: Tables, vt: VehicleType, rows: seq<Row>, k: nat, makeDone: bool)
    requires k < |rows|
    ensures var done := ImportAll(Import(t, NOTHING), vt, rows[..k]).tables;
      var left := if makeDone then Broken(done, vt, rows[k]) else done;
      ImportAll(Import(left, NOTHING), vt, rows).tables == ImportAll(Import(t, NOTHING), vt, rows).tables
  {
    hide Present, ImportRow, Broken;
    var first, a, rest := Import(t, NOTHING), rows[..k], rows[k + 1..];
    var done := ImportAll(first, vt, a).tables;
    var left := if makeDone then Broken(done, vt, rows[k]) else done;
    AllPresent(first, vt, a);
    forall j | 0 <= j < |a| ensures Present(left, vt, a[j]) {
      PresentAfterBroken(done, vt, rows[k], a[j]);
    }
    PresentCreatesNothing(left, vt, a);
    BrokenThenImported(done, vt, rows[k], Counters(0, 0, k), ImportAll(first, vt, a).counters);
    TablesOnly(Import(done, Counters(0, 0, k)), ImportAll(first, vt, a), vt, [rows[k]]);
    assert rows == (a + [rows[k]]) + rest && (a + [rows[k]])[..k] == a;
    assert [rows[k]][..0] == [];
    ImportInParts(Import(left, NOTHING), vt, a + [rows[k]], rest);
    ImportInParts(first, vt, a + [rows[k]], rest);
    TablesOnly(ImportAll(Import(left, NOTHING), vt, a + [rows[k]]), ImportAll(first, vt, a + [rows[k]]), vt, rest);
  }

  /** No two makes of a type, and no two models of a make, share a name up to case. */
  ghost predicate NoTwins(t: Tables) {
    && (forall j, k :: 0 <= j < k < |t.makes| ==>
          !(t.makes[j].vehicleType == t.makes[k].vehicleType && Lower(t.makes[j].name) == Lower(t.makes[k].name)))
    && (forall j, k :: 0 <= j < k < |t.models| ==>
          !(t.models[j].make == t.models[k].make && Lower(t.models[j].name) == Lower(t.models[k].name)))
    && (forall k :: 0 <= k < |t.models| ==> t.models[k].make < |t.makes|)
  }

  lemma {:induction false} FindModelLaw(models: seq<Model>, make: nat, name: string)
    ensures match FindModel(models, make, name)
      case Some(i) => i < |models| && models[i].make == make && Lower(models[i].name) == Lower(Trim(name))
      case None => forall j :: 0 <= j < |models| ==>
        !(models[j].make == make && Lower(models[j].name) == Lower(Trim(name)))
  {
    if models != [] {
      FindModelLaw(models[..|models| - 1], make, name);
    }
  }

  lemma ImportRowKeepsNoTwins(i: Import, vt: VehicleType, row: Row)
    requires NoTwins(i.tables)
    ensures NoTwins(ImportRow(i, vt, row).tables)
  {
    hide Trim, Lower, FindMake, FindModel;
    var makeName, modelName := Trim(row.make), Trim(row.model);
    TrimTwice(row.make);
    TrimTwice(row.model);
    FindMakeLaw(i.tables.makes, vt, makeName);
    var (t, make, _) := ResolveMake(i.tables, vt, makeName);
    FindModelLaw(t.models, make, modelName);
  }

  /** Imports keep the catalogue free of duplicates. */
  lemma {:induction false} ImportKeepsNoTwins(i: Import, vt: VehicleType, rows: seq<Row>)
    requires NoTwins(i.tables)
    ensures NoTwins(ImportAll(i, vt, rows).tables)
  {
    hide NoTwins, ImportRow;
    if rows != [] {
      ImportKeepsNoTwins(i, vt, rows[..|rows| - 1]);
      ImportRowKeepsNoTwins(ImportAll(i, vt, rows[..|rows| - 1]), vt, rows[|rows| - 1]);
    }
  }
}
