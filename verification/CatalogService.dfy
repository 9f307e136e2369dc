/** The bulk importer as it runs: rows in order, tables updated in place, and makes resolved through a cache. */
module CatalogService {
  import opened Wrappers
  import opened Catalog

  class SettingsService {
    var makes: seq<Make>
    var models: seq<Model>

    function Contents(): Tables
      reads this
    {
      Tables(makes, models)
    }

    constructor ()
      ensures Contents() == Tables([], [])
    {
      makes, models := [], [];
    }

    /** The cache answers as the table would: names that agree up to case share their key. */
    ghost predicate CacheOk(cache: map<string, nat>, vt: VehicleType)
      reads this`makes
    {
      forall name: string :: Trim(name) == name && Lower(name) in cache ==>
        FindMake(makes, vt, name) == Some(cache[Lower(name)])
    }

    /** Finds a make in the cache or the table, or creates it; the cache stays right. */
    method Resolve(vt: VehicleType, makeName: string, cache: map<string, nat>)
      returns (id: nat, cache': map<string, nat>, created: bool)
      requires Trim(makeName) == makeName && CacheOk(cache, vt)
      modifies this`makes
      ensures (Contents(), id, created) == ResolveMake(old(Contents()), vt, makeName)
      ensures CacheOk(cache', vt)
    {
      var key := Lower(makeName);
      if key in cache {
        return cache[key], cache, false;
      }
      created := false;
      var existing := FindMake(makes, vt, makeName);
      if existing.Some? {
        id := existing.value;
      } else {
        id := |makes|;
        makes := makes + [Make(vt, makeName)];
        created := true;
      }
      cache' := cache[key := id];
      forall name: string | Trim(name) == name && Lower(name) in cache'
        ensures FindMake(makes, vt, name) == Some(cache'[Lower(name)]) {
        FindMakeAppend(old(makes), Make(vt, makeName), vt, name);
        SameKeySameMake(old(makes), vt, makeName, name);
      }
    }

    /** The whole import, equal to importing row by row without a cache. */
    method BulkImport(vehicleType: string, rows: seq<Row>) returns (r: Result<Counters, Error>)
      modifies this
      ensures match ParseVehicleType(vehicleType)
        case None => r == Failure(InvalidVehicleType) && Contents() == old(Contents())
        case Some(vt) =>
          r.Success? && Import(Contents(), r.value) == ImportAll(Import(old(Contents()), NOTHING), vt, rows)
    {
      var parsed := ParseVehicleType(vehicleType);
      if parsed.None? {
        return Failure(InvalidVehicleType);
      }
      var vt := parsed.value;
      var result := NOTHING;
      var cache: map<string, nat> := map[];
      var k := 0;
      assert rows[..0] == [];
      while k < |rows|
        invariant 0 <= k <= |rows|
        invariant CacheOk(cache, vt)
        invariant Import(Contents(), result) == ImportAll(Import(old(Contents()), NOTHING), vt, rows[..k])
      {
        assert rows[..k + 1][..k] == rows[..k];
        result, cache := ImportOne(vt, rows[k], result, cache);
        k := k + 1;
      }
      assert rows[..|rows|] == rows;
      return Success(result);
    }

    /** One iteration of the import loop. */
    method ImportOne(vt: VehicleType, row: Row, before: Counters, cache: map<string, nat>)
      returns (result: Counters, cache': map<string, nat>)
      requires CacheOk(cache, vt)
      modifies this
      ensures Import(Contents(), result) == ImportRow(Import(old(Contents()), before), vt, row)
      ensures CacheOk(cache', vt)
    {
      result, cache' := before, cache;
      var makeName, modelName := Trim(row.make), Trim(row.model);
      if makeName == "" || modelName == "" {
        result := result.(skipped := result.skipped + 1);
        return;
      }
      TrimTwice(row.make);
      var makeId, created;
      makeId, cache', created := Resolve(vt, makeName, cache);
      if created {
        result := result.(makesCreated := result.makesCreated + 1);
      }
      var existing := FindModel(models, makeId, modelName);
      if existing.Some? {
        result := result.(skipped := result.skipped + 1);
        return;
      }
      var category := row.category;
      if !vt.Car? {
        category := "";
      }
      models := models + [Model(makeId, modelName, category)];
      result := result.(modelsCreated := result.modelsCreated + 1);
    }
  }

  /** Names with the same key find the same make. */
  lemma {:induction false} SameKeySameMake(makes: seq<Make>, vt: VehicleType, a: string, b: string)
    requires Trim(a) == a && Trim(b) == b
    ensures Lower(a) == Lower(b) ==> FindMake(makes, vt, a) == FindMake(makes, vt, b)
  {
    if makes != [] {
      SameKeySameMake(makes[..|makes| - 1], vt, a, b);
    }
  }
}
