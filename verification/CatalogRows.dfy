/** What one row of a sheet does to the catalogue, letter by letter: blanks, case, and what is created. */
module CatalogRows {
  import opened Catalog

  // ---- blanks ----

  /** Space, tab, line feed, vertical tab, form feed and carriage return. */
  predicate Blank(c: char) {
    c as int in {9, 10, 11, 12, 13, 32}
  }

  predicate AllBlank(s: string) {
    forall i :: 0 <= i < |s| ==> Blank(s[i])
  }

  /** The text between the blanks. */
  ghost predicate IsCore(s: string, t: string) {
    (t == [] || (!Blank(t[0]) && !Blank(t[|t| - 1])))
    && exists a, b :: s == a + t + b && AllBlank(a) && AllBlank(b)
  }

  lemma SpaceIsBlank(c: char)
    ensures Space(c) <==> Blank(c)
  {
    assert '\t' as int == 9 && '\r' as int == 13 && ' ' as int == 32;
  }

  lemma {:induction false} LeftCut(s: string) returns (a: string)
    ensures s == a + TrimLeft(s) && AllBlank(a) && (TrimLeft(s) == [] || !Blank(TrimLeft(s)[0]))
  {
    a := [];
    if s != [] {
      SpaceIsBlank(s[0]);
      if Space(s[0]) {
        var rest := LeftCut(s[1..]);
        a := [s[0]] + rest;
      }
    }
  }

  lemma {:induction false} RightCut(s: string) returns (b: string)
    ensures s == TrimRight(s) + b && AllBlank(b) && (TrimRight(s) == [] || !Blank(TrimRight(s)[|TrimRight(s)| - 1]))
  {
    b := [];
    if s != [] {
      SpaceIsBlank(s[|s| - 1]);
      if Space(s[|s| - 1]) {
        var rest := RightCut(s[..|s| - 1]);
        b := rest + [s[|s| - 1]];
      }
    }
  }

  /** Trimming gives the core of a text, and every text has only this one. */
  lemma CoreIs(s: string, t: string)
    ensures IsCore(s, t) <==> t == Trim(s)
  {
    var a := LeftCut(s);
    var b := RightCut(TrimLeft(s));
    assert s == a + Trim(s) + b;
    assert Trim(s) != [] ==> Trim(s)[0] == TrimLeft(s)[0];
    assert IsCore(s, Trim(s));
    if IsCore(s, t) {
      CoreIsUnique(s, t, Trim(s));
    }
  }

  lemma CoreIsUnique(s: string, t: string, u: string)
    requires IsCore(s, t) && IsCore(s, u)
    ensures t == u
  {
    var a, b :| s == a + t + b && AllBlank(a) && AllBlank(b);
    var c, d :| s == c + u + d && AllBlank(c) && AllBlank(d);
    if t != [] {
      CoreIsNotBlank(s, a, t, b);
    }
    if u != [] {
      CoreIsNotBlank(s, c, u, d);
    }
    if t == [] {
      BlanksOnly(s, a, b);
    } else if u == [] {
      BlanksOnly(s, c, d);
    } else {
      CoreStartsAlike(s, a, t, b, c, u, d);
      CoreStartsAlike(s, c, u, d, a, t, b);
      CoreEndsAlike(s, a, t, b, c, u, d);
      CoreEndsAlike(s, c, u, d, a, t, b);
      assert |a| == |c| && |b| == |d|;
      assert t == s[|a|..|s| - |b|] && u == s[|c|..|s| - |d|];
    }
  }

  lemma CoreIsNotBlank(s: string, a: string, t: string, b: string)
    requires s == a + t + b && t != [] && !Blank(t[0])
    ensures !AllBlank(s)
  {
    assert s[|a|] == t[0];
  }

  lemma BlanksOnly(s: string, a: string, b: string)
    requires s == a + [] + b && AllBlank(a) && AllBlank(b)
    ensures AllBlank(s)
  {
  }

  lemma CoreStartsAlike(s: string, a: string, t: string, b: string, c: string, u: string, d: string)
    requires s == a + t + b && t != [] && !Blank(t[0])
    requires s == c + u + d && AllBlank(c)
    ensures |c| <= |a|
  {
    assert s[|a|] == t[0];
    forall i | 0 <= i < |c| ensures Blank(s[i]) {
      assert s[i] == c[i];
    }
  }

  lemma CoreEndsAlike(s: string, a: string, t: string, b: string, c: string, u: string, d: string)
    requires s == a + t + b && t != [] && !Blank(t[|t| - 1])
    requires s == c + u + d && AllBlank(d)
    ensures |d| <= |b|
  {
    assert s[|a| + |t| - 1] == t[|t| - 1];
    forall i | |c| + |u| <= i < |s| ensures Blank(s[i]) {
      assert s[i] == d[i - |c| - |u|];
    }
  }

  // ---- case ----

  /** The same letter, small or capital, or the same other character. */
  predicate SameLetter(c: char, d: char) {
    || c == d
    || ('a' <= c <= 'z' && d as int == c as int - 32)
    || ('A' <= c <= 'Z' && d as int == c as int + 32)
  }

  /** The same name up to case. */
  predicate SameName(a: string, b: string) {
    |a| == |b| && forall i :: 0 <= i < |a| ==> SameLetter(a[i], b[i])
  }

  lemma SameLetterIs(c: char, d: char)
    ensures LowerChar(c) == LowerChar(d) <==> SameLetter(c, d)
  {
    assert 'a' as int == 97 && 'z' as int == 122 && 'A' as int == 65 && 'Z' as int == 90;
  }

  /** Names have the same key exactly when they agree up to case. */
  lemma SameNameIs(a: string, b: string)
    ensures Lower(a) == Lower(b) <==> SameName(a, b)
  {
    if |a| == |b| {
      forall i | 0 <= i < |a| ensures Lower(a)[i] == Lower(b)[i] <==> SameLetter(a[i], b[i]) {
        SameLetterIs(a[i], b[i]);
      }
      if SameName(a, b) {
        assert Lower(a) == Lower(b);
      } else {
        var i :| 0 <= i < |a| && !SameLetter(a[i], b[i]);
        assert Lower(a)[i] != Lower(b)[i];
      }
    } else {
      assert |Lower(a)| == |a| && |Lower(b)| == |b|;
    }
  }

  // ---- rows ----

  /** The catalogue has a make of the type under this name. */
  ghost predicate HasMake(t: Tables, vt: VehicleType, name: string) {
    exists k :: 0 <= k < |t.makes| && t.makes[k].vehicleType == vt && SameName(t.makes[k].name, name)
  }

  ghost predicate HasModel(t: Tables, make: nat, name: string) {
    exists k :: 0 <= k < |t.models| && t.models[k].make == make && SameName(t.models[k].name, name)
  }

  /** The make a row belongs to: the first of its type under its name. */
  predicate IsMakeOf(t: Tables, vt: VehicleType, name: string, make: nat) {
    && make < |t.makes| && t.makes[make].vehicleType == vt && SameName(t.makes[make].name, name)
    && forall k :: 0 <= k < make ==> !(t.makes[k].vehicleType == vt && SameName(t.makes[k].name, name))
  }

  /**
   * A row without make or model is skipped. Any other row's make is created, spelled as in the row but for the blanks
   * around it, exactly if no make of the type has its name up to case; its model likewise within that make, and with a
   * category for cars only. One counter goes up for what was created, or the skipped one if no model was.
   */
  ghost predicate IsImported(i: Import, i': Import, vt: VehicleType, make: string, model: string, category: string) {
    var (t, t', c, c') := (i.tables, i'.tables, i.counters, i'.counters);
    if make == "" || model == "" then t' == t && c' == c.(skipped := c.skipped + 1)
    else
      && t'.makes == (if HasMake(t, vt, make) then t.makes else t.makes + [Make(vt, make)])
      && c'.makesCreated == c.makesCreated + (if HasMake(t, vt, make) then 0 else 1)
      && exists m :: (
        && IsMakeOf(t', vt, make, m)
        && t'.models == (if HasModel(t, m, model) then t.models
                         else t.models + [Model(m, model, if vt == Car then category else "")])
        && c'.modelsCreated == c.modelsCreated + (if HasModel(t, m, model) then 0 else 1)
        && c'.skipped == c.skipped + (if HasModel(t, m, model) then 1 else 0))
  }

  lemma FoundMakeIs(t: Tables, vt: VehicleType, name: string)
    requires Trim(name) == name
    ensures match FindMake(t.makes, vt, name)
      case Some(m) => IsMakeOf(t, vt, name, m) && HasMake(t, vt, name)
      case None => !HasMake(t, vt, name)
  {
    FindMakeLaw(t.makes, vt, name);
    forall k | 0 <= k < |t.makes|
      ensures SameName(t.makes[k].name, name) <==> Lower(t.makes[k].name) == Lower(name)
    {
      SameNameIs(t.makes[k].name, name);
    }
  }

  lemma FoundModelIs(t: Tables, make: nat, name: string)
    requires Trim(name) == name
    ensures FindModel(t.models, make, name).Some? <==> HasModel(t, make, name)
  {
    FindModelLaw(t.models, make, name);
    forall k | 0 <= k < |t.models|
      ensures SameName(t.models[k].name, name) <==> Lower(t.models[k].name) == Lower(name)
    {
      SameNameIs(t.models[k].name, name);
    }
  }

  lemma NewMakeIsOf(t: Tables, vt: VehicleType, name: string)
    requires !HasMake(t, vt, name)
    ensures IsMakeOf(t.(makes := t.makes + [Make(vt, name)]), vt, name, |t.makes|)
  {
    assert SameName(name, name);
  }

  lemma RowIsImported(i: Import, vt: VehicleType, row: Row)
    ensures IsImported(i, ImportRow(i, vt, row), vt, Trim(row.make), Trim(row.model), row.category)
  {
    hide Trim, Lower, FindMake, FindModel, IsMakeOf, HasMake, HasModel;
    var (make, model) := (Trim(row.make), Trim(row.model));
    if make != "" && model != "" {
      TrimTwice(row.make);
      TrimTwice(row.model);
      FoundMakeIs(i.tables, vt, make);
      var (t, m, created) := ResolveMake(i.tables, vt, make);
      if created {
        NewMakeIsOf(i.tables, vt, make);
      }
      FoundModelIs(t, m, model);
      SameModels(i.tables, t, m, model);
      SameMakes(t, ImportRow(i, vt, row).tables, vt, make, m);
    }
  }

  lemma SameModels(t: Tables, t': Tables, make: nat, name: string)
    requires t'.models == t.models
    ensures HasModel(t', make, name) <==> HasModel(t, make, name)
  {
  }

  lemma SameMakes(t: Tables, t': Tables, vt: VehicleType, name: string, make: nat)
    requires t'.makes == t.makes
    ensures IsMakeOf(t', vt, name, make) <==> IsMakeOf(t, vt, name, make)
  {
  }

  /** A row whose make could be created and whose model could not leaves the make behind, and nothing else. */
  lemma BrokenRowLeavesMake(t: Tables, vt: VehicleType, row: Row)
    ensures var (make, model) := (Trim(row.make), Trim(row.model));
      Broken(t, vt, row) == if make == "" || model == "" || HasMake(t, vt, make) then t
                            else t.(makes := t.makes + [Make(vt, make)])
  {
    hide Trim, Lower, FindMake, HasMake, IsMakeOf;
    TrimTwice(row.make);
    FoundMakeIs(t, vt, Trim(row.make));
  }
}
