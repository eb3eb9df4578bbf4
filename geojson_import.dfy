/** `migrate_geojson` of the `import_data` command: the GeoJSON files in
    order, district files first, and for each feature the parent it names and
    the upsert of a Geography keyed by its code and that parent. */
module GeojsonImport {
  import opened Query
  import opened Text
  import opened Models
  import opened Inputs

  // ---- The order of the files ----

  /** `"_district" in os.path.basename(x)` */
  predicate IsDistrictFile(f: GeoFile) {
    Contains(Basename(f.path), "_district")
  }

  /** The sort key `("_district" not in basename, basename)` of `a` is at
      most that of `b`: `False` sorts before `True`. */
  predicate FileBefore(a: GeoFile, b: GeoFile) {
    if IsDistrictFile(a) != IsDistrictFile(b) then IsDistrictFile(a)
    else StrLe(Basename(a.path), Basename(b.path))
  }

  lemma FileBeforeTotal(a: GeoFile, b: GeoFile)
    ensures FileBefore(a, b) || FileBefore(b, a)
  {
    StrLeTotal(Basename(a.path), Basename(b.path));
  }

  lemma FileBeforeTransitive(a: GeoFile, b: GeoFile, c: GeoFile)
    requires FileBefore(a, b) && FileBefore(b, c)
    ensures FileBefore(a, c)
  {
    if IsDistrictFile(a) == IsDistrictFile(b) == IsDistrictFile(c) {
      StrLeTransitive(Basename(a.path), Basename(b.path), Basename(c.path));
    }
  }

  /** `sorted(files, key=lambda x: ("_district" not in basename(x), basename(x)))`:
      the same files, every district file before every other one, and each
      group by basename. */
  function OrderGeoFiles(files: seq<GeoFile>): (r: seq<GeoFile>)
    ensures multiset(r) == multiset(files) && |r| == |files|
    ensures SortedBy(r, FileBefore)
    ensures forall i, j :: 0 <= i < j < |r| && IsDistrictFile(r[j]) ==> IsDistrictFile(r[i])
  {
    assert Total(FileBefore) by {
      forall a, b { FileBeforeTotal(a, b); }
    }
    assert Transitive(FileBefore) by {
      forall a, b, c | FileBefore(a, b) && FileBefore(b, c) { FileBeforeTransitive(a, b, c); }
    }
    SortBy(files, FileBefore)
  }

  // ---- The parent a feature names ----

  /** `ft["properties"][k]` for each key in turn; KeyError on the first
      missing one. */
  function ReadProps(f: Feature, keys: seq<string>): (r: Outcome<seq<string>>)
    ensures r.Ok? <==> forall k :: 0 <= k < |keys| ==> keys[k] in f.properties
    ensures r.Ok? ==> |r.value| == |keys| && forall k :: 0 <= k < |keys| ==> r.value[k] == f.properties[keys[k]]
    ensures r.Err? ==> r.error == "KeyError"
  {
    if keys == [] then Ok([])
    else if keys[0] !in f.properties then Err("KeyError")
    else
      var rest := ReadProps(f, keys[1..]);
      if rest.Err? then rest else Ok([f.properties[keys[0]]] + rest.value)
  }

  /** A parent chosen for a feature, and the Geography table afterwards. */
  datatype ParentPick = ParentPick(id: Id, geos: seq<Geography>)

  /** The STATE row a district file names: `Geography.objects.get(name__iexact=state,
      type="STATE")`, or, on DoesNotExist, a new STATE named `state.capitalize()`
      with code `code` and no parent, saved at once. */
  function StateFor(geos: seq<Geography>, state: string, code: string): (r: Outcome<ParentPick>)
    ensures r.Ok? ==> r.value.id < |r.value.geos|
  {
    match GeographyWhere(geos, NamedKind(state, STATE))
    case Found(id) => Ok(ParentPick(id, geos))
    case Multiple => Err("MultipleObjectsReturned")
    case NotFound =>
      var saved := SaveGeography(geos, None, Geography(Capitalize(state), code, STATE, None, None));
      if saved.None? then Err("IntegrityError") else Ok(ParentPick(|geos|, saved.value))
  }

  /** The one STATE row whose name matches case-insensitively is used when
      there is one; without one a STATE is created, and IntegrityError is
      raised exactly when its code or name is taken; two matching rows raise
      MultipleObjectsReturned. */
  lemma StateForMeaning(geos: seq<Geography>, state: string, code: string)
    ensures StateFor(geos, state, code).Ok? && StateFor(geos, state, code).value.geos == geos ==>
              Answers(geos[StateFor(geos, state, code).value.id], NamedKind(state, STATE))
    ensures StateFor(geos, state, code).Ok? && StateFor(geos, state, code).value.geos != geos ==>
              (forall k :: 0 <= k < |geos| ==> !Answers(geos[k], NamedKind(state, STATE))) &&
              StateFor(geos, state, code).value ==
                ParentPick(|geos|, geos + [Geography(Capitalize(state), code, STATE, None, None)])
    ensures StateFor(geos, state, code) == Err("MultipleObjectsReturned") <==>
              exists a, b :: 0 <= a < b < |geos| &&
                Answers(geos[a], NamedKind(state, STATE)) && Answers(geos[b], NamedKind(state, STATE))
    ensures forall k :: 0 <= k < |geos| && Answers(geos[k], NamedKind(state, STATE)) &&
                        (forall j :: 0 <= j < |geos| && j != k ==> !Answers(geos[j], NamedKind(state, STATE)))
                        ==> StateFor(geos, state, code) == Ok(ParentPick(k, geos))
    ensures StateFor(geos, state, code) == Err("IntegrityError") <==>
              (forall k :: 0 <= k < |geos| ==> !Answers(geos[k], NamedKind(state, STATE))) &&
              Clashes(geos, None, Geography(Capitalize(state), code, STATE, None, None))
  {
    var look := GeographyWhere(geos, NamedKind(state, STATE));
    GeographyWhereMultiple(geos, NamedKind(state, STATE));
    if look.Found? {
      GeographyWhereFound(geos, NamedKind(state, STATE));
    } else if look.NotFound? {
      GeographyWhereNotFound(geos, NamedKind(state, STATE));
    }
  }

  /** A STATE is created at most once: asked again for the same name, with
      any code, the lookup finds the row the first call used or created. */
  lemma StateCreatedOnce(geos: seq<Geography>, state: string, code: string, again: string)
    requires StateFor(geos, state, code).Ok?
    ensures StateFor(StateFor(geos, state, code).value.geos, state, again) ==
              Ok(StateFor(geos, state, code).value)
  {
    var q := NamedKind(state, STATE);
    var p := StateFor(geos, state, code).value;
    var look := GeographyWhere(geos, q);
    GeographyWhereMultiple(geos, q);
    if look.Found? {
      GeographyWhereFound(geos, q);
    } else {
      GeographyWhereNotFound(geos, q);
      LowerCapitalize(state);
      assert Answers(p.geos[|geos|], q);
      forall k | 0 <= k < |p.geos| && k != |geos| ensures !Answers(p.geos[k], q) {
        assert p.geos[k] == geos[k];
      }
      GeographyWhereNotFound(p.geos, q);
      GeographyWhereMultiple(p.geos, q);
      if GeographyWhere(p.geos, q).Found? {
        GeographyWhereFound(p.geos, q);
      }
    }
  }

  /** `Geography.objects.get(q)` for a parent that must exist: DoesNotExist
      and MultipleObjectsReturned are not caught. */
  function ParentWhere(geos: seq<Geography>, q: GeoQuery): (r: Outcome<Id>)
    ensures r.Ok? ==> r.value < |geos|
  {
    match GeographyWhere(geos, q)
    case Found(id) => Ok(id)
    case NotFound => Err("DoesNotExist")
    case Multiple => Err("MultipleObjectsReturned")
  }

  /** What a feature is saved as: its type, code and name and the parent it
      hangs under (the locals `geo_type`, `code`, `name`, `parent_geo_obj`). */
  datatype Target = Target(kind: string, code: string, name: string, parent: Id)

  /** A feature's target, and the Geography table afterwards. */
  datatype TargetPick = TargetPick(target: Target, geos: seq<Geography>)

  /** How a file names a feature's parent: a STATE by name, created with the
      given code when missing; a DISTRICT by name; a DISTRICT by code, the
      property's value after a fixed prefix. */
  datatype ParentRule = StateNamed(stateCode: string) | DistrictNamed | DistrictCoded(prefix: string)

  /** The properties holding the code, the name and the parent, the type
      given to the features, and how the parent is found. */
  datatype FileRule = FileRule(keys: seq<string>, kind: string, parent: ParentRule)

  /** The branch on the file's `name`; a file of another name has none. */
  function RuleFor(fileName: string): (r: Option<FileRule>)
    ensures r.Some? ==> |r.value.keys| == 3
  {
    if fileName == "assam_district_35" then
      Some(FileRule(["ID", "district", "state"], DISTRICT, StateNamed("18")))
    else if fileName == "assam_revenue_circles_nov2022" then
      Some(FileRule(["object_id", "revenue_ci", "district_3"], REVENUE_CIRCLE, DistrictNamed))
    else if fileName == "BharatMaps_HP_district" then
      Some(FileRule(["object_id", "District", "STATE"], DISTRICT, StateNamed("02")))
    else if fileName == "bharatmaps_HP_subdistricts" then
      Some(FileRule(["sdtcode11", "sdtname", "dtcode11"], SUB_DISTRICT, DistrictCoded("")))
    else if fileName == "hp_tehsil_temp" then
      Some(FileRule(["object_id", "TEHSIL", "dtcode11"], TEHSIL, DistrictCoded("02-")))
    else None
  }

  /** The parent named by the property value `value`. */
  function ParentFor(geos: seq<Geography>, rule: ParentRule, value: string): (r: Outcome<ParentPick>)
    ensures r.Ok? ==> r.value.id < |r.value.geos|
  {
    match rule
    case StateNamed(code) => StateFor(geos, value, code)
    case DistrictNamed =>
      var id := ParentWhere(geos, NamedKind(value, DISTRICT));
      if id.Err? then Err(id.error) else Ok(ParentPick(id.value, geos))
    case DistrictCoded(prefix) =>
      var id := ParentWhere(geos, CodedKind(prefix + value, DISTRICT));
      if id.Err? then Err(id.error) else Ok(ParentPick(id.value, geos))
  }

  /** The target of a feature of a file with a rule: KeyError when a property
      is missing, the parent lookup's error when it fails. A file of another
      name assigns nothing, so the locals of the previous feature are used
      again, and before any feature they are unbound. */
  function FeatureTarget(geos: seq<Geography>, fileName: string, f: Feature, prev: Option<Target>): (r: Outcome<TargetPick>)
  {
    match RuleFor(fileName)
    case None => if prev.Some? then Ok(TargetPick(prev.value, geos)) else Err("UnboundLocalError")
    case Some(rule) =>
      var p := ReadProps(f, rule.keys);
      if p.Err? then Err(p.error)
      else
        var parent := ParentFor(geos, rule.parent, p.value[2]);
        if parent.Err? then Err(parent.error)
        else Ok(TargetPick(Target(rule.kind, p.value[0], p.value[1], parent.value.id), parent.value.geos))
  }

  /** Looking up or creating a STATE only appends a row without a parent,
      and keeps codes and names unique. */
  lemma StateForGrows(geos: seq<Geography>, state: string, code: string)
    requires UniqueGeographies(geos)
    ensures StateFor(geos, state, code).Ok? ==>
              && geos <= StateFor(geos, state, code).value.geos
              && UniqueGeographies(StateFor(geos, state, code).value.geos)
              && (forall k :: |geos| <= k < |StateFor(geos, state, code).value.geos| ==>
                    StateFor(geos, state, code).value.geos[k].parent.None?)
  {
    var r := StateFor(geos, state, code);
    if r.Ok? && r.value.geos != geos {
      StateForMeaning(geos, state, code);
      SaveGeographyKeepsUnique(geos, None, Geography(Capitalize(state), code, STATE, None, None));
    }
  }

  /** Picking a target only adds STATE rows without a parent, keeps codes and
      names unique, and names an existing parent. */
  lemma FeatureTargetGrows(geos: seq<Geography>, fileName: string, f: Feature, prev: Option<Target>)
    requires UniqueGeographies(geos)
    requires prev.Some? ==> prev.value.parent < |geos|
    ensures FeatureTarget(geos, fileName, f, prev).Ok? ==>
              && geos <= FeatureTarget(geos, fileName, f, prev).value.geos
              && UniqueGeographies(FeatureTarget(geos, fileName, f, prev).value.geos)
              && FeatureTarget(geos, fileName, f, prev).value.target.parent <
                   |FeatureTarget(geos, fileName, f, prev).value.geos|
              && (forall k :: |geos| <= k < |FeatureTarget(geos, fileName, f, prev).value.geos| ==>
                    FeatureTarget(geos, fileName, f, prev).value.geos[k].parent.None?)
  {
    var rule := RuleFor(fileName);
    if rule.Some? {
      var p := ReadProps(f, rule.value.keys);
      if p.Ok? && rule.value.parent.StateNamed? {
        StateForGrows(geos, p.value[2], rule.value.parent.stateCode);
      }
    }
  }

  // ---- The upsert ----

  /** The row a feature is saved as: the capitalized name, the code, the
      type, the geometry and the parent. */
  function Saved(t: Target, geom: Shape): Geography {
    Geography(Capitalize(t.name), t.code, t.kind, Some(t.parent), Some(geom))
  }

  /** `Geography.objects.get(code=code, parentId=parent_geo_obj)` updated with
      the capitalized name, the geometry and the type, or, on DoesNotExist, a
      new row; `save()` raises IntegrityError when another row has the code or
      the name. */
  function Upsert(geos: seq<Geography>, t: Target, geom: Shape): (r: Outcome<seq<Geography>>)
  {
    match GeographyWhere(geos, CodedChild(t.code, t.parent))
    case Found(id) =>
      var saved := SaveGeography(geos, Some(id), geos[id].(name := Capitalize(t.name), geom := Some(geom), kind := t.kind));
      if saved.None? then Err("IntegrityError") else Ok(saved.value)
    case NotFound =>
      var saved := SaveGeography(geos, None, Saved(t, geom));
      if saved.None? then Err("IntegrityError") else Ok(saved.value)
    case Multiple => Err("MultipleObjectsReturned")
  }

  /** With unique codes, the row with the feature's code and parent is
      overwritten in place when there is one, and the feature is appended
      otherwise; the save fails, with IntegrityError, exactly when another row
      has the code or the name. */
  lemma UpsertMeaning(geos: seq<Geography>, t: Target, geom: Shape)
    requires UniqueGeographies(geos)
    ensures forall k :: 0 <= k < |geos| && geos[k].code == t.code && geos[k].parent == Some(t.parent) ==>
              Upsert(geos, t, geom) ==
                if Clashes(geos, Some(k), Saved(t, geom)) then Err("IntegrityError")
                else Ok(geos[k := Saved(t, geom)])
    ensures (forall k :: 0 <= k < |geos| ==> geos[k].code != t.code || geos[k].parent != Some(t.parent)) ==>
              Upsert(geos, t, geom) ==
                if Clashes(geos, None, Saved(t, geom)) then Err("IntegrityError")
                else Ok(geos + [Saved(t, geom)])
  {
    var q := CodedChild(t.code, t.parent);
    var look := GeographyWhere(geos, q);
    GeographyWhereMultiple(geos, q);
    GeographyWhereNotFound(geos, q);
    if look.Found? {
      GeographyWhereFound(geos, q);
      assert geos[look.id].(name := Capitalize(t.name), geom := Some(geom), kind := t.kind) == Saved(t, geom);
    }
  }

  /** Codes and names unique, and every parent created before its child. */
  predicate GeoForest(geos: seq<Geography>) {
    && UniqueGeographies(geos)
    && forall i :: 0 <= i < |geos| && geos[i].parent.Some? ==> geos[i].parent.value < i
  }

  /** `after` keeps every row of `before` at its id with its code and its
      parent, and may add rows. */
  predicate Extends(before: seq<Geography>, after: seq<Geography>) {
    && |before| <= |after|
    && forall k :: 0 <= k < |before| ==> after[k].code == before[k].code && after[k].parent == before[k].parent
  }

  lemma ExtendsTransitive(a: seq<Geography>, b: seq<Geography>, c: seq<Geography>)
    requires Extends(a, b) && Extends(b, c)
    ensures Extends(a, c)
  {
  }

  /** A successful upsert under an existing parent keeps the forest, and
      keeps every row's id, code and parent. */
  lemma UpsertKeepsForest(geos: seq<Geography>, t: Target, geom: Shape)
    requires GeoForest(geos) && t.parent < |geos|
    requires Upsert(geos, t, geom).Ok?
    ensures GeoForest(Upsert(geos, t, geom).value)
    ensures Extends(geos, Upsert(geos, t, geom).value)
  {
    UpsertMeaning(geos, t, geom);
    var s := Saved(t, geom);
    if k :| 0 <= k < |geos| && geos[k].code == t.code && geos[k].parent == Some(t.parent) {
      SaveGeographyKeepsUnique(geos, Some(k), s);
    } else {
      SaveGeographyKeepsUnique(geos, None, s);
    }
  }

  /** After a successful upsert some row holds exactly what the feature is
      saved as, and codes and names are still unique. */
  lemma UpsertStores(geos: seq<Geography>, t: Target, geom: Shape) returns (k: nat)
    requires UniqueGeographies(geos)
    requires Upsert(geos, t, geom).Ok?
    ensures k < |Upsert(geos, t, geom).value| && Upsert(geos, t, geom).value[k] == Saved(t, geom)
    ensures UniqueGeographies(Upsert(geos, t, geom).value)
  {
    UpsertMeaning(geos, t, geom);
    if k' :| 0 <= k' < |geos| && geos[k'].code == t.code && geos[k'].parent == Some(t.parent) {
      k := k';
      SaveGeographyKeepsUnique(geos, Some(k), Saved(t, geom));
    } else {
      k := |geos|;
      SaveGeographyKeepsUnique(geos, None, Saved(t, geom));
    }
  }

  /** Upserting the same feature twice changes nothing the second time. */
  lemma UpsertIdempotent(geos: seq<Geography>, t: Target, geom: Shape)
    requires UniqueGeographies(geos)
    requires Upsert(geos, t, geom).Ok?
    ensures Upsert(Upsert(geos, t, geom).value, t, geom) == Upsert(geos, t, geom)
  {
    var r := Upsert(geos, t, geom).value;
    var k := UpsertStores(geos, t, geom);
    var s := Saved(t, geom);
    assert !Clashes(r, Some(k), s) by {
      forall j | 0 <= j < |r| && j != k ensures r[j].code != s.code && r[j].name != s.name {
        if j < k {
          assert r[j].code != r[k].code && r[j].name != r[k].name;
        } else {
          assert r[k].code != r[j].code && r[k].name != r[j].name;
        }
      }
    }
    UpsertMeaning(r, t, geom);
    assert r[k := s] == r;
  }

  // ---- The loops over files and features ----

  /** The Geography table, the locals left by the last feature, and the
      exception that ended the run. */
  datatype GeoRun = GeoRun(geos: seq<Geography>, prev: Option<Target>, error: Option<string>)

  predicate GeoHalted(m: GeoRun) {
    m.error.Some?
  }

  /** One feature of the file named `fileName`: its target, then the upsert. */
  function FeatureStep(m: GeoRun, fileName: string, f: Feature): GeoRun {
    match FeatureTarget(m.geos, fileName, f, m.prev)
    case Err(e) => GeoRun(m.geos, m.prev, Some(e))
    case Ok(pick) =>
      var up := Upsert(pick.geos, pick.target, f.geometry);
      if up.Err? then GeoRun(pick.geos, Some(pick.target), Some(up.error))
      else GeoRun(up.value, Some(pick.target), None)
  }

  function FeatureAdvance(fileName: string): (GeoRun, Feature) -> GeoRun {
    (m: GeoRun, f: Feature) => FeatureStep(m, fileName, f)
  }

  /** The first `n` features of a file in order, up to the first exception. */
  function FeaturesRun(m: GeoRun, file: GeoFile, n: nat): GeoRun
    requires n <= |file.features|
  {
    Run(m, file.features, n, GeoHalted, FeatureAdvance(file.name))
  }

  /** After the first exception no further feature is read. */
  lemma FeaturesRunStops(m: GeoRun, file: GeoFile, n: nat)
    requires n <= |file.features| && GeoHalted(FeaturesRun(m, file, n))
    ensures FeaturesRun(m, file, |file.features|) == FeaturesRun(m, file, n)
  {
    RunStops(m, file.features, n, |file.features|, GeoHalted, FeatureAdvance(file.name));
  }

  /** The features of one file in order, up to the first exception. */
  function FileRun(m: GeoRun, file: GeoFile): GeoRun {
    FeaturesRun(m, file, |file.features|)
  }

  /** The first `n` files of `files`, in the order given. */
  function FilesRun(geos: seq<Geography>, files: seq<GeoFile>, n: nat): GeoRun
    requires n <= |files|
  {
    Run(GeoRun(geos, None, None), files, n, GeoHalted, FileRun)
  }

  /** `migrate_geojson()`: the files in key order, the locals carried from
      one file to the next, up to the first exception. */
  function MigrateGeojsonRun(geos: seq<Geography>, files: seq<GeoFile>): GeoRun {
    FilesRun(geos, OrderGeoFiles(files), |files|)
  }

  /** The forest, and a `prev` whose parent exists. */
  predicate Sound(m: GeoRun) {
    GeoForest(m.geos) && (m.prev.Some? ==> m.prev.value.parent < |m.geos|)
  }

  /** Sound, and extending `base`. */
  function SoundFrom(base: seq<Geography>): GeoRun -> bool {
    (m: GeoRun) => Sound(m) && Extends(base, m.geos)
  }

  /** A feature keeps the run sound and extends the table. */
  lemma FeatureStepSound(m: GeoRun, fileName: string, f: Feature)
    requires Sound(m)
    ensures Sound(FeatureStep(m, fileName, f)) && Extends(m.geos, FeatureStep(m, fileName, f).geos)
  {
    FeatureTargetGrows(m.geos, fileName, f, m.prev);
    var pick := FeatureTarget(m.geos, fileName, f, m.prev);
    if pick.Ok? {
      var g := pick.value.geos;
      assert GeoForest(g) by {
        forall i | 0 <= i < |g| && g[i].parent.Some? ensures g[i].parent.value < i {
          assert i < |m.geos|;
          assert g[i] == m.geos[i];
        }
      }
      if Upsert(g, pick.value.target, f.geometry).Ok? {
        UpsertKeepsForest(g, pick.value.target, f.geometry);
        ExtendsTransitive(m.geos, g, Upsert(g, pick.value.target, f.geometry).value);
      }
    }
  }

  lemma FeatureStepFrom(base: seq<Geography>, m: GeoRun, fileName: string, f: Feature)
    requires SoundFrom(base)(m)
    ensures SoundFrom(base)(FeatureAdvance(fileName)(m, f))
  {
    FeatureStepSound(m, fileName, f);
    ExtendsTransitive(base, m.geos, FeatureStep(m, fileName, f).geos);
  }

  /** A file keeps the run sound and extends the table. */
  lemma FileRunSound(base: seq<Geography>, m: GeoRun, file: GeoFile)
    requires SoundFrom(base)(m)
    ensures SoundFrom(base)(FileRun(m, file))
  {
    forall k, x | 0 <= k < |file.features| && SoundFrom(base)(x) && !GeoHalted(x)
      ensures SoundFrom(base)(FeatureAdvance(file.name)(x, file.features[k]))
    {
      FeatureStepFrom(base, x, file.name, file.features[k]);
    }
    RunKeeps(m, file.features, |file.features|, GeoHalted, FeatureAdvance(file.name), SoundFrom(base));
  }

  /** Importing the GeoJSON files, whatever their order and contents, keeps
      codes and names unique and parents before children, and keeps every
      existing row at its id with its code and parent. */
  lemma FilesRunSound(geos: seq<Geography>, files: seq<GeoFile>, n: nat)
    requires n <= |files| && GeoForest(geos)
    ensures GeoForest(FilesRun(geos, files, n).geos)
    ensures Extends(geos, FilesRun(geos, files, n).geos)
  {
    forall k, x | 0 <= k < |files| && SoundFrom(geos)(x) && !GeoHalted(x)
      ensures SoundFrom(geos)(FileRun(x, files[k]))
    {
      FileRunSound(geos, x, files[k]);
    }
    RunKeeps(GeoRun(geos, None, None), files, n, GeoHalted, FileRun, SoundFrom(geos));
  }

  /** `migrate_geojson` keeps the database well formed: Data keeps pointing
      at the same geographies. */
  lemma MigrateGeojsonKeepsWellFormed(t: Tables, files: seq<GeoFile>)
    requires WellFormed(t)
    ensures WellFormed(t.(geographies := MigrateGeojsonRun(t.geographies, files).geos))
    ensures Extends(t.geographies, MigrateGeojsonRun(t.geographies, files).geos)
  {
    FilesRunSound(t.geographies, OrderGeoFiles(files), |files|);
  }

  // ---- The command, on the database ----

  /** The parent a rule names for the property value `value`; a missing
      STATE is saved at once. */
  method PickParent(db: Database, rule: ParentRule, value: string) returns (parent: Outcome<Id>)
    modifies db`geographies
    ensures parent.Ok? ==> ParentFor(old(db.geographies), rule, value) == Ok(ParentPick(parent.value, db.geographies))
    ensures parent.Err? ==> ParentFor(old(db.geographies), rule, value) == Err(parent.error) &&
                            db.geographies == old(db.geographies)
  {
    match rule {
      case StateNamed(code) =>
        var found := GeographyWhere(db.geographies, NamedKind(value, STATE));
        if found.Found? {
          parent := Ok(found.id);
        } else if found.Multiple? {
          parent := Err("MultipleObjectsReturned");
        } else {
          var saved := SaveGeography(db.geographies, None, Geography(Capitalize(value), code, STATE, None, None));
          if saved.None? {
            parent := Err("IntegrityError");
          } else {
            parent := Ok(|db.geographies|);
            db.geographies := saved.value;
          }
        }
      case DistrictNamed =>
        parent := ParentWhere(db.geographies, NamedKind(value, DISTRICT));
      case DistrictCoded(prefix) =>
        parent := ParentWhere(db.geographies, CodedKind(prefix + value, DISTRICT));
    }
  }

  /** The `try`/`except DoesNotExist` around the lookup by code and parent,
      then `geo_object.save()`. */
  method SaveFeature(db: Database, t: Target, geom: Shape) returns (error: Option<string>)
    modifies db`geographies
    ensures error.None? ==> Upsert(old(db.geographies), t, geom) == Ok(db.geographies)
    ensures error.Some? ==> Upsert(old(db.geographies), t, geom) == Err(error.value) &&
                            db.geographies == old(db.geographies)
  {
    var found := GeographyWhere(db.geographies, CodedChild(t.code, t.parent));
    var saved: Option<seq<Geography>>;
    if found.Found? {
      var row := db.geographies[found.id].(name := Capitalize(t.name), geom := Some(geom), kind := t.kind);
      saved := SaveGeography(db.geographies, Some(found.id), row);
    } else if found.NotFound? {
      saved := SaveGeography(db.geographies, None, Saved(t, geom));
    } else {
      return Some("MultipleObjectsReturned");
    }
    if saved.None? {
      return Some("IntegrityError");
    }
    db.geographies := saved.value;
    error := None;
  }

  /** The branch on the file's name: the target of a feature, and any
      STATE it saves. */
  method PickTarget(db: Database, fileName: string, f: Feature, prev: Option<Target>) returns (target: Outcome<Target>)
    modifies db`geographies
    ensures target.Ok? ==> FeatureTarget(old(db.geographies), fileName, f, prev) == Ok(TargetPick(target.value, db.geographies))
    ensures target.Err? ==> FeatureTarget(old(db.geographies), fileName, f, prev) == Err(target.error) &&
                            db.geographies == old(db.geographies)
  {
    var rule := RuleFor(fileName);
    if rule.None? {
      if prev.None? {
        return Err("UnboundLocalError");
      }
      return Ok(prev.value);
    }
    var p := ReadProps(f, rule.value.keys);
    if p.Err? {
      return Err(p.error);
    }
    var parent := PickParent(db, rule.value.parent, p.value[2]);
    if parent.Err? {
      return Err(parent.error);
    }
    target := Ok(Target(rule.value.kind, p.value[0], p.value[1], parent.value));
  }

  /** One feature: its target, then the upsert. Returns the locals left for
      the next feature. */
  method ImportFeature(db: Database, fileName: string, f: Feature, prev: Option<Target>)
      returns (target: Option<Target>, error: Option<string>)
    modifies db`geographies
    ensures GeoRun(db.geographies, target, error) == FeatureStep(GeoRun(old(db.geographies), prev, None), fileName, f)
  {
    var t := PickTarget(db, fileName, f, prev);
    if t.Err? {
      return prev, Some(t.error);
    }
    target := Some(t.value);
    error := SaveFeature(db, t.value, f.geometry);
  }

  /** Feature `i` of a file whose earlier features went through. */
  method ImportNextFeature(db: Database, ghost start: GeoRun, file: GeoFile, i: nat, prev: Option<Target>)
      returns (target: Option<Target>, error: Option<string>)
    requires i < |file.features|
    requires GeoRun(db.geographies, prev, None) == FeaturesRun(start, file, i)
    modifies db`geographies
    ensures GeoRun(db.geographies, target, error) == FeaturesRun(start, file, i + 1)
  {
    target, error := ImportFeature(db, file.name, file.features[i], prev);
  }

  /** The features of one file in order, up to the first exception. */
  method ImportFile(db: Database, file: GeoFile, prev: Option<Target>) returns (last: Option<Target>, error: Option<string>)
    modifies db`geographies
    ensures GeoRun(db.geographies, last, error) == FileRun(GeoRun(old(db.geographies), prev, None), file)
  {
    ghost var start := GeoRun(db.geographies, prev, None);
    last, error := prev, None;
    var i := 0;
    while i < |file.features| && error.None?
      invariant i <= |file.features|
      invariant GeoRun(db.geographies, last, error) == FeaturesRun(start, file, i)
    {
      last, error := ImportNextFeature(db, start, file, i, last);
      i := i + 1;
    }
    if error.Some? {
      FeaturesRunStops(start, file, i);
    }
  }

  /** File `i` of the sorted files, the earlier ones having gone through. */
  method ImportNextFile(db: Database, ghost geos: seq<Geography>, files: seq<GeoFile>, i: nat, prev: Option<Target>)
      returns (last: Option<Target>, error: Option<string>)
    requires i < |files|
    requires GeoRun(db.geographies, prev, None) == FilesRun(geos, files, i)
    modifies db`geographies
    ensures GeoRun(db.geographies, last, error) == FilesRun(geos, files, i + 1)
  {
    last, error := ImportFile(db, files[i], prev);
  }

  /** `migrate_geojson()`: the files sorted by key, the locals of the last
      feature carried into the next file; the first exception ends the
      command. */
  method MigrateGeojson(db: Database, files: seq<GeoFile>) returns (error: Option<string>)
    modifies db`geographies
    ensures db.geographies == MigrateGeojsonRun(old(db.geographies), files).geos
    ensures error == MigrateGeojsonRun(old(db.geographies), files).error
  {
    var ordered := OrderGeoFiles(files);
    ghost var geos := db.geographies;
    var prev: Option<Target> := None;
    error := None;
    var i := 0;
    while i < |ordered| && error.None?
      invariant i <= |ordered| == |files|
      invariant GeoRun(db.geographies, prev, error) == FilesRun(geos, ordered, i)
    {
      prev, error := ImportNextFile(db, geos, ordered, i, prev);
      i := i + 1;
    }
    if error.Some? {
      RunStops(GeoRun(geos, None, None), ordered, i, |ordered|, GeoHalted, FileRun);
    }
  }
}
