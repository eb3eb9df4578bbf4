/** `layer/utils.py`, the older ingestion: `migrate_indicators`, which
    catches every exception and goes on with the next row and skips rows
    without a unit; `migrate_geojson` for a single file, which only inserts;
    and `migrate_data`, which stops at the first unknown geography and
    narrows the indicators for good once it meets a district. */
module Utils {
  import opened Query
  import opened Text
  import opened Models
  import opened Inputs
  import opened ImportData
  import opened DictionaryImport
  import opened GeojsonImport
  import opened Command

  // ---- migrate_indicators ----

  /** What one dictionary row did: its indicator existed, it had no unit, it
      added an indicator, or it raised and the exception was caught. */
  datatype LegacyResult = Existing | Skipped | Created | Caught(error: string)

  /** The Unit and Indicators tables after one row, and its result. */
  datatype LegacyEffect = LegacyEffect(units: seq<Unit>, indicators: seq<Indicator>, result: LegacyResult)

  /** The body of the `try` for one row. A row without a unit is skipped
      before anything is saved; the unit is saved before the parent and the
      other cells are read, so it stays when either raises. */
  function LegacyRowEffect(units: seq<Unit>, indicators: seq<Indicator>, row: DictRow,
                           slugify: string -> string): (r: LegacyEffect)
    ensures r.result != Created ==> r.indicators == indicators
    ensures r.result == Created ==>
              |r.indicators| == |indicators| + 1 && r.indicators == indicators + [r.indicators[|indicators|]]
    ensures r.result.Existing? || r.result.Skipped? ==> r.units == units
    ensures r.units == units || (NonEmptyText(row.unit) && r.units == units + [Unit(Lower(row.unit.s), None, "")])
  {
    match row.indicatorSlug
    case NaN => LegacyEffect(units, indicators, Caught("AttributeError"))
    case Str(slug) =>
      match IndicatorWith(indicators, BySlug, Lower(slug))
      case Found(_) => LegacyEffect(units, indicators, Existing)
      case Multiple => LegacyEffect(units, indicators, Caught("MultipleObjectsReturned"))
      case NotFound =>
        if !NonEmptyText(row.unit) then LegacyEffect(units, indicators, Skipped)
        else
          var unit := RowUnit(units, row.unit);
          var parent := RowParent(indicators, row.parent);
          if parent.Err? then LegacyEffect(unit.units, indicators, Caught(parent.error))
          else
            var draft := DraftFor(row, slug, unit.unit, parent.value);
            if draft.Err? then LegacyEffect(unit.units, indicators, Caught(draft.error))
            else LegacyEffect(unit.units, indicators + [SavedIndicator(draft.value, slugify)], Created)
  }

  /** A row whose lower-cased slug is taken changes nothing; a row with a
      free slug and no unit is skipped and changes nothing either. */
  lemma LegacyRowSkips(units: seq<Unit>, indicators: seq<Indicator>, row: DictRow, slugify: string -> string)
    ensures row.indicatorSlug.Str? && HasSlug(indicators, Lower(row.indicatorSlug.s)) ==>
              LegacyRowEffect(units, indicators, row, slugify).units == units &&
              LegacyRowEffect(units, indicators, row, slugify).indicators == indicators
    ensures LegacyRowEffect(units, indicators, row, slugify).result == Skipped <==>
              && row.indicatorSlug.Str?
              && !HasSlug(indicators, Lower(row.indicatorSlug.s))
              && !NonEmptyText(row.unit)
  {
    if row.indicatorSlug.Str? {
      var slug := Lower(row.indicatorSlug.s);
      IndicatorWithNotFound(indicators, BySlug, slug);
      IndicatorWithMultiple(indicators, BySlug, slug);
      if IndicatorWith(indicators, BySlug, slug).Found? {
        IndicatorWithFound(indicators, BySlug, slug);
      }
    }
  }

  /** A created indicator: the slug was free and the unit given; the unit is
      the one named by the lower-cased cell; the parent is the one indicator
      with the stripped parent name, and a name no indicator has only loses
      the parent. */
  lemma LegacyRowCreates(units: seq<Unit>, indicators: seq<Indicator>, row: DictRow, slugify: string -> string)
    requires LegacyRowEffect(units, indicators, row, slugify).result == Created
    ensures row.indicatorSlug.Str? && !HasSlug(indicators, Lower(row.indicatorSlug.s)) && NonEmptyText(row.unit)
    ensures var r := LegacyRowEffect(units, indicators, row, slugify);
            var x := r.indicators[|indicators|];
            && x.name == Strip(row.indicatorTitle.s)
            && x.slug == FilledSlug(DraftSlug(row.indicatorSlug.s), Strip(row.indicatorTitle.s), slugify)
            && x.visible == (row.visible == Str("y"))
            && x.unit.Some? && x.unit.value < |r.units| && r.units[x.unit.value].name == Lower(row.unit.s)
            && (x.parent.Some? ==> NonEmptyText(row.parent) && indicators[x.parent.value].name == Strip(row.parent.s))
            && (NonEmptyText(row.parent) && (forall k :: 0 <= k < |indicators| ==> indicators[k].name != Strip(row.parent.s)) ==>
                  x.parent.None?)
  {
    IndicatorWithNotFound(indicators, BySlug, Lower(row.indicatorSlug.s));
    IndicatorWithMultiple(indicators, BySlug, Lower(row.indicatorSlug.s));
    RowParentMeaning(indicators, row.parent);
  }

  /** A row keeps the tables well formed, whatever it raises. */
  lemma LegacyRowKeepsWellFormed(t: Tables, row: DictRow, slugify: string -> string)
    requires WellFormed(t)
    ensures WellFormed(Tables(LegacyRowEffect(t.units, t.indicators, row, slugify).units, t.geographies,
                              LegacyRowEffect(t.units, t.indicators, row, slugify).indicators, t.data))
  {
    var r := LegacyRowEffect(t.units, t.indicators, row, slugify);
    if NonEmptyText(row.unit) {
      UnitForCreates(t.units, Lower(row.unit.s));
    }
    if r.result == Created {
      var unit := RowUnit(t.units, row.unit);
      var parent := RowParent(t.indicators, row.parent);
      var draft := DraftFor(row, row.indicatorSlug.s, unit.unit, parent.value);
      GrowKeepsWellFormed(t, r.units, SavedIndicator(draft.value, slugify));
    } else {
      GrowKeepsWellFormed(t, r.units, Indicator("", "", None, None, None, None, None, false));
    }
  }

  /** The Unit and Indicators tables during a run. */
  datatype Dictionary = Dictionary(units: seq<Unit>, indicators: seq<Indicator>)

  /** Every exception is caught: a run never stops early. */
  predicate Never(m: Dictionary) {
    false
  }

  function LegacyAdvance(slugify: string -> string): (Dictionary, DictRow) -> Dictionary {
    (m: Dictionary, row: DictRow) =>
      var e := LegacyRowEffect(m.units, m.indicators, row, slugify);
      Dictionary(e.units, e.indicators)
  }

  /** `migrate_indicators()` of `utils` over the first `n` rows. */
  function LegacyRows(units: seq<Unit>, indicators: seq<Indicator>, rows: seq<DictRow>, n: nat,
                      slugify: string -> string): Dictionary
    requires n <= |rows|
  {
    Run(Dictionary(units, indicators), rows, n, Never, LegacyAdvance(slugify))
  }

  /** A run keeps the tables well formed. */
  lemma LegacyRowsKeepWellFormed(t: Tables, rows: seq<DictRow>, n: nat, slugify: string -> string)
    requires WellFormed(t) && n <= |rows|
    ensures WellFormed(Tables(LegacyRows(t.units, t.indicators, rows, n, slugify).units, t.geographies,
                              LegacyRows(t.units, t.indicators, rows, n, slugify).indicators, t.data))
  {
    var inv := (m: Dictionary) => WellFormed(Tables(m.units, t.geographies, m.indicators, t.data));
    forall k, x | 0 <= k < |rows| && inv(x) && !Never(x) ensures inv(LegacyAdvance(slugify)(x, rows[k])) {
      LegacyRowKeepsWellFormed(Tables(x.units, t.geographies, x.indicators, t.data), rows[k], slugify);
    }
    RunKeeps(Dictionary(t.units, t.indicators), rows, n, Never, LegacyAdvance(slugify), inv);
  }

  /** A row that cannot raise for its own cells: a normalised slug, a unit,
      no parent, and text in every cell the constructor strips. */
  predicate Clean(row: DictRow) {
    && NormalisedSlug(row.indicatorSlug)
    && NonEmptyText(row.unit)
    && !NonEmptyText(row.parent)
    && row.indicatorTitle.Str? && row.indicatorDescription.Str?
    && row.indicatorCategory.Str? && row.dataSource.Str?
  }

  /** Each clean one of the first `k` rows names an indicator of the table. */
  predicate CleanCovered(rows: seq<DictRow>, k: nat, indicators: seq<Indicator>)
    requires k <= |rows|
  {
    k == 0 ||
    (&& CleanCovered(rows, k - 1, indicators)
     && (Clean(rows[k - 1]) ==> HasSlug(indicators, Lower(rows[k - 1].indicatorSlug.s))))
  }

  lemma {:induction false} CleanCoveredGrows(rows: seq<DictRow>, k: nat, indicators: seq<Indicator>, more: seq<Indicator>)
    requires k <= |rows| && CleanCovered(rows, k, indicators) && indicators <= more
    ensures CleanCovered(rows, k, more)
  {
    if k > 0 {
      CleanCoveredGrows(rows, k - 1, indicators, more);
      if Clean(rows[k - 1]) {
        var j :| 0 <= j < |indicators| && indicators[j].slug == Lower(rows[k - 1].indicatorSlug.s);
        assert more[j] == indicators[j];
      }
    }
  }

  lemma CleanCoveredNext(rows: seq<DictRow>, k: nat, indicators: seq<Indicator>)
    requires k < |rows| && CleanCovered(rows, k, indicators)
    requires Clean(rows[k]) ==> HasSlug(indicators, Lower(rows[k].indicatorSlug.s))
    ensures CleanCovered(rows, k + 1, indicators)
  {
  }

  lemma {:induction false} CleanCoveredMeaning(rows: seq<DictRow>, k: nat, indicators: seq<Indicator>)
    requires k <= |rows| && CleanCovered(rows, k, indicators)
    ensures forall i :: 0 <= i < k && Clean(rows[i]) ==> HasSlug(indicators, Lower(rows[i].indicatorSlug.s))
  {
    if k > 0 {
      CleanCoveredMeaning(rows, k - 1, indicators);
    }
  }

  /** A row keeps the indicators there are, and after a clean row its slug
      names an indicator, whatever happened before. */
  lemma LegacyRowCovers(units: seq<Unit>, indicators: seq<Indicator>, row: DictRow, slugify: string -> string)
    ensures indicators <= LegacyRowEffect(units, indicators, row, slugify).indicators
    ensures Clean(row) ==>
              HasSlug(LegacyRowEffect(units, indicators, row, slugify).indicators, Lower(row.indicatorSlug.s))
  {
    var e := LegacyRowEffect(units, indicators, row, slugify);
    if Clean(row) {
      var slug := Lower(row.indicatorSlug.s);
      var look := IndicatorWith(indicators, BySlug, slug);
      if look.Found? {
        IndicatorWithFound(indicators, BySlug, slug);
        assert e.indicators[look.id].slug == slug;
      } else if look.Multiple? {
        IndicatorWithMultiple(indicators, BySlug, slug);
      } else {
        assert e.result == Created;
        LegacyRowCreates(units, indicators, row, slugify);
        assert e.indicators[|indicators|].slug == slug;
      }
    }
  }

  /** After `k` rows, the clean ones among them are covered. */
  function CleanCoveredAfter(rows: seq<DictRow>): (nat, Dictionary) -> bool {
    (k: nat, m: Dictionary) => k <= |rows| && CleanCovered(rows, k, m.indicators)
  }

  lemma LegacyAdvanceCovers(m: Dictionary, row: DictRow, slugify: string -> string)
    ensures m.indicators <= LegacyAdvance(slugify)(m, row).indicators
    ensures Clean(row) ==> HasSlug(LegacyAdvance(slugify)(m, row).indicators, Lower(row.indicatorSlug.s))
  {
    LegacyRowCovers(m.units, m.indicators, row, slugify);
  }

  lemma LegacyCoversStep(rows: seq<DictRow>, k: nat, m: Dictionary, slugify: string -> string)
    requires k < |rows| && CleanCoveredAfter(rows)(k, m)
    ensures CleanCoveredAfter(rows)(k + 1, LegacyAdvance(slugify)(m, rows[k]))
  {
    var next := LegacyAdvance(slugify)(m, rows[k]);
    LegacyAdvanceCovers(m, rows[k], slugify);
    CleanCoveredGrows(rows, k, m.indicators, next.indicators);
    CleanCoveredNext(rows, k, next.indicators);
  }

  /** An exception on one row does not end the run: every clean row names
      an indicator afterwards, whatever the rows before and after it raised. */
  lemma LegacyRowsCover(units: seq<Unit>, indicators: seq<Indicator>, rows: seq<DictRow>,
                        n: nat, slugify: string -> string)
    requires n <= |rows|
    ensures forall i :: 0 <= i < n && Clean(rows[i]) ==>
              HasSlug(LegacyRows(units, indicators, rows, n, slugify).indicators, Lower(rows[i].indicatorSlug.s))
  {
    forall k, x | 0 <= k < |rows| && CleanCoveredAfter(rows)(k, x) && !Never(x)
      ensures CleanCoveredAfter(rows)(k + 1, LegacyAdvance(slugify)(x, rows[k]))
    {
      LegacyCoversStep(rows, k, x, slugify);
    }
    assert CleanCoveredAfter(rows)(0, Dictionary(units, indicators));
    RunInduct(Dictionary(units, indicators), rows, n, Never, LegacyAdvance(slugify), CleanCoveredAfter(rows));
    CleanCoveredMeaning(rows, n, LegacyRows(units, indicators, rows, n, slugify).indicators);
  }

  /** One pass of the loop: the `try` body, with its exception caught. */
  method LegacyIndicatorRow(db: Database, row: DictRow, slugify: string -> string) returns (result: LegacyResult)
    modifies db`units, db`indicators
    ensures LegacyEffect(db.units, db.indicators, result) ==
            LegacyRowEffect(old(db.units), old(db.indicators), row, slugify)
  {
    if row.indicatorSlug.NaN? {
      return Caught("AttributeError");
    }
    var slug := row.indicatorSlug.s;
    var existing := IndicatorWith(db.indicators, BySlug, Lower(slug));
    if existing.Found? {
      return Existing;
    } else if existing.Multiple? {
      return Caught("MultipleObjectsReturned");
    }
    if !NonEmptyText(row.unit) {
      return Skipped;
    }
    var unit := IndicatorUnit(db, row.unit);
    var parent := RowParent(db.indicators, row.parent);
    if parent.Err? {
      return Caught(parent.error);
    }
    var draft := DraftFor(row, slug, unit, parent.value);
    if draft.Err? {
      return Caught(draft.error);
    }
    db.indicators := db.indicators + [SavedIndicator(draft.value, slugify)];
    result := Created;
  }

  /** Row `i`, after the rows before it. */
  method LegacyNextRow(db: Database, ghost units: seq<Unit>, ghost indicators: seq<Indicator>,
                       rows: seq<DictRow>, i: nat, slugify: string -> string)
    requires i < |rows|
    requires Dictionary(db.units, db.indicators) == LegacyRows(units, indicators, rows, i, slugify)
    modifies db`units, db`indicators
    ensures Dictionary(db.units, db.indicators) == LegacyRows(units, indicators, rows, i + 1, slugify)
  {
    var _ := LegacyIndicatorRow(db, rows[i], slugify);
  }

  /** `migrate_indicators()` of `utils`: every row, each in its own `try`. */
  method LegacyMigrateIndicators(db: Database, rows: seq<DictRow>, slugify: string -> string)
    modifies db`units, db`indicators
    ensures Dictionary(db.units, db.indicators) ==
            LegacyRows(old(db.units), old(db.indicators), rows, |rows|, slugify)
  {
    for i := 0 to |rows|
      invariant Dictionary(db.units, db.indicators) ==
                LegacyRows(old(db.units), old(db.indicators), rows, i, slugify)
    {
      LegacyNextRow(db, old(db.units), old(db.indicators), rows, i, slugify);
    }
  }

  // ---- migrate_geojson ----

  /** One feature of the single file: a district is inserted with no
      parent; a revenue circle is inserted under the DISTRICT its
      `district_1` names, matched without regard to case; a file of another
      name inserts nothing. Nothing is looked up by code first, so a code
      or name already taken raises IntegrityError. */
  function LegacyFeatureSave(geos: seq<Geography>, fileName: string, f: Feature): (r: Outcome<seq<Geography>>)
    ensures r.Ok? ==> geos <= r.value && |r.value| <= |geos| + 1
    ensures r.Ok? && fileName == "assam_district_35" ==> "ID" in f.properties && "district" in f.properties
    ensures r.Ok? && fileName == "assam_revenue_circles_nov2022" ==>
              "object_id" in f.properties && "revenue_ci" in f.properties
    ensures r.Ok? && fileName == "assam_district_35" ==>
              r.value == geos + [Geography(Capitalize(f.properties["district"]), f.properties["ID"], DISTRICT, None,
                                           Some(f.geometry))]
    ensures r.Ok? && fileName == "assam_revenue_circles_nov2022" ==>
              && |r.value| == |geos| + 1
              && r.value[|geos|].code == f.properties["object_id"]
              && r.value[|geos|].name == Capitalize(f.properties["revenue_ci"])
              && r.value[|geos|].kind == REVENUE_CIRCLE
              && r.value[|geos|].parent.Some? && r.value[|geos|].parent.value < |geos|
    ensures fileName != "assam_district_35" && fileName != "assam_revenue_circles_nov2022" ==> r == Ok(geos)
  {
    if fileName == "assam_district_35" then
      var p := ReadProps(f, ["ID", "district"]);
      if p.Err? then Err(p.error)
      else
        var saved := SaveGeography(geos, None, Geography(Capitalize(p.value[1]), p.value[0], DISTRICT, None, Some(f.geometry)));
        if saved.None? then Err("IntegrityError") else Ok(saved.value)
    else if fileName == "assam_revenue_circles_nov2022" then
      var p := ReadProps(f, ["object_id", "revenue_ci", "district_1"]);
      if p.Err? then Err(p.error)
      else
        var parent := ParentWhere(geos, NamedKind(p.value[2], DISTRICT));
        if parent.Err? then Err(parent.error)
        else
          var saved := SaveGeography(geos, None, Geography(Capitalize(p.value[1]), p.value[0], REVENUE_CIRCLE,
                                                            Some(parent.value), Some(f.geometry)));
          if saved.None? then Err("IntegrityError") else Ok(saved.value)
    else Ok(geos)
  }

  /** The parent of an inserted revenue circle is the one DISTRICT whose
      name matches `district_1` case-insensitively: none raises
      DoesNotExist, two raise MultipleObjectsReturned. */
  lemma LegacyParentLink(geos: seq<Geography>, f: Feature)
    requires "district_1" in f.properties
    ensures var r := LegacyFeatureSave(geos, "assam_revenue_circles_nov2022", f);
            var q := NamedKind(f.properties["district_1"], DISTRICT);
            && (r.Ok? ==> Answers(geos[r.value[|geos|].parent.value], q))
            && (r == Err("DoesNotExist") <==>
                  "object_id" in f.properties && "revenue_ci" in f.properties &&
                  forall k :: 0 <= k < |geos| ==> !Answers(geos[k], q))
  {
    var q := NamedKind(f.properties["district_1"], DISTRICT);
    GeographyWhereNotFound(geos, q);
    if GeographyWhere(geos, q).Found? {
      GeographyWhereFound(geos, q);
    }
  }

  /** The Geography table during the run, and the exception that ended it. */
  datatype LegacyGeoRun = LegacyGeoRun(geos: seq<Geography>, error: Option<string>)

  predicate LegacyGeoHalted(m: LegacyGeoRun) {
    m.error.Some?
  }

  function LegacyFeatureAdvance(fileName: string): (LegacyGeoRun, Feature) -> LegacyGeoRun {
    (m: LegacyGeoRun, f: Feature) =>
      var r := LegacyFeatureSave(m.geos, fileName, f);
      if r.Err? then LegacyGeoRun(m.geos, Some(r.error)) else LegacyGeoRun(r.value, None)
  }

  /** `migrate_geojson(filename)` of `utils` over the first `n` features; no
      exception is caught. */
  function LegacyGeojson(geos: seq<Geography>, file: GeoFile, n: nat): LegacyGeoRun
    requires n <= |file.features|
  {
    Run(LegacyGeoRun(geos, None), file.features, n, LegacyGeoHalted, LegacyFeatureAdvance(file.name))
  }

  /** The table only grows, by rows appended after `base`. */
  function GrownFrom(base: seq<Geography>): LegacyGeoRun -> bool {
    (m: LegacyGeoRun) => base <= m.geos
  }

  /** Rows are only appended. */
  lemma LegacyGeojsonAppends(geos: seq<Geography>, base: seq<Geography>, file: GeoFile, n: nat)
    requires n <= |file.features| && base <= geos
    ensures base <= LegacyGeojson(geos, file, n).geos
  {
    forall k, x | 0 <= k < |file.features| && GrownFrom(base)(x) && !LegacyGeoHalted(x)
      ensures GrownFrom(base)(LegacyFeatureAdvance(file.name)(x, file.features[k]))
    {
    }
    RunKeeps(LegacyGeoRun(geos, None), file.features, n, LegacyGeoHalted, LegacyFeatureAdvance(file.name), GrownFrom(base));
  }

  /** A forest stays a forest: unique codes and names, parents first. */
  function ForestKept(): LegacyGeoRun -> bool {
    (m: LegacyGeoRun) => GeoForest(m.geos)
  }

  lemma LegacyFeatureKeepsForest(geos: seq<Geography>, fileName: string, f: Feature)
    requires GeoForest(geos)
    ensures LegacyFeatureSave(geos, fileName, f).Ok? ==> GeoForest(LegacyFeatureSave(geos, fileName, f).value)
  {
    var r := LegacyFeatureSave(geos, fileName, f);
    if r.Ok? && r.value != geos {
      SaveGeographyKeepsUnique(geos, None, r.value[|geos|]);
    }
  }

  /** The single-file import keeps codes and names unique and parents
      before their children. */
  lemma LegacyGeojsonKeepsForest(geos: seq<Geography>, file: GeoFile, n: nat)
    requires n <= |file.features| && GeoForest(geos)
    ensures GeoForest(LegacyGeojson(geos, file, n).geos)
  {
    forall k, x | 0 <= k < |file.features| && ForestKept()(x) && !LegacyGeoHalted(x)
      ensures ForestKept()(LegacyFeatureAdvance(file.name)(x, file.features[k]))
    {
      LegacyFeatureKeepsForest(x.geos, file.name, file.features[k]);
    }
    RunKeeps(LegacyGeoRun(geos, None), file.features, n, LegacyGeoHalted, LegacyFeatureAdvance(file.name), ForestKept());
  }

  /** The Geography table of a run state. */
  function TableOf(m: LegacyGeoRun): seq<Geography> {
    m.geos
  }

  /** Later in the run the table holds what it held earlier, and more. */
  lemma LegacyGeojsonGrows(geos: seq<Geography>, file: GeoFile, m: nat, n: nat)
    requires m <= n <= |file.features|
    ensures LegacyGeojson(geos, file, m).geos <= LegacyGeojson(geos, file, n).geos
  {
    forall k, x | 0 <= k < |file.features| && !LegacyGeoHalted(x)
      ensures TableOf(x) <= TableOf(LegacyFeatureAdvance(file.name)(x, file.features[k]))
    {
    }
    RunGrows(LegacyGeoRun(geos, None), file.features, m, n, LegacyGeoHalted, LegacyFeatureAdvance(file.name), TableOf);
  }

  /** The first feature is read from the table as it was. */
  lemma LegacyFirstFeature(geos: seq<Geography>, file: GeoFile)
    requires |file.features| > 0
    ensures LegacyGeojson(geos, file, 1) == LegacyFeatureAdvance(file.name)(LegacyGeoRun(geos, None), file.features[0])
  {
    assert LegacyGeojson(geos, file, 0) == LegacyGeoRun(geos, None);
  }

  /** A feature whose row is already in the table cannot be inserted again. */
  lemma LegacySaveTaken(base: seq<Geography>, after: seq<Geography>, fileName: string, f: Feature)
    requires fileName == "assam_district_35" || fileName == "assam_revenue_circles_nov2022"
    requires LegacyFeatureSave(base, fileName, f).Ok? && LegacyFeatureSave(base, fileName, f).value <= after
    ensures LegacyFeatureSave(after, fileName, f).Err?
  {
    var saved := LegacyFeatureSave(base, fileName, f).value;
    assert after[|base|] == saved[|base|];
  }

  /** The function only inserts: run again on a file it imported, it raises
      at the first feature, whose code is now taken. */
  lemma LegacyGeojsonRerunFails(geos: seq<Geography>, file: GeoFile)
    requires file.name == "assam_district_35" || file.name == "assam_revenue_circles_nov2022"
    requires |file.features| > 0
    requires LegacyGeojson(geos, file, |file.features|).error.None?
    ensures LegacyGeojson(LegacyGeojson(geos, file, |file.features|).geos, file, |file.features|).error.Some?
  {
    var n := |file.features|;
    var first := LegacyGeojson(geos, file, 1);
    LegacyFirstFeature(geos, file);
    if first.error.Some? {
      RunStops(LegacyGeoRun(geos, None), file.features, 1, n, LegacyGeoHalted, LegacyFeatureAdvance(file.name));
      assert false;
    }
    var after := LegacyGeojson(geos, file, n).geos;
    LegacyGeojsonGrows(geos, file, 1, n);
    LegacySaveTaken(geos, after, file.name, file.features[0]);
    LegacyFirstFeature(after, file);
    RunStops(LegacyGeoRun(after, None), file.features, 1, n, LegacyGeoHalted, LegacyFeatureAdvance(file.name));
  }

  // ---- migrate_data ----

  /** An indicator as the queryset yields it: its key and its row. */
  datatype Picked = Picked(id: Id, row: Indicator)

  /** `Indicators.objects.filter(is_visible=True)`, as the objects it yields,
      in table order. */
  function VisiblePicked(table: seq<Indicator>): (r: seq<Picked>)
    ensures forall k :: 0 <= k < |r| ==> r[k].id < |table| && r[k].row == table[r[k].id] && r[k].row.visible
    ensures forall i, j :: 0 <= i < j < |r| ==> r[i].id < r[j].id
  {
    var ids := VisibleIds(table, |table|);
    seq(|ids|, k requires 0 <= k < |ids| => Picked(ids[k], table[ids[k]]))
  }

  /** Every visible indicator is yielded. */
  lemma VisiblePickedComplete(table: seq<Indicator>, i: Id)
    requires i < |table| && table[i].visible
    ensures Picked(i, table[i]) in VisiblePicked(table)
  {
    var ids := VisibleIds(table, |table|);
    VisibleIdsComplete(table, |table|);
    var k :| 0 <= k < |ids| && ids[k] == i;
    assert VisiblePicked(table)[k] == Picked(i, table[i]);
  }

  /** `Q(parent__slug="risk-score") | Q(slug="risk-score")`: the risk score
      itself or one of its factors. */
  predicate RiskScoreFactor(table: seq<Indicator>, ind: Indicator) {
    || ind.slug == "risk-score"
    || (ind.parent.Some? && ind.parent.value < |table| && table[ind.parent.value].slug == "risk-score")
  }

  /** `reqd_columns.filter(...)`: the risk score and its factors among `ps`,
      in order. */
  function Narrow(table: seq<Indicator>, ps: seq<Picked>): (r: seq<Picked>)
    ensures |r| <= |ps|
    ensures forall k :: 0 <= k < |r| ==> r[k] in ps && RiskScoreFactor(table, r[k].row)
  {
    if ps == [] then []
    else
      var front := Narrow(table, ps[..|ps| - 1]);
      if RiskScoreFactor(table, ps[|ps| - 1].row) then front + [ps[|ps| - 1]] else front
  }

  /** Nothing that passes the filter is dropped. */
  lemma {:induction false} NarrowComplete(table: seq<Indicator>, ps: seq<Picked>)
    ensures forall p :: p in ps && RiskScoreFactor(table, p.row) ==> p in Narrow(table, ps)
  {
    if ps != [] {
      NarrowComplete(table, ps[..|ps| - 1]);
      assert ps == ps[..|ps| - 1] + [ps[|ps| - 1]];
    }
  }

  /** Filtering twice is filtering once. */
  lemma {:induction false} NarrowIdempotent(table: seq<Indicator>, ps: seq<Picked>)
    ensures Narrow(table, Narrow(table, ps)) == Narrow(table, ps)
  {
    if ps != [] {
      var init := ps[..|ps| - 1];
      var x := ps[|ps| - 1];
      NarrowIdempotent(table, init);
      if RiskScoreFactor(table, x.row) {
        var r := Narrow(table, init) + [x];
        assert r[..|r| - 1] == Narrow(table, init);
      }
    }
  }

  /** The Data table, the auto-increment sequence, and the exception after
      some turns of the loop over the indicators of one row. */
  datatype Saves = Saves(data: seq<Data>, sequence: nat, error: Option<string>)

  /** `for indc_obj in reqd_columns` over the first `n` indicators, for a row
      of geography `geo`: each `Data(...).save()` takes the next key of the
      sequence; `row[slug]` of a slug that is not a column raises KeyError,
      which nothing catches. */
  function RowSaves(columns: set<string>, row: DataRow, geo: Id, reqd: seq<Picked>, n: nat,
                    data: seq<Data>, sequence: nat): Saves
    requires n <= |reqd|
  {
    if n == 0 then Saves(data, sequence, None)
    else
      var front := RowSaves(columns, row, geo, reqd, n - 1, data, sequence);
      var p := reqd[n - 1];
      if front.error.Some? then front
      else if p.row.slug !in columns then front.(error := Some("KeyError"))
      else Saves(front.data + [Observation(row, p.id, p.row.slug, geo, front.sequence + 1)], front.sequence + 1, None)
  }

  /** The row's observations are appended in the order of `reqd`, one per
      indicator and each with the next key, up to the first indicator that
      has no column, which raises KeyError; all of them when every one has. */
  lemma {:induction false} RowSavesMeaning(columns: set<string>, row: DataRow, geo: Id, reqd: seq<Picked>, n: nat,
                                           data: seq<Data>, sequence: nat)
    requires n <= |reqd|
    ensures var r := RowSaves(columns, row, geo, reqd, n, data, sequence);
            && data <= r.data && sequence <= r.sequence <= sequence + n
            && |r.data| == |data| + (r.sequence - sequence)
            && (forall k :: 0 <= k < r.sequence - sequence ==>
                  reqd[k].row.slug in columns &&
                  r.data[|data| + k] == Observation(row, reqd[k].id, reqd[k].row.slug, geo, sequence + k + 1))
            && (r.error.None? <==> r.sequence == sequence + n)
            && (r.error.Some? ==> r.error == Some("KeyError") && reqd[r.sequence - sequence].row.slug !in columns)
  {
    if n > 0 {
      RowSavesMeaning(columns, row, geo, reqd, n - 1, data, sequence);
    }
  }

  /** Once KeyError is raised, later indicators are not read. */
  lemma {:induction false} RowSavesStops(columns: set<string>, row: DataRow, geo: Id, reqd: seq<Picked>, j: nat, n: nat,
                                         data: seq<Data>, sequence: nat)
    requires j <= n <= |reqd| && RowSaves(columns, row, geo, reqd, j, data, sequence).error.Some?
    ensures RowSaves(columns, row, geo, reqd, n, data, sequence) == RowSaves(columns, row, geo, reqd, j, data, sequence)
  {
    if n > j {
      RowSavesStops(columns, row, geo, reqd, j, n - 1, data, sequence);
    }
  }

  /** The state of `migrate_data` between rows: the Data table, the
      sequence, `reqd_columns`, whether the loop broke, and the exception
      that ended it. */
  datatype DataRun = DataRun(data: seq<Data>, sequence: nat, reqd: seq<Picked>, ended: bool, error: Option<string>)

  predicate DataHalted(m: DataRun) {
    m.ended || m.error.Some?
  }

  /** A row whose `object_id` names exactly one geography, of type DISTRICT. */
  predicate IsDistrictRow(geos: seq<Geography>, row: DataRow) {
    var l := GeographyWhere(geos, Coded(row.code));
    l.Found? && geos[l.id].kind == DISTRICT
  }

  /** The indicators a row of geography `g` is saved for, given the
      `reqd_columns` the loop starts the row with. */
  function RowColumns(table: seq<Indicator>, geos: seq<Geography>, base: seq<Picked>, g: Id): seq<Picked>
    requires g < |geos|
  {
    if geos[g].kind == DISTRICT then Narrow(table, base) else base
  }

  /** One row: `Geography.objects.get(code=row.object_id)`; DoesNotExist or
      MultipleObjectsReturned is caught and breaks the loop. A DISTRICT
      narrows `reqd_columns`, then an observation is saved per indicator.
      With `sticky` the narrowed set is kept for the rows that follow, as
      the code assigns it back to `reqd_columns`; without it every row
      starts again from the visible indicators. */
  function DataAdvance(table: seq<Indicator>, geos: seq<Geography>, columns: set<string>, visible: seq<Picked>,
                       sticky: bool): (DataRun, DataRow) -> DataRun
  {
    (m: DataRun, row: DataRow) =>
      match GeographyWhere(geos, Coded(row.code))
      case Found(g) =>
        var reqd := RowColumns(table, geos, if sticky then m.reqd else visible, g);
        var s := RowSaves(columns, row, g, reqd, |reqd|, m.data, m.sequence);
        DataRun(s.data, s.sequence, reqd, false, s.error)
      case _ => m.(ended := true)
  }

  /** `migrate_data(filename)` over the first `n` rows of the frame. */
  function MigrateDataRun(t: Tables, sequence: nat, df: Frame, n: nat, sticky: bool): DataRun
    requires n <= |df.rows|
  {
    var visible := VisiblePicked(t.indicators);
    Run(DataRun(t.data, sequence, visible, false, None), df.rows, n, DataHalted,
        DataAdvance(t.indicators, t.geographies, df.columns, visible, sticky))
  }

  /** One more row of the loop. */
  lemma DataRunNext(t: Tables, sequence: nat, df: Frame, k: nat, sticky: bool)
    requires k < |df.rows|
    ensures var m := MigrateDataRun(t, sequence, df, k, sticky);
            MigrateDataRun(t, sequence, df, k + 1, sticky) ==
              if DataHalted(m) then m
              else DataAdvance(t.indicators, t.geographies, df.columns, VisiblePicked(t.indicators), sticky)(m, df.rows[k])
  {
  }

  /** A row whose code names no geography (or two) ends the loop without an
      exception: it saves nothing and no later row is read. */
  lemma DataStopsAtUnknown(t: Tables, sequence: nat, df: Frame, k: nat, n: nat, sticky: bool)
    requires k < n <= |df.rows|
    requires !DataHalted(MigrateDataRun(t, sequence, df, k, sticky))
    requires !GeographyWhere(t.geographies, Coded(df.rows[k].code)).Found?
    ensures MigrateDataRun(t, sequence, df, n, sticky) == MigrateDataRun(t, sequence, df, k, sticky).(ended := true)
    ensures MigrateDataRun(t, sequence, df, n, sticky).error.None?
  {
    DataRunNext(t, sequence, df, k, sticky);
    var visible := VisiblePicked(t.indicators);
    RunStops(DataRun(t.data, sequence, visible, false, None), df.rows, k + 1, n, DataHalted,
             DataAdvance(t.indicators, t.geographies, df.columns, visible, sticky));
  }

  /** A row of a known geography starts from `reqd_columns`, narrowed for
      a DISTRICT, and saves its observations for exactly those indicators. */
  lemma DataRowSaves(t: Tables, sequence: nat, df: Frame, k: nat, sticky: bool)
    requires k < |df.rows|
    requires !DataHalted(MigrateDataRun(t, sequence, df, k, sticky))
    requires GeographyWhere(t.geographies, Coded(df.rows[k].code)).Found?
    ensures var m := MigrateDataRun(t, sequence, df, k, sticky);
            var r := MigrateDataRun(t, sequence, df, k + 1, sticky);
            var g := GeographyWhere(t.geographies, Coded(df.rows[k].code)).id;
            && !r.ended
            && r.reqd == RowColumns(t.indicators, t.geographies, if sticky then m.reqd else VisiblePicked(t.indicators), g)
            && Saves(r.data, r.sequence, r.error) == RowSaves(df.columns, df.rows[k], g, r.reqd, |r.reqd|, m.data, m.sequence)
  {
    DataRunNext(t, sequence, df, k, sticky);
  }

  /** Some row among the first `k` is of a DISTRICT. */
  predicate DistrictSeen(geos: seq<Geography>, rows: seq<DataRow>, k: nat) {
    exists j :: 0 <= j < k && j < |rows| && IsDistrictRow(geos, rows[j])
  }

  /** `reqd_columns` after `k` rows: narrowed for good once a DISTRICT row
      went by. */
  function ReqdCarried(t: Tables, df: Frame): (nat, DataRun) -> bool {
    (k: nat, m: DataRun) =>
      var visible := VisiblePicked(t.indicators);
      m.reqd == if DistrictSeen(t.geographies, df.rows, k) then Narrow(t.indicators, visible) else visible
  }

  /** The `reqd_columns` a row leaves: narrowed by a DISTRICT row,
      unchanged otherwise. */
  lemma StickyReqd(table: seq<Indicator>, geos: seq<Geography>, columns: set<string>, visible: seq<Picked>,
                   m: DataRun, row: DataRow)
    ensures DataAdvance(table, geos, columns, visible, true)(m, row).reqd ==
              if IsDistrictRow(geos, row) then Narrow(table, m.reqd) else m.reqd
  {
  }

  /** The carried `reqd_columns` after one more row. */
  lemma ReqdCarriedNext(t: Tables, rows: seq<DataRow>, k: nat, reqd: seq<Picked>)
    requires k < |rows|
    requires reqd == if DistrictSeen(t.geographies, rows, k) then Narrow(t.indicators, VisiblePicked(t.indicators))
                     else VisiblePicked(t.indicators)
    ensures (if IsDistrictRow(t.geographies, rows[k]) then Narrow(t.indicators, reqd) else reqd) ==
            if DistrictSeen(t.geographies, rows, k + 1) then Narrow(t.indicators, VisiblePicked(t.indicators))
            else VisiblePicked(t.indicators)
  {
    var visible := VisiblePicked(t.indicators);
    NarrowIdempotent(t.indicators, visible);
    if IsDistrictRow(t.geographies, rows[k]) {
      assert DistrictSeen(t.geographies, rows, k + 1);
    } else if DistrictSeen(t.geographies, rows, k + 1) {
      var j :| 0 <= j < k + 1 && j < |rows| && IsDistrictRow(t.geographies, rows[j]);
      assert DistrictSeen(t.geographies, rows, k);
    }
  }

  lemma ReqdCarriedStep(t: Tables, df: Frame, k: nat, m: DataRun)
    requires k < |df.rows| && ReqdCarried(t, df)(k, m)
    ensures ReqdCarried(t, df)(k + 1, DataAdvance(t.indicators, t.geographies, df.columns, VisiblePicked(t.indicators), true)(m, df.rows[k]))
  {
    StickyReqd(t.indicators, t.geographies, df.columns, VisiblePicked(t.indicators), m, df.rows[k]);
    ReqdCarriedNext(t, df.rows, k, m.reqd);
  }

  /** As written, the narrowing sticks: after `n` rows `reqd_columns` is the
      risk score and its factors if any DISTRICT row went by, and every
      visible indicator otherwise. */
  lemma MigrateDataReqd(t: Tables, sequence: nat, df: Frame, n: nat)
    requires n <= |df.rows|
    ensures ReqdCarried(t, df)(n, MigrateDataRun(t, sequence, df, n, true)) || DataHalted(MigrateDataRun(t, sequence, df, n, true))
  {
    var visible := VisiblePicked(t.indicators);
    var step := DataAdvance(t.indicators, t.geographies, df.columns, visible, true);
    forall k, x | 0 <= k < |df.rows| && ReqdCarried(t, df)(k, x) && !DataHalted(x)
      ensures ReqdCarried(t, df)(k + 1, step(x, df.rows[k]))
    {
      ReqdCarriedStep(t, df, k, x);
    }
    assert !DistrictSeen(t.geographies, df.rows, 0);
    RunInduct(DataRun(t.data, sequence, visible, false, None), df.rows, n, DataHalted, step, ReqdCarried(t, df));
  }

  /** A row of a known geography that starts from the risk score and its
      factors saves observations for nothing else. */
  lemma NarrowedStep(table: seq<Indicator>, geos: seq<Geography>, columns: set<string>, visible: seq<Picked>,
                     m: DataRun, row: DataRow)
    requires forall k :: 0 <= k < |visible| ==> visible[k].id < |table| && visible[k].row == table[visible[k].id]
    requires m.reqd == Narrow(table, visible) && GeographyWhere(geos, Coded(row.code)).Found?
    ensures var r := DataAdvance(table, geos, columns, visible, true)(m, row);
            && r.reqd == Narrow(table, visible)
            && m.data <= r.data
            && forall i :: |m.data| <= i < |r.data| ==>
                 r.data[i].indicator < |table| && RiskScoreFactor(table, table[r.data[i].indicator])
  {
    var g := GeographyWhere(geos, Coded(row.code)).id;
    NarrowIdempotent(table, visible);
    var reqd := RowColumns(table, geos, m.reqd, g);
    assert reqd == Narrow(table, visible);
    RowSavesMeaning(columns, row, g, reqd, |reqd|, m.data, m.sequence);
    var s := RowSaves(columns, row, g, reqd, |reqd|, m.data, m.sequence);
    forall i | |m.data| <= i < |s.data|
      ensures s.data[i].indicator < |table| && RiskScoreFactor(table, table[s.data[i].indicator])
    {
      var p := reqd[i - |m.data|];
      assert p in visible;
    }
  }

  /** As written: once a DISTRICT row went by, every later row, of whatever
      type, is saved only for the risk score and its factors. */
  lemma LaterRowsNarrowed(t: Tables, sequence: nat, df: Frame, j: nat, k: nat)
    requires j < k < |df.rows| && IsDistrictRow(t.geographies, df.rows[j])
    requires !DataHalted(MigrateDataRun(t, sequence, df, k, true))
    requires GeographyWhere(t.geographies, Coded(df.rows[k].code)).Found?
    ensures var m := MigrateDataRun(t, sequence, df, k, true);
            var r := MigrateDataRun(t, sequence, df, k + 1, true);
            && r.reqd == Narrow(t.indicators, VisiblePicked(t.indicators))
            && m.data <= r.data
            && forall i :: |m.data| <= i < |r.data| ==>
                 r.data[i].indicator < |t.indicators| && RiskScoreFactor(t.indicators, t.indicators[r.data[i].indicator])
  {
    MigrateDataReqd(t, sequence, df, k);
    assert DistrictSeen(t.geographies, df.rows, k);
    DataRunNext(t, sequence, df, k, true);
    NarrowedStep(t.indicators, t.geographies, df.columns, VisiblePicked(t.indicators),
                 MigrateDataRun(t, sequence, df, k, true), df.rows[k]);
  }

  /** Corrected, a row that is not of a DISTRICT starts again from the
      visible indicators and, if it raises nothing, saves an observation
      for every one of them. */
  lemma IntendedStep(table: seq<Indicator>, geos: seq<Geography>, columns: set<string>, m: DataRun, row: DataRow)
    requires GeographyWhere(geos, Coded(row.code)).Found? && !IsDistrictRow(geos, row)
    ensures var r := DataAdvance(table, geos, columns, VisiblePicked(table), false)(m, row);
            var g := GeographyWhere(geos, Coded(row.code)).id;
            && m.data <= r.data
            && (r.error.None? ==>
                  forall i :: 0 <= i < |table| && table[i].visible ==>
                    exists d :: d in r.data[|m.data|..] && d.indicator == i && d.geography == g)
  {
    var visible := VisiblePicked(table);
    var g := GeographyWhere(geos, Coded(row.code)).id;
    RowSavesMeaning(columns, row, g, visible, |visible|, m.data, m.sequence);
    var s := RowSaves(columns, row, g, visible, |visible|, m.data, m.sequence);
    if s.error.None? {
      forall i | 0 <= i < |table| && table[i].visible
        ensures exists d :: d in s.data[|m.data|..] && d.indicator == i && d.geography == g
      {
        VisiblePickedComplete(table, i);
        var j :| 0 <= j < |visible| && visible[j] == Picked(i, table[i]);
        assert s.data[|m.data|..][j] == s.data[|m.data| + j];
      }
    }
  }

  /** Corrected, each row starting again from the visible indicators: a
      row that is not of a DISTRICT and raises nothing gets an observation
      for every visible indicator, whatever rows went before. */
  lemma IntendedRowColumns(t: Tables, sequence: nat, df: Frame, k: nat)
    requires k < |df.rows|
    requires !DataHalted(MigrateDataRun(t, sequence, df, k, false))
    requires GeographyWhere(t.geographies, Coded(df.rows[k].code)).Found?
    requires !IsDistrictRow(t.geographies, df.rows[k])
    ensures var m := MigrateDataRun(t, sequence, df, k, false);
            var r := MigrateDataRun(t, sequence, df, k + 1, false);
            var g := GeographyWhere(t.geographies, Coded(df.rows[k].code)).id;
            && m.data <= r.data
            && (r.error.None? ==>
                  forall i :: 0 <= i < |t.indicators| && t.indicators[i].visible ==>
                    exists d :: d in r.data[|m.data|..] && d.indicator == i && d.geography == g)
  {
    DataRunNext(t, sequence, df, k, false);
    IntendedStep(t.indicators, t.geographies, df.columns, MigrateDataRun(t, sequence, df, k, false), df.rows[k]);
  }

  /** Every observation points at an existing indicator and geography. */
  predicate DataRefs(data: seq<Data>, indicators: nat, geographies: nat) {
    forall d :: d in data ==> d.indicator < indicators && d.geography < geographies
  }

  /** Saving a row's observations keeps the earlier rows, their keys
      distinct and at most the sequence, and their references valid. */
  lemma {:induction false} RowSavesKeeps(columns: set<string>, row: DataRow, geo: Id, reqd: seq<Picked>, n: nat,
                                         data: seq<Data>, sequence: nat, indicators: nat, geographies: nat)
    requires n <= |reqd| && geo < geographies
    requires forall k :: 0 <= k < |reqd| ==> reqd[k].id < indicators
    requires PkBound(data, sequence) && DistinctPks(data) && DataRefs(data, indicators, geographies)
    ensures var r := RowSaves(columns, row, geo, reqd, n, data, sequence);
            && data <= r.data && sequence <= r.sequence
            && PkBound(r.data, r.sequence) && DistinctPks(r.data) && DataRefs(r.data, indicators, geographies)
  {
    if n > 0 {
      RowSavesKeeps(columns, row, geo, reqd, n - 1, data, sequence, indicators, geographies);
      var front := RowSaves(columns, row, geo, reqd, n - 1, data, sequence);
      var p := reqd[n - 1];
      if front.error.None? && p.row.slug in columns {
        var d := Observation(row, p.id, p.row.slug, geo, front.sequence + 1);
        AppendFreshKeys(front.data, [d], front.sequence);
        assert DataRefs(front.data + [d], indicators, geographies);
      }
    }
  }

  /** What every turn of the loop keeps: the rows that were there, distinct
      keys at most the sequence, valid references, and `reqd_columns` among
      the indicators. */
  function DataKept(t: Tables): DataRun -> bool {
    (m: DataRun) =>
      && t.data <= m.data
      && PkBound(m.data, m.sequence) && DistinctPks(m.data)
      && DataRefs(m.data, |t.indicators|, |t.geographies|)
      && forall k :: 0 <= k < |m.reqd| ==> m.reqd[k].id < |t.indicators|
  }

  lemma DataKeptStep(t: Tables, columns: set<string>, sticky: bool, m: DataRun, row: DataRow)
    requires DataKept(t)(m)
    ensures DataKept(t)(DataAdvance(t.indicators, t.geographies, columns, VisiblePicked(t.indicators), sticky)(m, row))
  {
    var visible := VisiblePicked(t.indicators);
    var l := GeographyWhere(t.geographies, Coded(row.code));
    if l.Found? {
      var base := if sticky then m.reqd else visible;
      var reqd := RowColumns(t.indicators, t.geographies, base, l.id);
      assert forall k :: 0 <= k < |reqd| ==> reqd[k] in base;
      RowSavesKeeps(columns, row, l.id, reqd, |reqd|, m.data, m.sequence, |t.indicators|, |t.geographies|);
    }
  }

  /** `migrate_data` keeps every row that was in Data, keeps keys distinct
      and at most the sequence, so the next auto-increment key is free, and
      every observation pointing at existing rows. */
  lemma MigrateDataKeepsInvariants(t: Tables, sequence: nat, df: Frame, sticky: bool)
    requires RefsValid(t) && DistinctPks(t.data) && PkBound(t.data, sequence)
    ensures var r := MigrateDataRun(t, sequence, df, |df.rows|, sticky);
            && t.data <= r.data
            && RefsValid(t.(data := r.data)) && DistinctPks(r.data) && PkBound(r.data, r.sequence)
  {
    var visible := VisiblePicked(t.indicators);
    var step := DataAdvance(t.indicators, t.geographies, df.columns, visible, sticky);
    forall k, x | 0 <= k < |df.rows| && DataKept(t)(x) && !DataHalted(x)
      ensures DataKept(t)(step(x, df.rows[k]))
    {
      DataKeptStep(t, df.columns, sticky, x, df.rows[k]);
    }
    RunKeeps(DataRun(t.data, sequence, visible, false, None), df.rows, |df.rows|, DataHalted, step, DataKept(t));
  }

  /** The loop over the indicators of one row. */
  method SaveRow(db: Database, columns: set<string>, row: DataRow, geo: Id, reqd: seq<Picked>)
    returns (error: Option<string>)
    modifies db`data, db`sequence
    ensures Saves(db.data, db.sequence, error) == RowSaves(columns, row, geo, reqd, |reqd|, old(db.data), old(db.sequence))
  {
    error := None;
    var j := 0;
    while j < |reqd| && error.None?
      invariant j <= |reqd|
      invariant Saves(db.data, db.sequence, error) == RowSaves(columns, row, geo, reqd, j, old(db.data), old(db.sequence))
    {
      var p := reqd[j];
      if p.row.slug !in columns {
        error := Some("KeyError");
      } else {
        db.sequence := db.sequence + 1;
        db.data := db.data + [Observation(row, p.id, p.row.slug, geo, db.sequence)];
      }
      j := j + 1;
    }
    if j < |reqd| {
      RowSavesStops(columns, row, geo, reqd, j, |reqd|, old(db.data), old(db.sequence));
    }
  }

  /** One turn of the loop of `migrate_data`, from a state that has not
      stopped. */
  method MigrateNextDataRow(db: Database, columns: set<string>, visible: seq<Picked>, reqd: seq<Picked>, row: DataRow,
                            sticky: bool)
    returns (reqd': seq<Picked>, ended: bool, error: Option<string>)
    modifies db`data, db`sequence
    ensures DataRun(db.data, db.sequence, reqd', ended, error) ==
            DataAdvance(db.indicators, db.geographies, columns, visible, sticky)
              (DataRun(old(db.data), old(db.sequence), reqd, false, None), row)
  {
    var found := GeographyWhere(db.geographies, Coded(row.code));
    if !found.Found? {
      return reqd, true, None;
    }
    reqd' := if sticky then reqd else visible;
    if db.geographies[found.id].kind == DISTRICT {
      reqd' := Narrow(db.indicators, reqd');
    }
    assert reqd' == RowColumns(db.indicators, db.geographies, if sticky then reqd else visible, found.id);
    ended := false;
    error := SaveRow(db, columns, row, found.id, reqd');
  }

  /** `migrate_data(filename)`: the frame's rows in order, until a row names
      no geography or an indicator has no column. Each DISTRICT row is
      narrowed to the risk score and its factors. With `sticky` this is the
      loop as written: the narrowed set is kept for every later row
      (`LaterRowsNarrowed`). Without it, the corrected reading: the rows after
      a DISTRICT row start again from every visible indicator. */
  method MigrateData(db: Database, df: Frame, sticky: bool) returns (error: Option<string>)
    modifies db`data, db`sequence
    ensures var r := MigrateDataRun(old(db.Snapshot()), old(db.sequence), df, |df.rows|, sticky);
            db.data == r.data && db.sequence == r.sequence && error == r.error
  {
    var visible := VisiblePicked(db.indicators);
    var reqd := visible;
    var ended := false;
    error := None;
    var i := 0;
    while i < |df.rows| && !ended && error.None?
      invariant i <= |df.rows|
      invariant DataRun(db.data, db.sequence, reqd, ended, error) ==
                MigrateDataRun(old(db.Snapshot()), old(db.sequence), df, i, sticky)
    {
      reqd, ended, error := MigrateNextDataRow(db, df.columns, visible, reqd, df.rows[i], sticky);
      i := i + 1;
    }
    if i < |df.rows| {
      RunStops(DataRun(old(db.data), old(db.sequence), visible, false, None), df.rows, i, |df.rows|, DataHalted,
               DataAdvance(db.indicators, db.geographies, df.columns, visible, sticky));
    }
  }
}
