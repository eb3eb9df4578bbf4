/** `migrate_indicators` of the `import_data` command: each row of the
    indicator dictionary either names an indicator that exists already, or
    adds one, creating its unit on the way; the first exception ends the run. */
module DictionaryImport {
  import opened Query
  import opened Text
  import opened Models
  import opened Inputs

  /** The unit a row asks for, and the Unit table afterwards. */
  datatype UnitPick = UnitPick(unit: Option<Id>, units: seq<Unit>)

  /** `_get_indicator_unit_form_row(row)`: no unit for an empty cell; otherwise
      the unit named by the lower-cased cell, created (and saved at once) when
      there is none. */
  function RowUnit(units: seq<Unit>, c: Cell): (r: UnitPick)
    ensures r.unit.Some? <==> NonEmptyText(c)
    ensures r.unit.Some? ==> r.unit.value < |r.units| && r.units[r.unit.value].name == Lower(c.s)
    ensures r.units == units || (NonEmptyText(c) && r.units == units + [Unit(Lower(c.s), None, "")])
  {
    if NonEmptyText(c) then
      var chosen := UnitFor(units, Lower(c.s));
      UnitPick(Some(chosen.id), chosen.units)
    else UnitPick(None, units)
  }

  /** `_get_indicator_parent_from_row(row)`: no parent for an empty cell or
      when no indicator has the stripped name (that miss is only reported);
      two indicators with that name raise MultipleObjectsReturned, which is
      not caught. */
  function RowParent(indicators: seq<Indicator>, c: Cell): (r: Outcome<Option<Id>>)
    ensures r.Ok? && r.value.Some? ==> r.value.value < |indicators|
  {
    if NonEmptyText(c) then
      match IndicatorWith(indicators, ByName, Strip(c.s))
      case Found(id) => Ok(Some(id))
      case NotFound => Ok(None)
      case Multiple => Err("MultipleObjectsReturned")
    else Ok(None)
  }

  /** The parent is the one indicator with the stripped name; the run stops
      when there are two, and an unknown name only loses the parent. */
  lemma RowParentMeaning(indicators: seq<Indicator>, c: Cell)
    ensures RowParent(indicators, c).Err? <==>
              NonEmptyText(c) &&
              exists a, b :: 0 <= a < b < |indicators| &&
                indicators[a].name == Strip(c.s) && indicators[b].name == Strip(c.s)
    ensures RowParent(indicators, c).Ok? && RowParent(indicators, c).value.Some? ==>
              NonEmptyText(c) && indicators[RowParent(indicators, c).value.value].name == Strip(c.s)
    ensures RowParent(indicators, c) == Ok(None) <==>
              !NonEmptyText(c) || forall k :: 0 <= k < |indicators| ==> indicators[k].name != Strip(c.s)
  {
    if NonEmptyText(c) {
      var name := Strip(c.s);
      IndicatorWithNotFound(indicators, ByName, name);
      IndicatorWithMultiple(indicators, ByName, name);
      if IndicatorWith(indicators, ByName, name).Found? {
        IndicatorWithFound(indicators, ByName, name);
      }
    }
  }

  /** `row.x.strip() if row.x else None`: an empty cell gives `None`, a NaN
      cell is truthy and has no `strip` (AttributeError). */
  function OptionalText(c: Cell): Outcome<Option<string>> {
    match c
    case NaN => Err("AttributeError")
    case Str(s) => if s == "" then Ok(None) else Ok(Some(Strip(s)))
  }

  /** The slug the constructor is given: `row.indicatorSlug.lower().strip()`,
      or `None` for an empty cell. */
  function DraftSlug(slug: string): Option<string> {
    if slug == "" then None else Some(Strip(Lower(slug)))
  }

  /** The `Indicators(...)` instance built for a new row, or the exception
      raised while building it. */
  function DraftFor(row: DictRow, slug: string, unit: Option<Id>, parent: Option<Id>): (r: Outcome<IndicatorDraft>)
    ensures r.Ok? <==> row.indicatorTitle.Str? && row.indicatorDescription.Str? &&
                       row.indicatorCategory.Str? && row.dataSource.Str?
    ensures r.Ok? ==> && r.value.name == Strip(row.indicatorTitle.s)
                      && r.value.slug == DraftSlug(slug)
                      && r.value.unit == unit && r.value.parent == parent
                      && r.value.visible == (row.visible == Str("y"))
  {
    if row.indicatorTitle.NaN? then Err("AttributeError")
    else
      var description := OptionalText(row.indicatorDescription);
      var category := OptionalText(row.indicatorCategory);
      var source := OptionalText(row.dataSource);
      if description.Err? || category.Err? || source.Err? then Err("AttributeError")
      else Ok(IndicatorDraft(Strip(row.indicatorTitle.s), DraftSlug(slug), description.value,
                             category.value, source.value, unit, parent, row.visible == Str("y")))
  }

  /** What one dictionary row does: the indicator existed, was added, or an
      exception ended the run. */
  datatype RowResult = AlreadyExists | Added | Failed(error: string)

  /** The Unit and Indicators tables after one row, and its result. */
  datatype RowEffect = RowEffect(units: seq<Unit>, indicators: seq<Indicator>, result: RowResult)

  /** The body of the loop of `migrate_indicators` for one row. The unit is
      saved before the parent and the remaining cells are read, so it stays
      when either of those raises. */
  function IndicatorRowEffect(units: seq<Unit>, indicators: seq<Indicator>, row: DictRow,
                              slugify: string -> string): (r: RowEffect)
    ensures r.units == units || (NonEmptyText(row.unit) && r.units == units + [Unit(Lower(row.unit.s), None, "")])
    ensures r.result != Added ==> r.indicators == indicators
    ensures r.result == Added ==>
              |r.indicators| == |indicators| + 1 && r.indicators == indicators + [r.indicators[|indicators|]]
  {
    match row.indicatorSlug
    case NaN => RowEffect(units, indicators, Failed("AttributeError"))
    case Str(slug) =>
      match IndicatorWith(indicators, BySlug, Lower(slug))
      case Found(_) => RowEffect(units, indicators, AlreadyExists)
      case Multiple => RowEffect(units, indicators, Failed("MultipleObjectsReturned"))
      case NotFound =>
        var unit := RowUnit(units, row.unit);
        var parent := RowParent(indicators, row.parent);
        if parent.Err? then RowEffect(unit.units, indicators, Failed(parent.error))
        else
          var draft := DraftFor(row, slug, unit.unit, parent.value);
          if draft.Err? then RowEffect(unit.units, indicators, Failed(draft.error))
          else RowEffect(unit.units, indicators + [SavedIndicator(draft.value, slugify)], Added)
  }

  /** A row whose lower-cased slug names exactly one indicator changes
      nothing; the others go on to the unit and the new indicator. */
  lemma RowEffectExisting(units: seq<Unit>, indicators: seq<Indicator>, row: DictRow, slugify: string -> string)
    ensures IndicatorRowEffect(units, indicators, row, slugify).result == AlreadyExists <==>
              row.indicatorSlug.Str? &&
              exists k :: 0 <= k < |indicators| && indicators[k].slug == Lower(row.indicatorSlug.s) &&
                forall j :: 0 <= j < |indicators| && j != k ==> indicators[j].slug != Lower(row.indicatorSlug.s)
    ensures IndicatorRowEffect(units, indicators, row, slugify).result == AlreadyExists ==>
              IndicatorRowEffect(units, indicators, row, slugify) == RowEffect(units, indicators, AlreadyExists)
  {
    var r := IndicatorRowEffect(units, indicators, row, slugify);
    if row.indicatorSlug.Str? {
      var slug := Lower(row.indicatorSlug.s);
      var look := IndicatorWith(indicators, BySlug, slug);
      assert r.result == AlreadyExists <==> look.Found?;
      if look.Found? {
        IndicatorWithFound(indicators, BySlug, slug);
        assert indicators[look.id].slug == slug;
      } else if exists k :: 0 <= k < |indicators| && indicators[k].slug == slug &&
                  forall j :: 0 <= j < |indicators| && j != k ==> indicators[j].slug != slug {
        var k :| 0 <= k < |indicators| && indicators[k].slug == slug &&
                 forall j :: 0 <= j < |indicators| && j != k ==> indicators[j].slug != slug;
        IndicatorWithNotFound(indicators, BySlug, slug);
        IndicatorWithMultiple(indicators, BySlug, slug);
        assert false;
      }
    }
  }

  /** An added indicator: no indicator had the lower-cased slug; it has the
      stripped title as name, the slug `save()` fills in, the visibility of
      the `visible` cell, the unit named by the lower-cased unit cell, and the
      parent `RowParent` resolves (see `RowParentMeaning`). */
  lemma RowEffectAdded(units: seq<Unit>, indicators: seq<Indicator>, row: DictRow, slugify: string -> string)
    requires IndicatorRowEffect(units, indicators, row, slugify).result == Added
    ensures row.indicatorSlug.Str? && row.indicatorTitle.Str?
    ensures forall k :: 0 <= k < |indicators| ==> indicators[k].slug != Lower(row.indicatorSlug.s)
    ensures var r := IndicatorRowEffect(units, indicators, row, slugify);
            && r.indicators[|indicators|].name == Strip(row.indicatorTitle.s)
            && r.indicators[|indicators|].slug ==
                 FilledSlug(DraftSlug(row.indicatorSlug.s), Strip(row.indicatorTitle.s), slugify)
            && r.indicators[|indicators|].visible == (row.visible == Str("y"))
            && (r.indicators[|indicators|].unit.Some? <==> NonEmptyText(row.unit))
            && (NonEmptyText(row.unit) ==>
                  r.indicators[|indicators|].unit.value < |r.units| &&
                  r.units[r.indicators[|indicators|].unit.value].name == Lower(row.unit.s))
    ensures RowParent(indicators, row.parent).Ok? &&
            IndicatorRowEffect(units, indicators, row, slugify).indicators[|indicators|].parent ==
              RowParent(indicators, row.parent).value
  {
    IndicatorWithNotFound(indicators, BySlug, Lower(row.indicatorSlug.s));
  }

  /** A row keeps every foreign key valid, unit names unique and parents
      before their children: the new indicator's unit and parent exist. */
  lemma RowEffectKeepsWellFormed(t: Tables, row: DictRow, slugify: string -> string)
    requires WellFormed(t)
    ensures WellFormed(Tables(IndicatorRowEffect(t.units, t.indicators, row, slugify).units, t.geographies,
                              IndicatorRowEffect(t.units, t.indicators, row, slugify).indicators, t.data))
  {
    var r := IndicatorRowEffect(t.units, t.indicators, row, slugify);
    var unit := RowUnit(t.units, row.unit);
    if NonEmptyText(row.unit) {
      UnitForCreates(t.units, Lower(row.unit.s));
    }
    assert r.units == t.units || r.units == unit.units;
    if r.result == Added {
      var slug := row.indicatorSlug.s;
      var parent := RowParent(t.indicators, row.parent);
      var draft := DraftFor(row, slug, unit.unit, parent.value);
      GrowKeepsWellFormed(t, r.units, SavedIndicator(draft.value, slugify));
    } else {
      GrowKeepsWellFormed(t, r.units, Indicator("", "", None, None, None, None, None, false));
    }
  }

  /** More units, and possibly one more indicator whose unit and parent
      exist, keep the tables well formed. */
  lemma GrowKeepsWellFormed(t: Tables, units: seq<Unit>, x: Indicator)
    requires WellFormed(t) && UniqueUnitNames(units) && t.units <= units
    ensures WellFormed(Tables(units, t.geographies, t.indicators, t.data))
    ensures (x.unit.Some? ==> x.unit.value < |units|) && (x.parent.Some? ==> x.parent.value < |t.indicators|) ==>
              WellFormed(Tables(units, t.geographies, t.indicators + [x], t.data))
  {
  }

  /** Running an added row again finds the indicator and changes nothing,
      when its slug is already lower-case without surrounding blanks. */
  lemma RowEffectRerun(units: seq<Unit>, indicators: seq<Indicator>, row: DictRow, slugify: string -> string)
    requires IndicatorRowEffect(units, indicators, row, slugify).result == Added
    requires row.indicatorSlug.Str? && Lower(row.indicatorSlug.s) != "" &&
             Strip(Lower(row.indicatorSlug.s)) == Lower(row.indicatorSlug.s)
    ensures IndicatorRowEffect(IndicatorRowEffect(units, indicators, row, slugify).units,
                               IndicatorRowEffect(units, indicators, row, slugify).indicators, row, slugify) ==
            RowEffect(IndicatorRowEffect(units, indicators, row, slugify).units,
                      IndicatorRowEffect(units, indicators, row, slugify).indicators, AlreadyExists)
  {
    var r := IndicatorRowEffect(units, indicators, row, slugify);
    var slug := Lower(row.indicatorSlug.s);
    RowEffectAdded(units, indicators, row, slugify);
    assert r.indicators[|indicators|].slug == slug;
    forall j | 0 <= j < |r.indicators| && j != |indicators| ensures r.indicators[j].slug != slug {
      assert r.indicators[j] == indicators[j];
    }
    RowEffectExisting(r.units, r.indicators, row, slugify);
  }

  /** The lookup lower-cases the slug but the saved slug is also stripped:
      an added row whose slug has surrounding blanks is not found by the slug
      lookup when the dictionary is read again, so it is not `AlreadyExists`
      and goes through the unit and parent lookups again. It is then added
      again, unless the parent lookup now finds two indicators of that name
      and the run ends with MultipleObjectsReturned. */
  lemma RowEffectRerunPadded(units: seq<Unit>, indicators: seq<Indicator>, row: DictRow, slugify: string -> string)
    requires IndicatorRowEffect(units, indicators, row, slugify).result == Added
    requires row.indicatorSlug.Str? && Strip(Lower(row.indicatorSlug.s)) != "" &&
             Strip(Lower(row.indicatorSlug.s)) != Lower(row.indicatorSlug.s)
    ensures IndicatorRowEffect(IndicatorRowEffect(units, indicators, row, slugify).units,
                               IndicatorRowEffect(units, indicators, row, slugify).indicators, row, slugify).result
            != AlreadyExists
  {
    var r := IndicatorRowEffect(units, indicators, row, slugify);
    var slug := Lower(row.indicatorSlug.s);
    RowEffectAdded(units, indicators, row, slugify);
    assert |slug| == |row.indicatorSlug.s|;
    assert DraftSlug(row.indicatorSlug.s) == Some(Strip(slug));
    assert r.indicators[|indicators|].slug != slug;
    forall j | 0 <= j < |r.indicators| ensures r.indicators[j].slug != slug {
      if j < |indicators| {
        assert r.indicators[j] == indicators[j];
      } else {
        assert j == |indicators|;
      }
    }
    RowEffectExisting(r.units, r.indicators, row, slugify);
  }

  // ---- The whole dictionary ----

  /** The Unit and Indicators tables after a run, and the exception that
      ended it, if any. */
  datatype Migrated = Migrated(units: seq<Unit>, indicators: seq<Indicator>, error: Option<string>)

  /** One pass of the loop once the previous rows went through. */
  function Step(m: Migrated, row: DictRow, slugify: string -> string): Migrated {
    var e := IndicatorRowEffect(m.units, m.indicators, row, slugify);
    Migrated(e.units, e.indicators, if e.result.Failed? then Some(e.result.error) else None)
  }

  /** An exception ended the run. */
  predicate Halted(m: Migrated) {
    m.error.Some?
  }

  function Advance(slugify: string -> string): (Migrated, DictRow) -> Migrated {
    (m: Migrated, row: DictRow) => Step(m, row, slugify)
  }

  /** `migrate_indicators` over the first `n` rows of the dictionary: the
      rows in order, up to the first exception. */
  function MigrateRows(units: seq<Unit>, indicators: seq<Indicator>, rows: seq<DictRow>, n: nat,
                       slugify: string -> string): Migrated
    requires n <= |rows|
  {
    Run(Migrated(units, indicators, None), rows, n, Halted, Advance(slugify))
  }

  /** After the first exception no further row is read. */
  lemma MigrateRowsStops(units: seq<Unit>, indicators: seq<Indicator>, rows: seq<DictRow>,
                         n: nat, m: nat, slugify: string -> string)
    requires n <= m <= |rows|
    requires MigrateRows(units, indicators, rows, n, slugify).error.Some?
    ensures MigrateRows(units, indicators, rows, m, slugify) == MigrateRows(units, indicators, rows, n, slugify)
  {
    RunStops(Migrated(units, indicators, None), rows, n, m, Halted, Advance(slugify));
  }

  /** A run keeps the tables well formed, whether it ends early or not. */
  lemma MigrateRowsKeepsWellFormed(t: Tables, rows: seq<DictRow>, n: nat, slugify: string -> string)
    requires WellFormed(t) && n <= |rows|
    ensures WellFormed(Tables(MigrateRows(t.units, t.indicators, rows, n, slugify).units, t.geographies,
                              MigrateRows(t.units, t.indicators, rows, n, slugify).indicators, t.data))
  {
    var inv := (m: Migrated) => WellFormed(Tables(m.units, t.geographies, m.indicators, t.data));
    forall k, x | 0 <= k < |rows| && inv(x) && !Halted(x) ensures inv(Advance(slugify)(x, rows[k])) {
      RowEffectKeepsWellFormed(Tables(x.units, t.geographies, x.indicators, t.data), rows[k], slugify);
    }
    RunKeeps(Migrated(t.units, t.indicators, None), rows, n, Halted, Advance(slugify), inv);
  }

  /** A slug cell that is already lower-case, non-empty and without
      surrounding blanks. */
  predicate NormalisedSlug(c: Cell) {
    c.Str? && Lower(c.s) != "" && Strip(Lower(c.s)) == Lower(c.s)
  }

  predicate HasSlug(indicators: seq<Indicator>, slug: string) {
    exists j :: 0 <= j < |indicators| && indicators[j].slug == slug
  }

  /** Every one of the first `k` rows has a slug, and each normalised one
      names an indicator of the table. */
  predicate Covered(rows: seq<DictRow>, k: nat, indicators: seq<Indicator>)
    requires k <= |rows|
  {
    k == 0 ||
    (&& Covered(rows, k - 1, indicators)
     && rows[k - 1].indicatorSlug.Str?
     && (NormalisedSlug(rows[k - 1].indicatorSlug) ==> HasSlug(indicators, Lower(rows[k - 1].indicatorSlug.s))))
  }

  lemma {:induction false} CoveredGrows(rows: seq<DictRow>, k: nat, indicators: seq<Indicator>, more: seq<Indicator>)
    requires k <= |rows| && Covered(rows, k, indicators) && indicators <= more
    ensures Covered(rows, k, more)
  {
    if k > 0 {
      CoveredGrows(rows, k - 1, indicators, more);
      var c := rows[k - 1].indicatorSlug;
      if NormalisedSlug(c) {
        var j :| 0 <= j < |indicators| && indicators[j].slug == Lower(c.s);
        assert more[j] == indicators[j];
      }
    }
  }

  lemma {:induction false} CoveredMeaning(rows: seq<DictRow>, k: nat, indicators: seq<Indicator>)
    requires k <= |rows| && Covered(rows, k, indicators)
    ensures forall i :: 0 <= i < k ==> rows[i].indicatorSlug.Str?
    ensures forall i :: 0 <= i < k && NormalisedSlug(rows[i].indicatorSlug) ==>
              HasSlug(indicators, Lower(rows[i].indicatorSlug.s))
  {
    if k > 0 {
      CoveredMeaning(rows, k - 1, indicators);
    }
  }

  /** A row that does not raise had a slug, keeps the indicators it found,
      and leaves a normalised slug in the table. */
  lemma RowEffectCovers(units: seq<Unit>, indicators: seq<Indicator>, row: DictRow, slugify: string -> string)
    ensures !IndicatorRowEffect(units, indicators, row, slugify).result.Failed? ==>
              && row.indicatorSlug.Str?
              && indicators <= IndicatorRowEffect(units, indicators, row, slugify).indicators
              && (NormalisedSlug(row.indicatorSlug) ==>
                    HasSlug(IndicatorRowEffect(units, indicators, row, slugify).indicators, Lower(row.indicatorSlug.s)))
  {
    var e := IndicatorRowEffect(units, indicators, row, slugify);
    if !e.result.Failed? && NormalisedSlug(row.indicatorSlug) {
      var slug := Lower(row.indicatorSlug.s);
      if e.result == AlreadyExists {
        RowEffectExisting(units, indicators, row, slugify);
        var j :| 0 <= j < |indicators| && indicators[j].slug == slug;
        assert e.indicators[j].slug == slug;
      } else {
        RowEffectAdded(units, indicators, row, slugify);
        assert e.indicators[|indicators|].slug == slug;
      }
    }
  }

  /** After `k` rows: the run failed, or those rows are covered. */
  function CoveredAfter(rows: seq<DictRow>): (nat, Migrated) -> bool {
    (k: nat, m: Migrated) => k <= |rows| && (!Halted(m) ==> Covered(rows, k, m.indicators))
  }

  /** One row that does not raise keeps the earlier rows covered and covers itself. */
  lemma CoversStep(rows: seq<DictRow>, k: nat, m: Migrated, slugify: string -> string)
    requires k < |rows| && CoveredAfter(rows)(k, m) && !Halted(m)
    ensures CoveredAfter(rows)(k + 1, Advance(slugify)(m, rows[k]))
  {
    var r := Step(m, rows[k], slugify);
    assert Advance(slugify)(m, rows[k]) == r;
    if !Halted(r) {
      RowEffectCovers(m.units, m.indicators, rows[k], slugify);
      CoveredGrows(rows, k, m.indicators, r.indicators);
    }
  }

  /** The rows a run without exception went through are covered. */
  lemma MigrateRowsCovered(units: seq<Unit>, indicators: seq<Indicator>, rows: seq<DictRow>,
                           n: nat, slugify: string -> string)
    requires n <= |rows|
    ensures !Halted(MigrateRows(units, indicators, rows, n, slugify)) ==>
              CoveredAfter(rows)(n, MigrateRows(units, indicators, rows, n, slugify))
  {
    forall k, x | 0 <= k < |rows| && CoveredAfter(rows)(k, x) && !Halted(x)
      ensures CoveredAfter(rows)(k + 1, Advance(slugify)(x, rows[k]))
    {
      CoversStep(rows, k, x, slugify);
    }
    assert CoveredAfter(rows)(0, Migrated(units, indicators, None));
    RunInduct(Migrated(units, indicators, None), rows, n, Halted, Advance(slugify), CoveredAfter(rows));
  }

  /** A run without exception has read a slug from every row, and when a
      row's slug is normalised its indicator is then in the table, whether
      it was there before or was added. */
  lemma MigrateRowsCovers(units: seq<Unit>, indicators: seq<Indicator>, rows: seq<DictRow>,
                          n: nat, slugify: string -> string)
    requires n <= |rows|
    requires MigrateRows(units, indicators, rows, n, slugify).error.None?
    ensures forall i :: 0 <= i < n ==> rows[i].indicatorSlug.Str?
    ensures forall i :: 0 <= i < n && NormalisedSlug(rows[i].indicatorSlug) ==>
              HasSlug(MigrateRows(units, indicators, rows, n, slugify).indicators, Lower(rows[i].indicatorSlug.s))
  {
    MigrateRowsCovered(units, indicators, rows, n, slugify);
    CoveredMeaning(rows, n, MigrateRows(units, indicators, rows, n, slugify).indicators);
  }

  method IndicatorUnit(db: Database, c: Cell) returns (unit: Option<Id>)
    modifies db`units
    ensures UnitPick(unit, db.units) == RowUnit(old(db.units), c)
  {
    if NonEmptyText(c) {
      var name := Lower(c.s);
      var found := UnitNamed(db.units, name);
      if found.Some? {
        unit := found;
      } else {
        unit := Some(|db.units|);
        db.units := db.units + [Unit(name, None, "")];
      }
    } else {
      unit := None;
    }
  }

  /** One pass of the loop of `migrate_indicators`. */
  method MigrateIndicatorRow(db: Database, row: DictRow, slugify: string -> string) returns (result: RowResult)
    modifies db`units, db`indicators
    ensures RowEffect(db.units, db.indicators, result) ==
            IndicatorRowEffect(old(db.units), old(db.indicators), row, slugify)
  {
    if row.indicatorSlug.NaN? {
      return Failed("AttributeError");
    }
    var slug := row.indicatorSlug.s;
    var existing := IndicatorWith(db.indicators, BySlug, Lower(slug));
    if existing.Found? {
      return AlreadyExists;
    } else if existing.Multiple? {
      return Failed("MultipleObjectsReturned");
    }
    var unit := IndicatorUnit(db, row.unit);
    var parent := RowParent(db.indicators, row.parent);
    if parent.Err? {
      return Failed(parent.error);
    }
    var draft := DraftFor(row, slug, unit, parent.value);
    if draft.Err? {
      return Failed(draft.error);
    }
    db.indicators := db.indicators + [SavedIndicator(draft.value, slugify)];
    result := Added;
  }

  /** Row `i` of a run that has not failed yet. */
  method MigrateNextRow(db: Database, ghost units: seq<Unit>, ghost indicators: seq<Indicator>,
                        rows: seq<DictRow>, i: nat, slugify: string -> string) returns (result: RowResult)
    requires i < |rows|
    requires Migrated(db.units, db.indicators, None) == MigrateRows(units, indicators, rows, i, slugify)
    modifies db`units, db`indicators
    ensures Migrated(db.units, db.indicators, if result.Failed? then Some(result.error) else None) ==
            MigrateRows(units, indicators, rows, i + 1, slugify)
  {
    result := MigrateIndicatorRow(db, rows[i], slugify);
  }

  /** `migrate_indicators()`: the rows in order; the first exception ends
      the run and is returned. */
  method MigrateIndicators(db: Database, rows: seq<DictRow>, slugify: string -> string) returns (error: Option<string>)
    modifies db`units, db`indicators
    ensures Migrated(db.units, db.indicators, error) ==
            MigrateRows(old(db.units), old(db.indicators), rows, |rows|, slugify)
  {
    var i := 0;
    while i < |rows|
      invariant i <= |rows|
      invariant Migrated(db.units, db.indicators, None) ==
                MigrateRows(old(db.units), old(db.indicators), rows, i, slugify)
    {
      var result := MigrateNextRow(db, old(db.units), old(db.indicators), rows, i, slugify);
      if result.Failed? {
        MigrateRowsStops(old(db.units), old(db.indicators), rows, i + 1, |rows|, slugify);
        return Some(result.error);
      }
      i := i + 1;
    }
    error := None;
  }
}
