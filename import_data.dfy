/** The `import_data` management command: the key counter, the per-geography
    replacement of observations, the indicator dictionary import, the GeoJSON
    geography upsert, and the command's choice of data files. */
module ImportData {
  import opened Query
  import opened Text
  import opened Models
  import opened Inputs

  // ---- Primary keys ----

  /** `Data.objects.last().pk`, or 0 for an empty table: Data declares no
      ordering, so `last()` is the row with the largest key. */
  function LastPk(data: seq<Data>): (n: nat)
    ensures forall d :: d in data ==> d.pk <= n
    ensures data == [] ==> n == 0
    ensures data != [] ==> exists k :: 0 <= k < |data| && data[k].pk == n
  {
    if data == [] then 0
    else
      var init := data[..|data| - 1];
      var front := LastPk(init);
      assert data == init + [data[|data| - 1]];
      if data[|data| - 1].pk > front then data[|data| - 1].pk else front
  }

  /** Every key in `data` is at most `counter`: keys above it are free. */
  predicate PkBound(data: seq<Data>, counter: nat) {
    forall d :: d in data ==> d.pk <= counter
  }

  /** The module-level `counter` and `generate_pk()`. */
  class PkCounter {
    var counter: nat

    /** The counter as the module sets it when it is loaded. */
    constructor (data: seq<Data>)
      ensures counter == LastPk(data)
      ensures PkBound(data, counter)
    {
      counter := LastPk(data);
    }

    /** `generate_pk()`: the next key, one above the previous one. */
    method Next() returns (pk: nat)
      modifies this
      ensures pk == old(counter) + 1 && counter == pk
    {
      counter := counter + 1;
      pk := counter;
    }
  }

  // ---- filter_indicators ----

  /** `filter_indicators(df, indicators)`: the indicators whose slug is a
      column of the frame, in their original order; the others are only
      reported. */
  function FilterIndicators(table: seq<Indicator>, columns: set<string>, inds: seq<Id>): (r: seq<Id>)
    requires forall k :: 0 <= k < |inds| ==> inds[k] < |table|
    ensures forall k :: 0 <= k < |r| ==> r[k] < |table| && table[r[k]].slug in columns
  {
    if inds == [] then []
    else
      var init := inds[..|inds| - 1];
      var last := inds[|inds| - 1];
      var front := FilterIndicators(table, columns, init);
      assert inds == init + [last];
      if table[last].slug in columns then front + [last] else front
  }

  /** An indicator is kept exactly when it is asked for and its slug is a column. */
  lemma {:induction false} FilterIndicatorsMembers(table: seq<Indicator>, columns: set<string>, inds: seq<Id>)
    requires forall k :: 0 <= k < |inds| ==> inds[k] < |table|
    ensures forall i :: i in FilterIndicators(table, columns, inds) <==> i in inds && table[i].slug in columns
  {
    if inds != [] {
      var init := inds[..|inds| - 1];
      FilterIndicatorsMembers(table, columns, init);
      assert inds == init + [inds[|inds| - 1]];
    }
  }

  /** The kept indicators keep their original order. */
  lemma {:induction false} FilterIndicatorsKeepsOrder(table: seq<Indicator>, columns: set<string>, inds: seq<Id>)
    requires forall k :: 0 <= k < |inds| ==> inds[k] < |table|
    ensures IsSubsequence(FilterIndicators(table, columns, inds), inds)
  {
    if inds != [] {
      var init := inds[..|inds| - 1];
      var front := FilterIndicators(table, columns, init);
      FilterIndicatorsKeepsOrder(table, columns, init);
      var r := FilterIndicators(table, columns, inds);
      if r != front {
        assert r[..|r| - 1] == front;
      }
    }
  }

  /** When every slug is a column nothing is dropped. */
  lemma {:induction false} FilterIndicatorsAllPresent(table: seq<Indicator>, columns: set<string>, inds: seq<Id>)
    requires forall k :: 0 <= k < |inds| ==> inds[k] < |table| && table[inds[k]].slug in columns
    ensures FilterIndicators(table, columns, inds) == inds
  {
    if inds != [] {
      var init := inds[..|inds| - 1];
      assert forall k :: 0 <= k < |init| ==> init[k] == inds[k];
      FilterIndicatorsAllPresent(table, columns, init);
      assert table[inds[|inds| - 1]].slug in columns;
      assert inds == init + [inds[|inds| - 1]];
    }
  }

  /** Filtering a filtered list changes nothing more. */
  lemma {:induction false} FilterIndicatorsIdempotent(table: seq<Indicator>, columns: set<string>, inds: seq<Id>)
    requires forall k :: 0 <= k < |inds| ==> inds[k] < |table|
    ensures FilterIndicators(table, columns, FilterIndicators(table, columns, inds)) ==
            FilterIndicators(table, columns, inds)
  {
    FilterIndicatorsAllPresent(table, columns, FilterIndicators(table, columns, inds));
  }

  // ---- import_geography_data ----

  /** `df[df.index == g_code]` */
  function RowsOf(df: Frame, g: string): (r: seq<DataRow>)
    ensures forall x :: x in r <==> x in df.rows && x.code == g
  {
    Where(df.rows, (x: DataRow) => x.code == g)
  }

  /** `Geography.objects.get(Q(code=g_code), ~Q(type="STATE"))` */
  function TargetGeography(geos: seq<Geography>, g: string): Lookup {
    GeographyWhere(geos, CodedNonState(g))
  }

  /** `Data.objects.filter(geography__code=code, data_period=period)` */
  predicate ObservedIn(geos: seq<Geography>, code: string, period: string, d: Data) {
    d.geography < |geos| && geos[d.geography].code == code && d.period == Some(period)
  }

  /** One delete of the first loop of `import_geography_data`. */
  function DropPeriod(data: seq<Data>, geos: seq<Geography>, code: string, period: string): (r: seq<Data>)
    ensures multiset(r) <= multiset(data)
    ensures forall d :: d in r <==> d in data && !ObservedIn(geos, code, period, d)
  {
    var other := (d: Data) => !ObservedIn(geos, code, period, d);
    WhereSubMultiset(data, other);
    Where(data, other)
  }

  /** The periods the rows are about. */
  function Periods(rows: seq<DataRow>): set<string> {
    set x | x in rows :: x.timeperiod
  }

  /** The first loop of `import_geography_data`: for each row, the observations
      of geography `code` in that row's period are deleted. */
  function DeletePeriods(data: seq<Data>, geos: seq<Geography>, code: string, rows: seq<DataRow>): (r: seq<Data>)
    ensures forall d :: d in r <==>
              d in data && !(d.geography < |geos| && geos[d.geography].code == code &&
                             d.period.Some? && d.period.value in Periods(rows))
  {
    if rows == [] then data
    else
      var init := rows[..|rows| - 1];
      var last := rows[|rows| - 1];
      assert rows == init + [last];
      assert Periods(rows) == Periods(init) + {last.timeperiod};
      DropPeriod(DeletePeriods(data, geos, code, init), geos, code, last.timeperiod)
  }

  /** Deleting never duplicates an observation. */
  lemma {:induction false} DeletePeriodsSubMultiset(data: seq<Data>, geos: seq<Geography>, code: string, rows: seq<DataRow>)
    ensures multiset(DeletePeriods(data, geos, code, rows)) <= multiset(data)
  {
    if rows != [] {
      DeletePeriodsSubMultiset(data, geos, code, rows[..|rows| - 1]);
    }
  }

  /** `addDataRow(row, geography_obj, indicator)` once `generate_pk()` gave `pk`. */
  function Observation(row: DataRow, ind: Id, slug: string, geo: Id, pk: nat): Data {
    Data(pk, ValueAt(row, slug), ind, geo, Some(row.timeperiod))
  }

  /** `data_objects` for one row: the `k`-th indicator kept by
      `filter_indicators` gives the `k`-th observation, with the value of that
      indicator's column and key `counter + k + 1`. */
  function RowObservations(table: seq<Indicator>, columns: set<string>, row: DataRow,
                           inds: seq<Id>, geo: Id, counter: nat): (r: seq<Data>)
    requires forall k :: 0 <= k < |inds| ==> inds[k] < |table|
    ensures |r| == |FilterIndicators(table, columns, inds)|
  {
    var f := FilterIndicators(table, columns, inds);
    seq(|f|, k requires 0 <= k < |f| => Observation(row, f[k], table[f[k]].slug, geo, counter + k + 1))
  }

  /** One more turn of the loop over the indicators: an observation is
      appended exactly when the indicator's slug is a column. */
  lemma RowObservationsSnoc(table: seq<Indicator>, columns: set<string>, row: DataRow,
                            inds: seq<Id>, geo: Id, counter: nat, j: nat)
    requires forall k :: 0 <= k < |inds| ==> inds[k] < |table|
    requires j < |inds|
    ensures table[inds[j]].slug in columns ==>
              RowObservations(table, columns, row, inds[..j + 1], geo, counter) ==
              RowObservations(table, columns, row, inds[..j], geo, counter) +
              [Observation(row, inds[j], table[inds[j]].slug, geo,
                           counter + |RowObservations(table, columns, row, inds[..j], geo, counter)| + 1)]
    ensures table[inds[j]].slug !in columns ==>
              RowObservations(table, columns, row, inds[..j + 1], geo, counter) ==
              RowObservations(table, columns, row, inds[..j], geo, counter)
  {
    assert inds[..j + 1][..j] == inds[..j];
  }

  /** The second loop of `import_geography_data` after its first `n` turns:
      the observations of the first `n` rows, appended row after row. */
  function RowsObservations(table: seq<Indicator>, columns: set<string>, rows: seq<DataRow>, n: nat,
                            inds: seq<Id>, geo: Id, counter: nat): (r: seq<Data>)
    requires forall k :: 0 <= k < |inds| ==> inds[k] < |table|
    requires n <= |rows|
  {
    if n == 0 then []
    else
      var front := RowsObservations(table, columns, rows, n - 1, inds, geo, counter);
      front + RowObservations(table, columns, rows[n - 1], inds, geo, counter + |front|)
  }

  /** `a * m`, as repeated addition: the key arithmetic below then stays
      linear for the verifier. */
  function Times(a: nat, m: nat): (r: nat)
    ensures a == 0 || m == 0 ==> r == 0
  {
    if a == 0 then 0 else Times(a - 1, m) + m
  }

  /** Each row adds as many observations as there are kept indicators. */
  lemma {:induction false} RowsObservationsLength(table: seq<Indicator>, columns: set<string>, rows: seq<DataRow>,
                                                  n: nat, inds: seq<Id>, geo: Id, counter: nat)
    requires forall j :: 0 <= j < |inds| ==> inds[j] < |table|
    requires n <= |rows|
    ensures |RowsObservations(table, columns, rows, n, inds, geo, counter)| ==
            Times(n, |FilterIndicators(table, columns, inds)|)
  {
    if n != 0 {
      RowsObservationsLength(table, columns, rows, n - 1, inds, geo, counter);
    }
  }

  /** The new observations are about `geo` and existing indicators, and are
      keyed `counter + 1`, `counter + 2`, ... in order. */
  lemma {:induction false} RowsObservationsKeys(table: seq<Indicator>, columns: set<string>, rows: seq<DataRow>,
                                                n: nat, inds: seq<Id>, geo: Id, counter: nat)
    requires forall j :: 0 <= j < |inds| ==> inds[j] < |table|
    requires n <= |rows|
    ensures forall j :: 0 <= j < |RowsObservations(table, columns, rows, n, inds, geo, counter)| ==>
              var d := RowsObservations(table, columns, rows, n, inds, geo, counter)[j];
              d.pk == counter + j + 1 && d.geography == geo && d.indicator < |table|
  {
    if n != 0 {
      var front := RowsObservations(table, columns, rows, n - 1, inds, geo, counter);
      var block := RowObservations(table, columns, rows[n - 1], inds, geo, counter + |front|);
      RowsObservationsKeys(table, columns, rows, n - 1, inds, geo, counter);
      RowObservationsKeys(table, columns, rows[n - 1], inds, geo, counter + |front|);
      var r := front + block;
      forall j | 0 <= j < |r|
        ensures r[j].pk == counter + j + 1 && r[j].geography == geo && r[j].indicator < |table|
      {
        if j < |front| {
          assert r[j] == front[j];
        } else {
          assert r[j] == block[j - |front|];
        }
      }
    }
  }

  /** One row's observations are about `geo` and existing indicators, keyed
      `counter + 1`, `counter + 2`, ... */
  lemma RowObservationsKeys(table: seq<Indicator>, columns: set<string>, row: DataRow,
                            inds: seq<Id>, geo: Id, counter: nat)
    requires forall j :: 0 <= j < |inds| ==> inds[j] < |table|
    ensures forall j :: 0 <= j < |RowObservations(table, columns, row, inds, geo, counter)| ==>
              var d := RowObservations(table, columns, row, inds, geo, counter)[j];
              d.pk == counter + j + 1 && d.geography == geo && d.indicator < |table|
  {
  }

  /** Later rows only append: the observations of the first `a` rows begin
      those of the first `n`. */
  lemma {:induction false} RowsObservationsPrefix(table: seq<Indicator>, columns: set<string>, rows: seq<DataRow>,
                                                  inds: seq<Id>, geo: Id, counter: nat, a: nat, n: nat)
    requires forall j :: 0 <= j < |inds| ==> inds[j] < |table|
    requires a <= n <= |rows|
    ensures RowsObservations(table, columns, rows, a, inds, geo, counter) <=
            RowsObservations(table, columns, rows, n, inds, geo, counter)
  {
    if n > a {
      RowsObservationsPrefix(table, columns, rows, inds, geo, counter, a, n - 1);
      var front := RowsObservations(table, columns, rows, n - 1, inds, geo, counter);
      var block := RowObservations(table, columns, rows[n - 1], inds, geo, counter + |front|);
      assert RowsObservations(table, columns, rows, n, inds, geo, counter) == front + block;
    }
  }

  /** Row `a` and the `k`-th kept indicator give an observation keyed
      `counter + a * m + k + 1`, `m` being the number of kept indicators. */
  lemma {:induction false} RowsObservationsContain(table: seq<Indicator>, columns: set<string>, rows: seq<DataRow>,
                                                   inds: seq<Id>, geo: Id, counter: nat, a: nat, k: nat)
    requires forall j :: 0 <= j < |inds| ==> inds[j] < |table|
    requires a < |rows| && k < |FilterIndicators(table, columns, inds)|
    ensures Observation(rows[a], FilterIndicators(table, columns, inds)[k],
                        table[FilterIndicators(table, columns, inds)[k]].slug, geo,
                        counter + Times(a, |FilterIndicators(table, columns, inds)|) + k + 1)
              in RowsObservations(table, columns, rows, |rows|, inds, geo, counter)
  {
    var f := FilterIndicators(table, columns, inds);
    var front := RowsObservations(table, columns, rows, a, inds, geo, counter);
    var block := RowObservations(table, columns, rows[a], inds, geo, counter + |front|);
    var upTo := RowsObservations(table, columns, rows, a + 1, inds, geo, counter);
    assert upTo == front + block;
    RowsObservationsLength(table, columns, rows, a, inds, geo, counter);
    assert block[k] == Observation(rows[a], f[k], table[f[k]].slug, geo, counter + Times(a, |f|) + k + 1);
    assert upTo[|front| + k] == block[k];
    RowsObservationsPrefix(table, columns, rows, inds, geo, counter, a + 1, |rows|);
    assert RowsObservations(table, columns, rows, |rows|, inds, geo, counter)[|front| + k] == block[k];
  }

  /** What `import_geography_data(df, indicators, g_code)` leaves in the Data
      table and in the key counter. */
  /** The Data table and the key counter after an import. */
  datatype Imported = Imported(data: seq<Data>, counter: nat)

  function GeographyImport(t: Tables, counter: nat, df: Frame, inds: seq<Id>, g: string): Imported
    requires forall k :: 0 <= k < |inds| ==> inds[k] < |t.indicators|
  {
    var rows := RowsOf(df, g);
    var target := TargetGeography(t.geographies, g);
    if rows == [] || !target.Found? then Imported(t.data, counter)
    else
      var kept := DeletePeriods(t.data, t.geographies, t.geographies[target.id].code, rows);
      var added := RowsObservations(t.indicators, df.columns, rows, |rows|, inds, target.id, counter);
      Imported(kept + added, counter + |added|)
  }

  /** The geography a successful import writes to and the rows it reads. */
  predicate Imports(t: Tables, df: Frame, g: string) {
    RowsOf(df, g) != [] && TargetGeography(t.geographies, g).Found?
  }

  /** A successful import keeps the observations `DeletePeriods` spares and
      appends the new ones, advancing the counter by their number. */
  lemma ImportUnfolds(t: Tables, counter: nat, df: Frame, inds: seq<Id>, g: string)
    requires forall k :: 0 <= k < |inds| ==> inds[k] < |t.indicators|
    requires Imports(t, df, g)
    ensures TargetGeography(t.geographies, g).id < |t.geographies|
    ensures GeographyImport(t, counter, df, inds, g).data ==
              DeletePeriods(t.data, t.geographies, t.geographies[TargetGeography(t.geographies, g).id].code,
                            RowsOf(df, g)) +
              RowsObservations(t.indicators, df.columns, RowsOf(df, g), |RowsOf(df, g)|, inds,
                               TargetGeography(t.geographies, g).id, counter)
    ensures GeographyImport(t, counter, df, inds, g).counter ==
              counter + |RowsObservations(t.indicators, df.columns, RowsOf(df, g), |RowsOf(df, g)|, inds,
                                          TargetGeography(t.geographies, g).id, counter)|
  {
  }

  /** Without a row for `g`, or without exactly one non-STATE geography with
      code `g`, the import leaves the Data table and the counter as they are. */
  lemma ImportLeavesDataAlone(t: Tables, counter: nat, df: Frame, inds: seq<Id>, g: string)
    requires forall k :: 0 <= k < |inds| ==> inds[k] < |t.indicators|
    requires || (forall x :: x in df.rows ==> x.code != g)
             || (forall k :: 0 <= k < |t.geographies| ==>
                   t.geographies[k].code != g || t.geographies[k].kind == STATE)
             || (exists a, b :: 0 <= a < b < |t.geographies| &&
                   t.geographies[a].code == g && t.geographies[a].kind != STATE &&
                   t.geographies[b].code == g && t.geographies[b].kind != STATE)
    ensures GeographyImport(t, counter, df, inds, g) == Imported(t.data, counter)
  {
    var rows := RowsOf(df, g);
    if rows != [] {
      assert rows[0] in df.rows;
      GeographyWhereNotFound(t.geographies, CodedNonState(g));
      GeographyWhereMultiple(t.geographies, CodedNonState(g));
    }
  }

  /** An observation that was there before the import is still there exactly
      when it is not about geography code `g` in a period of `g`'s rows:
      observations of other geographies or periods are untouched, and every
      old one of `g` in such a period is gone, whatever its indicator. */
  lemma ImportReplacesPeriods(t: Tables, counter: nat, df: Frame, inds: seq<Id>, g: string, d: Data)
    requires forall k :: 0 <= k < |inds| ==> inds[k] < |t.indicators|
    requires PkBound(t.data, counter) && d in t.data
    ensures d in GeographyImport(t, counter, df, inds, g).data <==>
              !(Imports(t, df, g) &&
                d.geography < |t.geographies| && t.geographies[d.geography].code == g &&
                d.period.Some? && d.period.value in Periods(RowsOf(df, g)))
  {
    if Imports(t, df, g) {
      var rows := RowsOf(df, g);
      var geo := TargetGeography(t.geographies, g).id;
      var added := RowsObservations(t.indicators, df.columns, rows, |rows|, inds, geo, counter);
      ImportUnfolds(t, counter, df, inds, g);
      GeographyWhereFound(t.geographies, CodedNonState(g));
      RowsObservationsKeys(t.indicators, df.columns, rows, |rows|, inds, geo, counter);
      assert d !in added;
    }
  }

  /** A successful import takes one key per row of `g` and indicator whose
      slug is a column: the counter ends `|rows| * m` higher. */
  lemma ImportAdvancesCounter(t: Tables, counter: nat, df: Frame, inds: seq<Id>, g: string)
    requires forall j :: 0 <= j < |inds| ==> inds[j] < |t.indicators|
    requires Imports(t, df, g)
    ensures GeographyImport(t, counter, df, inds, g).counter ==
              counter + Times(|RowsOf(df, g)|, |FilterIndicators(t.indicators, df.columns, inds)|)
  {
    ImportUnfolds(t, counter, df, inds, g);
    RowsObservationsLength(t.indicators, df.columns, RowsOf(df, g), |RowsOf(df, g)|, inds,
                           TargetGeography(t.geographies, g).id, counter);
  }

  /** Keys stay distinct and below the counter across an import. */
  lemma ImportKeepsKeysDistinct(t: Tables, counter: nat, df: Frame, inds: seq<Id>, g: string)
    requires forall k :: 0 <= k < |inds| ==> inds[k] < |t.indicators|
    requires PkBound(t.data, counter) && DistinctPks(t.data)
    ensures var r := GeographyImport(t, counter, df, inds, g);
            PkBound(r.data, r.counter) && DistinctPks(r.data)
  {
    if Imports(t, df, g) {
      var rows := RowsOf(df, g);
      var geo := TargetGeography(t.geographies, g).id;
      var kept := DeletePeriods(t.data, t.geographies, t.geographies[geo].code, rows);
      var added := RowsObservations(t.indicators, df.columns, rows, |rows|, inds, geo, counter);
      ImportUnfolds(t, counter, df, inds, g);
      GeographyWhereFound(t.geographies, CodedNonState(g));
      RowsObservationsKeys(t.indicators, df.columns, rows, |rows|, inds, geo, counter);
      DeletePeriodsSubMultiset(t.data, t.geographies, t.geographies[geo].code, rows);
      DistinctPksOfSubMultiset(kept, t.data);
      AppendFreshKeys(kept, added, counter);
    }
  }

  /** Rows with keys up to `counter`, followed by rows keyed `counter + 1`,
      `counter + 2`, ...: all keys distinct and at most `counter + |added|`. */
  lemma AppendFreshKeys(kept: seq<Data>, added: seq<Data>, counter: nat)
    requires PkBound(kept, counter) && DistinctPks(kept)
    requires forall j :: 0 <= j < |added| ==> added[j].pk == counter + j + 1
    ensures PkBound(kept + added, counter + |added|) && DistinctPks(kept + added)
  {
    var r := kept + added;
    forall i, j | 0 <= i < j < |r| ensures r[i].pk != r[j].pk {
      if j >= |kept| && i < |kept| {
        assert r[i] in kept;
      }
    }
    forall d | d in r ensures d.pk <= counter + |added| {
      if d !in kept {
        var j :| 0 <= j < |added| && added[j] == d;
      }
    }
  }

  /** Foreign keys stay valid across an import. */
  lemma ImportKeepsRefs(t: Tables, counter: nat, df: Frame, inds: seq<Id>, g: string)
    requires forall k :: 0 <= k < |inds| ==> inds[k] < |t.indicators|
    requires RefsValid(t)
    ensures RefsValid(t.(data := GeographyImport(t, counter, df, inds, g).data))
  {
    if Imports(t, df, g) {
      var rows := RowsOf(df, g);
      var geo := TargetGeography(t.geographies, g).id;
      var kept := DeletePeriods(t.data, t.geographies, t.geographies[geo].code, rows);
      var added := RowsObservations(t.indicators, df.columns, rows, |rows|, inds, geo, counter);
      ImportUnfolds(t, counter, df, inds, g);
      GeographyWhereFound(t.geographies, CodedNonState(g));
      RowsObservationsKeys(t.indicators, df.columns, rows, |rows|, inds, geo, counter);
      forall d: Data | d in kept + added ensures d.indicator < |t.indicators| && d.geography < |t.geographies| {
        if d !in kept {
          var j :| 0 <= j < |added| && added[j] == d;
        }
      }
    }
  }

  /** The first loop of `import_geography_data`: one delete per row. */
  method DeleteRowPeriods(db: Database, code: string, rows: seq<DataRow>)
    modifies db`data
    ensures db.data == DeletePeriods(old(db.data), db.geographies, code, rows)
  {
    var geos := db.geographies;
    for r := 0 to |rows|
      invariant db.data == DeletePeriods(old(db.data), geos, code, rows[..r])
    {
      assert rows[..r + 1][..r] == rows[..r];
      db.data := DropPeriod(db.data, geos, code, rows[r].timeperiod);
    }
    assert rows[..|rows|] == rows;
  }

  /** One turn of the second loop of `import_geography_data`: `data_objects`
      for the row, each with a key from `generate_pk()`, then `bulk_create`. */
  method AddRowObservations(db: Database, pks: PkCounter, columns: set<string>, row: DataRow,
                            inds: seq<Id>, geo: Id)
    requires forall k :: 0 <= k < |inds| ==> inds[k] < |db.indicators|
    modifies db`data, pks
    ensures db.data == old(db.data) + RowObservations(db.indicators, columns, row, inds, geo, old(pks.counter))
    ensures pks.counter == old(pks.counter) + |RowObservations(db.indicators, columns, row, inds, geo, old(pks.counter))|
  {
    var table := db.indicators;
    var objects: seq<Data> := [];
    for j := 0 to |inds|
      invariant objects == RowObservations(table, columns, row, inds[..j], geo, old(pks.counter))
      invariant db.data == old(db.data)
      invariant pks.counter == old(pks.counter) + |objects|
    {
      RowObservationsSnoc(table, columns, row, inds, geo, old(pks.counter), j);
      var ind := inds[j];
      if table[ind].slug in columns {
        var pk := pks.Next();
        objects := objects + [Observation(row, ind, table[ind].slug, geo, pk)];
      }
    }
    assert inds[..|inds|] == inds;
    db.data := db.data + objects;
  }

  /** The second loop of `import_geography_data`, over the rows. */
  method AddRowsObservations(db: Database, pks: PkCounter, columns: set<string>, rows: seq<DataRow>,
                             inds: seq<Id>, geo: Id)
    requires forall k :: 0 <= k < |inds| ==> inds[k] < |db.indicators|
    modifies db`data, pks
    ensures db.data == old(db.data) + RowsObservations(db.indicators, columns, rows, |rows|, inds, geo, old(pks.counter))
    ensures pks.counter == old(pks.counter) + |RowsObservations(db.indicators, columns, rows, |rows|, inds, geo, old(pks.counter))|
  {
    var table := db.indicators;
    for r := 0 to |rows|
      invariant db.data == old(db.data) + RowsObservations(table, columns, rows, r, inds, geo, old(pks.counter))
      invariant pks.counter == old(pks.counter) + |RowsObservations(table, columns, rows, r, inds, geo, old(pks.counter))|
    {
      ghost var before := RowsObservations(table, columns, rows, r, inds, geo, old(pks.counter));
      ghost var block := RowObservations(table, columns, rows[r], inds, geo, pks.counter);
      AddRowObservations(db, pks, columns, rows[r], inds, geo);
      assert (old(db.data) + before) + block == old(db.data) + (before + block);
    }
  }

  /** `import_geography_data`: delete every observation of the geography in a
      period its rows cover, then insert one observation per row and indicator
      with keys from `generate_pk()`. */
  method ImportGeographyData(db: Database, pks: PkCounter, df: Frame, inds: seq<Id>, g: string)
    requires forall k :: 0 <= k < |inds| ==> inds[k] < |db.indicators|
    modifies db`data, pks
    ensures db.data == GeographyImport(old(db.Snapshot()), old(pks.counter), df, inds, g).data
    ensures pks.counter == GeographyImport(old(db.Snapshot()), old(pks.counter), df, inds, g).counter
  {
    ghost var t := db.Snapshot();
    var rows := RowsOf(df, g);
    if rows == [] {
      return;
    }
    var target := TargetGeography(db.geographies, g);
    if !target.Found? {
      return;
    }
    ghost var result := GeographyImport(t, pks.counter, df, inds, g);
    ImportUnfolds(t, pks.counter, df, inds, g);
    DeleteRowPeriods(db, db.geographies[target.id].code, rows);
    ghost var kept := db.data;
    AddRowsObservations(db, pks, df.columns, rows, inds, target.id);
    assert db.data == kept + RowsObservations(t.indicators, df.columns, rows, |rows|, inds, target.id, old(pks.counter));
    assert db.data == result.data;
  }

  // ---- import_state_data ----

  /** The index of the frame, row by row. */
  function Index(df: Frame): (r: seq<string>)
    ensures |r| == |df.rows| && forall k :: 0 <= k < |r| ==> r[k] == df.rows[k].code
  {
    seq(|df.rows|, k requires 0 <= k < |df.rows| => df.rows[k].code)
  }

  /** The codes `import_state_data` imports: `g_code` alone when it is given,
      otherwise every index value once, in order of first appearance. */
  function CodesToImport(df: Frame, gCode: Option<string>): (r: seq<string>)
    ensures Given(gCode) ==> r == [gCode.value]
    ensures !Given(gCode) ==> forall c :: c in r <==> exists x :: x in df.rows && x.code == c
    ensures !Given(gCode) ==> forall i, j :: 0 <= i < j < |r| ==> r[i] != r[j]
  {
    if Given(gCode) then [gCode.value]
    else
      var index := Index(df);
      assert forall x :: x in df.rows ==> x.code in index;
      Distinct(index)
  }

  /** `import_geography_data` for each code in turn. */
  function StateImport(t: Tables, counter: nat, df: Frame, inds: seq<Id>, codes: seq<string>): (r: Imported)
    requires forall k :: 0 <= k < |inds| ==> inds[k] < |t.indicators|
  {
    if codes == [] then Imported(t.data, counter)
    else
      var front := StateImport(t, counter, df, inds, codes[..|codes| - 1]);
      GeographyImport(t.(data := front.data), front.counter, df, inds, codes[|codes| - 1])
  }

  /** Keys stay distinct and below the counter, and references valid, across
      a state import. */
  lemma {:induction false} StateImportKeepsInvariants(t: Tables, counter: nat, df: Frame, inds: seq<Id>, codes: seq<string>)
    requires forall k :: 0 <= k < |inds| ==> inds[k] < |t.indicators|
    requires PkBound(t.data, counter) && DistinctPks(t.data) && RefsValid(t)
    ensures var r := StateImport(t, counter, df, inds, codes);
            PkBound(r.data, r.counter) && DistinctPks(r.data) && RefsValid(t.(data := r.data))
  {
    if codes != [] {
      var front := StateImport(t, counter, df, inds, codes[..|codes| - 1]);
      StateImportKeepsInvariants(t, counter, df, inds, codes[..|codes| - 1]);
      ImportKeepsKeysDistinct(t.(data := front.data), front.counter, df, inds, codes[|codes| - 1]);
      ImportKeepsRefs(t.(data := front.data), front.counter, df, inds, codes[|codes| - 1]);
    }
  }

  /** `import_state_data(df, indicators, g_code)` */
  method ImportStateData(db: Database, pks: PkCounter, df: Frame, inds: seq<Id>, gCode: Option<string>)
    requires forall k :: 0 <= k < |inds| ==> inds[k] < |db.indicators|
    modifies db`data, pks
    ensures Imported(db.data, pks.counter) == StateImport(old(db.Snapshot()), old(pks.counter), df, inds, CodesToImport(df, gCode))
  {
    if Given(gCode) {
      ImportGeographyData(db, pks, df, inds, gCode.value);
      assert [gCode.value][..0] == [];
    } else {
      var codes := Distinct(Index(df));
      for k := 0 to |codes|
        invariant Imported(db.data, pks.counter) == StateImport(old(db.Snapshot()), old(pks.counter), df, inds, codes[..k])
      {
        assert codes[..k + 1][..k] == codes[..k];
        ImportGeographyData(db, pks, df, inds, codes[k]);
      }
      assert codes[..|codes|] == codes;
    }
  }
}
