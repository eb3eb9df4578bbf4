/** `Command.handle` of the `import_data` management command: the GeoJSON
    files, then the data dictionary, then the observation CSVs of one state
    (`--state`, optionally one `--district`) or of every state. */
module Command {
  import opened Query
  import opened Text
  import opened Models
  import opened Inputs
  import opened ImportData
  import opened DictionaryImport
  import opened GeojsonImport

  /** `Indicators.objects.filter(is_visible=True)`: the ids of the visible
      indicators among the first `n`, in table order. */
  function VisibleIds(table: seq<Indicator>, n: nat): (r: seq<Id>)
    requires n <= |table|
    ensures forall k :: 0 <= k < |r| ==> r[k] < n && table[r[k]].visible
    ensures forall i, j :: 0 <= i < j < |r| ==> r[i] < r[j]
  {
    if n == 0 then []
    else
      var front := VisibleIds(table, n - 1);
      if table[n - 1].visible then front + [n - 1] else front
  }

  /** Every visible indicator is among them. */
  lemma {:induction false} VisibleIdsComplete(table: seq<Indicator>, n: nat)
    requires n <= |table|
    ensures forall i :: 0 <= i < n && table[i].visible ==> i in VisibleIds(table, n)
  {
    if n > 0 {
      VisibleIdsComplete(table, n - 1);
    }
  }

  /** `options["state"].lower() in filename.lower()` */
  predicate ForState(f: DataFile, state: string) {
    Contains(Lower(f.path), Lower(state))
  }

  /** `state_files[0]`: the first data file whose path names the state,
      matched without regard to case; CommandError when there is none. */
  function StateFile(files: seq<DataFile>, state: string): (r: Outcome<DataFile>)
    ensures r.Err? <==> forall k :: 0 <= k < |files| ==> !ForState(files[k], state)
    ensures r.Err? ==> r.error == "Data file for state " + state + " missing."
    ensures r.Ok? ==> ForState(r.value, state)
    ensures r.Ok? ==>
              exists k :: 0 <= k < |files| && files[k] == r.value && forall j :: 0 <= j < k ==> !ForState(files[j], state)
  {
    if files == [] then Err("Data file for state " + state + " missing.")
    else if ForState(files[0], state) then
      Ok(files[0])
    else
      var r := StateFile(files[1..], state);
      assert forall k :: 1 <= k < |files| ==> files[k] == files[1..][k - 1];
      r
  }

  /** The `else` branch: every data file in turn, each with the visible
      indicators it has columns for and all its geography codes. */
  function DataFilesImport(t: Tables, counter: nat, files: seq<DataFile>, inds: seq<Id>): Imported
    requires forall k :: 0 <= k < |inds| ==> inds[k] < |t.indicators|
  {
    if files == [] then Imported(t.data, counter)
    else
      var front := DataFilesImport(t, counter, files[..|files| - 1], inds);
      var df := files[|files| - 1].frame;
      StateImport(t.(data := front.data), front.counter, df, FilterIndicators(t.indicators, df.columns, inds),
                  CodesToImport(df, None))
  }

  /** Keys stay distinct and below the counter, and references valid, across
      the import of every file. */
  lemma {:induction false} DataFilesKeepInvariants(t: Tables, counter: nat, files: seq<DataFile>, inds: seq<Id>)
    requires forall k :: 0 <= k < |inds| ==> inds[k] < |t.indicators|
    requires PkBound(t.data, counter) && DistinctPks(t.data) && RefsValid(t)
    ensures var r := DataFilesImport(t, counter, files, inds);
            PkBound(r.data, r.counter) && DistinctPks(r.data) && RefsValid(t.(data := r.data))
  {
    if files != [] {
      var front := DataFilesImport(t, counter, files[..|files| - 1], inds);
      DataFilesKeepInvariants(t, counter, files[..|files| - 1], inds);
      var df := files[|files| - 1].frame;
      StateImportKeepsInvariants(t.(data := front.data), front.counter, df,
                                 FilterIndicators(t.indicators, df.columns, inds), CodesToImport(df, None));
    }
  }

  /** The command line: `--state` and `--district`. */
  datatype Options = Options(state: Option<string>, district: Option<string>)

  /** The tables and the key counter after the command, and the exception
      that ended it. */
  datatype CommandResult = CommandResult(tables: Tables, counter: nat, error: Option<string>)

  /** The observation import once the dictionary is in the table: with a
      `--state` that no data file names it raises CommandError before any
      Data row is touched; otherwise it does not raise. */
  function DataImport(t: Tables, counter: nat, dataFiles: seq<DataFile>, options: Options): (r: Outcome<Imported>)
    ensures r.Err? <==> Given(options.state) && forall k :: 0 <= k < |dataFiles| ==> !ForState(dataFiles[k], options.state.value)
    ensures r.Err? ==> r.error == "Data file for state " + options.state.value + " missing."
  {
    var inds := VisibleIds(t.indicators, |t.indicators|);
    if Given(options.state) then
      match StateFile(dataFiles, options.state.value)
      case Err(e) => Err(e)
      case Ok(f) =>
        Ok(StateImport(t, counter, f.frame, FilterIndicators(t.indicators, f.frame.columns, inds),
                       CodesToImport(f.frame, options.district)))
    else Ok(DataFilesImport(t, counter, dataFiles, inds))
  }

  /** `handle()`: `migrate_geojson()`, `migrate_indicators()`, then the data;
      an exception in any step ends the command with what is saved so far. */
  function CommandRun(t: Tables, counter: nat, geoFiles: seq<GeoFile>, rows: seq<DictRow>,
                      dataFiles: seq<DataFile>, options: Options, slugify: string -> string): CommandResult
  {
    var g := MigrateGeojsonRun(t.geographies, geoFiles);
    var t1 := t.(geographies := g.geos);
    if g.error.Some? then CommandResult(t1, counter, g.error)
    else
      var m := MigrateRows(t.units, t.indicators, rows, |rows|, slugify);
      var t2 := t1.(units := m.units, indicators := m.indicators);
      if m.error.Some? then CommandResult(t2, counter, m.error)
      else
        match DataImport(t2, counter, dataFiles, options)
        case Err(e) => CommandResult(t2, counter, Some(e))
        case Ok(im) => CommandResult(t2.(data := im.data), im.counter, None)
  }

  /** The observation import keeps the keys of Data distinct and at most
      the counter, and every observation pointing at existing rows. */
  lemma DataImportKeepsInvariants(t: Tables, counter: nat, dataFiles: seq<DataFile>, options: Options)
    requires WellFormed(t) && DistinctPks(t.data) && PkBound(t.data, counter)
    ensures DataImport(t, counter, dataFiles, options).Ok? ==>
              var im := DataImport(t, counter, dataFiles, options).value;
              WellFormed(t.(data := im.data)) && DistinctPks(im.data) && PkBound(im.data, im.counter)
  {
    var inds := VisibleIds(t.indicators, |t.indicators|);
    if Given(options.state) {
      var f := StateFile(dataFiles, options.state.value);
      if f.Ok? {
        var df := f.value.frame;
        StateImportKeepsInvariants(t, counter, df, FilterIndicators(t.indicators, df.columns, inds),
                                   CodesToImport(df, options.district));
      }
    } else {
      DataFilesKeepInvariants(t, counter, dataFiles, inds);
    }
  }

  /** Whatever the files hold and however the command ends, the database
      stays well formed, and the keys of Data stay distinct and at most the
      counter, so that the next `generate_pk()` is free. */
  lemma CommandKeepsInvariants(t: Tables, counter: nat, geoFiles: seq<GeoFile>, rows: seq<DictRow>,
                               dataFiles: seq<DataFile>, options: Options, slugify: string -> string)
    requires WellFormed(t) && DistinctPks(t.data) && PkBound(t.data, counter)
    ensures var r := CommandRun(t, counter, geoFiles, rows, dataFiles, options, slugify);
            WellFormed(r.tables) && DistinctPks(r.tables.data) && PkBound(r.tables.data, r.counter)
  {
    var g := MigrateGeojsonRun(t.geographies, geoFiles);
    MigrateGeojsonKeepsWellFormed(t, geoFiles);
    var t1 := t.(geographies := g.geos);
    if g.error.None? {
      var m := MigrateRows(t.units, t.indicators, rows, |rows|, slugify);
      MigrateRowsKeepsWellFormed(t1, rows, |rows|, slugify);
      var t2 := t1.(units := m.units, indicators := m.indicators);
      if m.error.None? {
        DataImportKeepsInvariants(t2, counter, dataFiles, options);
      }
    }
  }

  /** The `for filename in files` loop of the `else` branch. */
  method ImportDataFiles(db: Database, pks: PkCounter, files: seq<DataFile>, inds: seq<Id>)
    requires forall k :: 0 <= k < |inds| ==> inds[k] < |db.indicators|
    modifies db`data, pks
    ensures Imported(db.data, pks.counter) == DataFilesImport(old(db.Snapshot()), old(pks.counter), files, inds)
  {
    for k := 0 to |files|
      invariant Imported(db.data, pks.counter) ==
                DataFilesImport(old(db.Snapshot()), old(pks.counter), files[..k], inds)
    {
      assert files[..k + 1][..k] == files[..k];
      var df := files[k].frame;
      ImportStateData(db, pks, df, FilterIndicators(db.indicators, df.columns, inds), None);
    }
    assert files[..|files|] == files;
  }

  /** `Command.handle(state=..., district=...)`. */
  method Handle(db: Database, pks: PkCounter, geoFiles: seq<GeoFile>, rows: seq<DictRow>,
                dataFiles: seq<DataFile>, options: Options, slugify: string -> string) returns (error: Option<string>)
    modifies db`geographies, db`units, db`indicators, db`data, pks
    ensures CommandResult(db.Snapshot(), pks.counter, error) ==
            CommandRun(old(db.Snapshot()), old(pks.counter), geoFiles, rows, dataFiles, options, slugify)
  {
    error := MigrateGeojson(db, geoFiles);
    if error.Some? {
      return;
    }
    error := MigrateIndicators(db, rows, slugify);
    if error.Some? {
      return;
    }
    var inds := VisibleIds(db.indicators, |db.indicators|);
    if Given(options.state) {
      var file := StateFile(dataFiles, options.state.value);
      if file.Err? {
        return Some(file.error);
      }
      var df := file.value.frame;
      ImportStateData(db, pks, df, FilterIndicators(db.indicators, df.columns, inds), options.district);
    } else {
      ImportDataFiles(db, pks, dataFiles, inds);
    }
  }
}
