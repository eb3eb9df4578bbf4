# IDS-DRR `layer` app: ingestion and report core

This project models the core of the `layer` Django app of IDS-DRR, the flood-risk
data platform. The model covers five parts:

- **Tables.** The records of `layer/models.py` (`Unit`, `Geography`, `Indicators`,
  `Data`) are held in an arena. Each table is a sequence, and a row's id is its
  position. The database itself is a class `Models.Database` whose fields are those
  sequences.
- **`save()` overrides.** The slug rules of `Page`, `Department`, `Scheme` and
  `Indicators` are modelled as classes with `Save` methods, or as functions on the
  records.
- **The report view.** In `layer/views.py`, the top-five selection `filter_data` is
  modelled as a filter, order and slice pipeline of functions. `generate_report`
  is modelled as methods that build the table and the element list with loops.
- **The `import_data` command.** `layer/management/commands/import_data.py` covers:
  - `migrate_geojson`: file ordering, the rule for each file name, and the upsert
    of a geography keyed by code and parent;
  - `migrate_indicators`: create-if-absent for indicators and units;
  - the global key counter `generate_pk`;
  - `import_geography_data` and `import_state_data`: delete the periods of one
    geography, then insert one observation per indicator column;
  - `filter_indicators`;
  - `Command.handle`.
- **The legacy loaders.** `layer/utils.py` has its own `migrate_indicators`, which
  catches the exception of each row. It also has a one-file `migrate_geojson` that
  only inserts, and the `migrate_data` loop.

Every operation that changes the database has two forms:

- a specification function over values, usually a fold (`Query.Run`) over the input
  rows that stops at the first uncaught exception;
- a method on `Database` that runs the source's loop. Its `ensures` ties the new
  state to that function.

The properties are lemmas about the specification functions. They include:

- well-formedness of every table, and of every foreign key;
- distinct keys, all at most the counter;
- which rows are replaced and which are kept;
- idempotence, and what a second run does;
- the top-five ordering.

External pieces are parameters:

- Django's `slugify` is the parameter `slugify: string -> string`.
- The files (geojson features, the data-dictionary rows, the CSV frames) are
  sequences of records.
- Where the database places NULL in `order_by("-value")` is the flag `nullsFirst`.
- The results of fetching the charts and of building the PDF are given inputs.

Modules:

- `Query`: option, lookup result, filter, distinct, the stopping fold, stable sort.
- `Text`: lower-case, strip, capitalize, basename, string order (ASCII).
- `Models`: the records, uniqueness, `.get` lookups, the `Database` class, the
  `save()` overrides.
- `Inputs`: cells, dictionary rows, data rows, frames, features, files.
- `ImportData`: keys, `filter_indicators`, and the import of one geography and of
  one state.
- `DictionaryImport`: `migrate_indicators` of the command.
- `GeojsonImport`: `migrate_geojson` of the command.
- `Command`: `Command.handle`.
- `Views`: `filter_data` and `generate_report`.
- `Utils`: the three legacy loaders of `layer/utils.py`.

Where the code and the system's description differ, the model follows the code:

- **Slugs are not unique.** `Indicators.slug` is described as a unique key, but
  `layer/models.py` does not declare it unique. So a lookup by slug can find two
  rows, and the command then stops with `MultipleObjectsReturned`.
- **Re-running the dictionary is not always idempotent.** The command looks a slug
  up lower-cased but stores it lower-cased and stripped. On a second run, the slug
  lookup for a slug with surrounding blanks therefore misses, and the row goes
  through the unit and parent lookups again. It is added again unless the parent
  lookup now finds two indicators of that name (for example, when the row names
  its own title as parent), and then `handle()` ends with
  `MultipleObjectsReturned`. `DictionaryImport.RowEffectRerun` and
  `DictionaryImport.RowEffectRerunPadded` state both sides.
- **Fields missing from `layer/models.py`.** `Indicators.is_visible` and
  `Geography.geom` are used by every caller but are not in the `models.py` shown.
  They are modelled as present.

## Model

| member | source | states |
|---|---|---|
| Models.SaveGeography | layer/models.py:36-37 | saving a geography fails (IntegrityError) exactly when another row already has its code or its name |
| Models.SaveGeographyKeepsUnique | layer/models.py:36-39 | a save that succeeds keeps geography codes and names unique |
| Models.GeographyWhere | layer/management/commands/import_data.py:183-184 | `Geography.objects.get(...)` answers with an existing row id when it finds exactly one |
| Models.GeographyWhereNotFound | layer/management/commands/import_data.py:228-230 | the lookup raises DoesNotExist exactly when no row matches |
| Models.GeographyWhereFound | layer/management/commands/import_data.py:183-188 | a found row matches the query and no other row does |
| Models.GeographyWhereMultiple | layer/management/commands/import_data.py:149-151 | the lookup raises MultipleObjectsReturned exactly when two rows match |
| Models.UnitNamed | layer/management/commands/import_data.py:68 | `Unit.objects.get(name=...)` finds a unit with that name, or there is none |
| Models.UnitFor | layer/management/commands/import_data.py:67-73 | the chosen unit has the name, and the table is unchanged or grows by exactly that new unit |
| Models.UnitForCreates | layer/models.py:19 | unit names stay unique, and a unit is created exactly when no unit has the name |
| Models.IndicatorWith | layer/management/commands/import_data.py:19 | `Indicators.objects.get(slug=...)` or `get(name=...)` answers with an existing row |
| Models.IndicatorWithNotFound | layer/management/commands/import_data.py:19-21 | DoesNotExist exactly when no indicator has the key |
| Models.IndicatorWithFound | layer/management/commands/import_data.py:19-20 | the found indicator has the key and no other one has it |
| Models.IndicatorWithMultiple | layer/management/commands/import_data.py:55 | MultipleObjectsReturned exactly when two indicators have the key |
| Models.FilledSlug | layer/models.py:91-94 | a non-empty slug is kept; an empty or missing one becomes `slugify(name)` |
| Models.FilledSlugStable | layer/models.py:91-94 | saving again after a save leaves the slug as it is |
| Models.ShownId | layer/models.py:48 | `str(self.id)`: "None" before the first insert, then decimal digits that read back as the id |
| Text.DecimalText | layer/models.py:48 | `str(n)`: decimal digits with no leading zero that read back as `n` |
| Text.DecimalTextInjective | layer/models.py:48 | different ids give different texts |
| Models.PageSlugChangesAfterFirstSave | layer/models.py:47-49 | the first save of a page hands `slugify` its name with id "None", the next save the name with the id's digits: the two texts differ |
| Models.Page.Save | layer/models.py:47-49 | the slug is always overwritten from the name and the current id, whatever it was; the id is assigned on the first save |
| Models.Department.Save | layer/models.py:58-61 | the slug is filled from the name only when it is empty |
| Models.Scheme.Save | layer/models.py:70-73 | the slug is filled from the name only when it is empty |
| Models.SavedIndicator | layer/models.py:91-94 | a saved indicator keeps its fields and gets the fill-if-empty slug |
| Text.Lower | layer/management/commands/import_data.py:19 | `.lower()`: same length, each capital becomes its small letter, every other character is kept |
| Text.LowerIdempotent | layer/management/commands/import_data.py:29 | lower-casing twice is lower-casing once |
| Text.Capitalize | layer/management/commands/import_data.py:185 | `.capitalize()` upper-cases the first letter and lower-cases the rest |
| Text.LowerCapitalize | layer/management/commands/import_data.py:134-139 | a capitalized name still matches its original case-insensitively (`name__iexact`) |
| Text.StripTrims | layer/management/commands/import_data.py:27 | `.strip()` is a slice of the text with no blank at either end |
| Text.Basename | layer/management/commands/import_data.py:104-105 | `os.path.basename` is the suffix after the last `/` |
| Text.StrLeTotal | layer/management/commands/import_data.py:102-106 | the string order used as sort key is total |
| Text.StrLeTransitive | layer/management/commands/import_data.py:102-106 | the string order used as sort key is transitive |
| Query.Distinct | layer/management/commands/import_data.py:253 | `df.index.unique()`: each code once, in order of first appearance |
| ImportData.LastPk | layer/management/commands/import_data.py:199-202 | the counter starts at the largest existing Data key, or 0 when there is none |
| ImportData.PkCounter.Next | layer/management/commands/import_data.py:205-208 | `generate_pk()` returns the previous key plus one and remembers it |
| ImportData.FilterIndicators | layer/management/commands/import_data.py:255-259 | every kept indicator has a column of its slug |
| ImportData.FilterIndicatorsMembers | layer/management/commands/import_data.py:256 | an indicator is kept exactly when its slug is a column |
| ImportData.FilterIndicatorsKeepsOrder | layer/management/commands/import_data.py:256 | the kept indicators are in their original order |
| ImportData.FilterIndicatorsAllPresent | layer/management/commands/import_data.py:256 | when every slug is a column, nothing is dropped |
| ImportData.FilterIndicatorsIdempotent | layer/management/commands/import_data.py:256 | filtering twice is filtering once |
| ImportData.RowsOf | layer/management/commands/import_data.py:223 | `df[df.index == g_code]`: exactly the rows with that code |
| ImportData.DropPeriod | layer/management/commands/import_data.py:234-235 | the delete removes exactly the observations of the code in the period and duplicates nothing |
| ImportData.DeletePeriods | layer/management/commands/import_data.py:233-235 | after the delete loop, exactly the observations of that geography code in a period of its rows are gone, whatever their indicator |
| ImportData.DeletePeriodsSubMultiset | layer/management/commands/import_data.py:233-235 | deleting never adds or duplicates an observation |
| ImportData.RowObservations | layer/management/commands/import_data.py:237-243 | a row yields one observation per indicator whose slug is a column |
| ImportData.RowObservationsSnoc | layer/management/commands/import_data.py:238-242 | one more indicator appends an observation exactly when its slug is a column; the value comes from that column and the key is the next one |
| ImportData.RowObservationsKeys | layer/management/commands/import_data.py:211-219 | the observations of a row carry consecutive keys above the counter, the geography, and a filtered indicator |
| ImportData.RowsObservationsLength | layer/management/commands/import_data.py:236-243 | the rows yield rows × kept indicators observations |
| ImportData.RowsObservationsKeys | layer/management/commands/import_data.py:205-219 | the keys handed out across the rows are consecutive, starting above the counter |
| ImportData.RowsObservationsContain | layer/management/commands/import_data.py:236-243 | every (row, kept indicator) pair yields its observation, with its value, period and key |
| ImportData.ImportUnfolds | layer/management/commands/import_data.py:222-243 | importing a geography whose rows exist deletes its periods, then appends its rows' observations, and advances the counter by their number |
| ImportData.ImportLeavesDataAlone | layer/management/commands/import_data.py:223-230 | with no row for the code, or no single non-STATE geography with it, Data and the counter are unchanged |
| ImportData.ImportReplacesPeriods | layer/management/commands/import_data.py:233-235 | an existing observation survives exactly when it is not of that geography in a period of its rows |
| ImportData.ImportAdvancesCounter | layer/management/commands/import_data.py:236-243 | the counter advances by the number of rows times the number of kept indicators |
| ImportData.ImportKeepsKeysDistinct | layer/management/commands/import_data.py:205-243 | keys stay distinct and at most the counter |
| ImportData.AppendFreshKeys | layer/management/commands/import_data.py:205-208 | appending observations whose keys come from the counter keeps keys distinct and bounded |
| ImportData.ImportKeepsRefs | layer/management/commands/import_data.py:228-243 | every observation still points at an existing indicator and geography |
| ImportData.DeleteRowPeriods | layer/management/commands/import_data.py:233-235 | the delete loop leaves Data as `DeletePeriods` describes |
| ImportData.AddRowObservations | layer/management/commands/import_data.py:237-243 | the indicator loop appends the row's observations and advances the counter by their number |
| ImportData.AddRowsObservations | layer/management/commands/import_data.py:236-243 | the row loop appends every row's observations in order |
| ImportData.ImportGeographyData | layer/management/commands/import_data.py:222-245 | `import_geography_data` leaves Data and the counter as the specification function says |
| ImportData.Index | layer/management/commands/import_data.py:287-288 | the frame's index is the code of each row, in row order |
| ImportData.CodesToImport | layer/management/commands/import_data.py:248-253 | only `g_code` when given, otherwise each distinct index code exactly once |
| ImportData.StateImportKeepsInvariants | layer/management/commands/import_data.py:248-253 | importing a state keeps keys distinct and bounded, and references valid |
| ImportData.ImportStateData | layer/management/commands/import_data.py:248-253 | `import_state_data` imports the codes in that order |
| DictionaryImport.RowUnit | layer/management/commands/import_data.py:65-76 | a unit exactly when the cell has text; it is the unit with the lower-cased name, created when absent |
| DictionaryImport.RowParent | layer/management/commands/import_data.py:51-62 | a parent that is found is an existing indicator |
| DictionaryImport.RowParentMeaning | layer/management/commands/import_data.py:51-62 | MultipleObjectsReturned exactly when two indicators have the stripped name; an unknown name gives no parent, not a failure |
| DictionaryImport.DraftFor | layer/management/commands/import_data.py:26-45 | the new indicator has the stripped title, the lower-cased and stripped slug, the unit and the parent; it is visible exactly when `visible == "y"`; a NaN text cell raises |
| DictionaryImport.IndicatorRowEffect | layer/management/commands/import_data.py:18-47 | a row adds at most one indicator and one unit, appended at the end |
| DictionaryImport.RowEffectExisting | layer/management/commands/import_data.py:18-20 | a row whose lower-cased slug names exactly one indicator changes nothing |
| DictionaryImport.RowEffectAdded | layer/management/commands/import_data.py:21-46 | an added indicator had a free slug; its name, slug, visibility, unit and parent are as the row says |
| DictionaryImport.RowEffectKeepsWellFormed | layer/management/commands/import_data.py:21-46 | a row keeps the tables well formed |
| DictionaryImport.GrowKeepsWellFormed | layer/management/commands/import_data.py:41-46 | more units, and a new indicator whose unit and parent exist, keep the tables well formed |
| DictionaryImport.RowEffectRerun | layer/management/commands/import_data.py:19-29 | an added row with a normalised slug is found and changes nothing when run again |
| DictionaryImport.RowEffectRerunPadded | layer/management/commands/import_data.py:19-29 | an added row whose slug has surrounding blanks is not found by the slug lookup when read again, so it is not AlreadyExists and the row goes on to the unit and parent lookups (which may still raise) |
| DictionaryImport.MigrateRowsStops | layer/management/commands/import_data.py:16-48 | after the first exception no further row is read |
| DictionaryImport.MigrateRowsKeepsWellFormed | layer/management/commands/import_data.py:13-48 | a run keeps the tables well formed, whether it ends early or not |
| DictionaryImport.RowEffectCovers | layer/management/commands/import_data.py:18-46 | a row that does not raise keeps the indicators and leaves its normalised slug in the table |
| DictionaryImport.MigrateRowsCovers | layer/management/commands/import_data.py:13-48 | after a run without exception, every row's normalised slug names an indicator |
| DictionaryImport.IndicatorUnit | layer/management/commands/import_data.py:65-76 | `_get_indicator_unit_form_row` picks or creates the unit `RowUnit` describes |
| DictionaryImport.MigrateIndicatorRow | layer/management/commands/import_data.py:17-47 | one loop pass changes units and indicators as the row's effect says |
| DictionaryImport.MigrateNextRow | layer/management/commands/import_data.py:16-48 | row `i` advances the run by one row |
| DictionaryImport.MigrateIndicators | layer/management/commands/import_data.py:13-48 | the rows in order, the first exception ending the run and being reported |
| GeojsonImport.FileBeforeTotal | layer/management/commands/import_data.py:102-106 | the file sort key orders every pair of files |
| GeojsonImport.FileBeforeTransitive | layer/management/commands/import_data.py:102-106 | the file sort key is transitive |
| GeojsonImport.OrderGeoFiles | layer/management/commands/import_data.py:101-106 | the sorted files are a permutation of the files, ordered by the key, with every `_district` file before every other one |
| GeojsonImport.ReadProps | layer/management/commands/import_data.py:130-131 | reading the properties gives their values, or KeyError exactly when one is missing |
| GeojsonImport.StateFor | layer/management/commands/import_data.py:133-141 | the STATE parent is an existing row |
| GeojsonImport.StateForMeaning | layer/management/commands/import_data.py:133-141 | the one STATE matching the name case-insensitively is taken; with none, one is created with the capitalized name and the code, and IntegrityError is raised exactly when that code or name is taken; two matches raise MultipleObjectsReturned |
| GeojsonImport.StateCreatedOnce | layer/management/commands/import_data.py:133-141 | a STATE is created at most once: looked up again, by any code, the same row is found |
| GeojsonImport.ParentWhere | layer/management/commands/import_data.py:149-151 | a parent that must exist is an existing row |
| GeojsonImport.RuleFor | layer/management/commands/import_data.py:128-181 | each known file name reads three properties |
| GeojsonImport.ParentFor | layer/management/commands/import_data.py:133-181 | the parent of a rule is an existing row |
| GeojsonImport.StateForGrows | layer/management/commands/import_data.py:137-141 | creating a STATE only appends a row without a parent, and keeps codes and names unique |
| GeojsonImport.FeatureTargetGrows | layer/management/commands/import_data.py:128-181 | picking the target only appends STATE rows, keeps uniqueness and names an existing parent |
| GeojsonImport.UpsertMeaning | layer/management/commands/import_data.py:182-196 | the row with the code and parent is updated in place, otherwise a row is appended; either fails exactly when the code or name clashes |
| GeojsonImport.UpsertKeepsForest | layer/management/commands/import_data.py:182-196 | an upsert under an existing parent keeps parents before children and every row's id, code and parent |
| GeojsonImport.UpsertStores | layer/management/commands/import_data.py:182-196 | after the upsert some row holds exactly the feature as saved, and uniqueness holds |
| GeojsonImport.UpsertIdempotent | layer/management/commands/import_data.py:182-196 | upserting the same feature twice changes nothing the second time |
| GeojsonImport.FeaturesRunStops | layer/management/commands/import_data.py:115-196 | after the first exception no further feature is read |
| GeojsonImport.FeatureStepSound | layer/management/commands/import_data.py:115-196 | one feature keeps the table a forest and extends it |
| GeojsonImport.FileRunSound | layer/management/commands/import_data.py:109-196 | one file keeps the table a forest and extends it |
| GeojsonImport.FilesRunSound | layer/management/commands/import_data.py:108-196 | the files keep the table a forest and every existing row's id, code and parent |
| GeojsonImport.MigrateGeojsonKeepsWellFormed | layer/management/commands/import_data.py:100-196 | `migrate_geojson` keeps the database well formed |
| GeojsonImport.PickParent | layer/management/commands/import_data.py:133-181 | the parent lookup, and the STATE it may save, are as `ParentFor` says |
| GeojsonImport.SaveFeature | layer/management/commands/import_data.py:182-196 | the `try`/`except DoesNotExist` and `save()` change the table as `Upsert` says, or leave it alone on error |
| GeojsonImport.PickTarget | layer/management/commands/import_data.py:128-181 | the branch on the file name is as `FeatureTarget` says |
| GeojsonImport.ImportFeature | layer/management/commands/import_data.py:116-196 | one feature is one step of the run, carrying the locals the next feature sees |
| GeojsonImport.ImportNextFeature | layer/management/commands/import_data.py:115-196 | feature `i` advances the run by one feature |
| GeojsonImport.ImportFile | layer/management/commands/import_data.py:109-196 | the features of one file, in order, up to the first exception |
| GeojsonImport.ImportNextFile | layer/management/commands/import_data.py:108-196 | file `i` advances the run by one file |
| GeojsonImport.MigrateGeojson | layer/management/commands/import_data.py:100-196 | `migrate_geojson()` leaves the geographies and the error the specification function says |
| Command.VisibleIds | layer/management/commands/import_data.py:277-278 | only visible indicators, each once, every one of them, taken in key order (the queryset itself is unordered) |
| Command.VisibleIdsComplete | layer/management/commands/import_data.py:277-278 | every visible indicator is among them |
| Command.StateFile | layer/management/commands/import_data.py:281-286 | the first data file whose path names the state case-insensitively; CommandError exactly when there is none |
| Command.DataFilesKeepInvariants | layer/management/commands/import_data.py:293-297 | importing every file keeps keys distinct and bounded, and references valid |
| Command.DataImport | layer/management/commands/import_data.py:277-297 | the data step fails exactly when a state is given and no file names it, with the CommandError message |
| Command.DataImportKeepsInvariants | layer/management/commands/import_data.py:277-297 | the data step keeps the database well formed and keys distinct and bounded |
| Command.CommandKeepsInvariants | layer/management/commands/import_data.py:272-297 | however `handle` ends, the database is well formed and the next `generate_pk()` is a free key |
| Command.ImportDataFiles | layer/management/commands/import_data.py:293-297 | the loop over the data files imports them in order |
| Command.Handle | layer/management/commands/import_data.py:272-297 | `handle()` runs geojson, dictionary and data in order and stops at the first exception |
| Views.Candidates | layer/views.py:35-49 | an observation is a candidate exactly when its indicator is visible, its period is the one asked, and it passes the indicator filter (slug or parent slug; with no filter, no grandparent) and the geography filter (code or parent code) |
| Views.GrandchildrenNotCandidates | layer/views.py:39-42 | with an indicator filter, an indicator whose grandparent has the filtered slug, and which matches neither by its own slug nor by its parent's, is never a candidate |
| Views.OrderByValue | layer/views.py:51 | `order_by("-value")` is a permutation, non-increasing by value |
| Views.FilterData | layer/views.py:33-53 | the result has min(5, candidates) observations, is non-increasing by value and is drawn from the candidates |
| Views.FilterDataOnlyCandidates | layer/views.py:35 | every result is in the table, visible, and of the period asked |
| Views.FilterDataKeepsLargest | layer/views.py:51 | a candidate is left out only when five are returned, and none left out is greater than the smallest returned |
| Views.FilterDataDistinct | layer/views.py:51 | the result has no observation twice |
| Views.DistrictTable | layer/views.py:90-92 | the header row, then one row of geography name and value per selected observation, in order |
| Views.ReportElements | layer/views.py:78-133 | title, spacer, table, spacer, then each chart (or its error paragraph) followed by a spacer |
| Views.GenerateReport | layer/views.py:73-155 | a non-GET is 405; a failed build is 500 with its message; otherwise the PDF whose table is the top-five selection |
| Utils.LegacyRowEffect | layer/utils.py:15-66 | a row adds at most one indicator and one unit; a found or skipped row changes nothing |
| Utils.LegacyRowSkips | layer/utils.py:17-32 | a row whose lower-cased slug exists changes nothing; a row is skipped exactly when its slug is free and it has no unit |
| Utils.LegacyRowCreates | layer/utils.py:20-62 | a created indicator has a free slug and a unit named by the lower-cased cell; its parent is the one with the stripped name, or none when no indicator has it |
| Utils.LegacyRowKeepsWellFormed | layer/utils.py:20-62 | a row keeps the tables well formed, whatever it raises |
| Utils.LegacyRowsKeepWellFormed | layer/utils.py:14-66 | a run keeps the tables well formed |
| Utils.LegacyRowCovers | layer/utils.py:15-66 | a row keeps the indicators there are, and a clean row leaves its slug in the table |
| Utils.LegacyRowsCover | layer/utils.py:14-66 | an exception does not end the run: every clean row's slug names an indicator afterwards |
| Utils.LegacyIndicatorRow | layer/utils.py:15-66 | one loop pass, its exception caught, changes the tables as `LegacyRowEffect` says |
| Utils.LegacyNextRow | layer/utils.py:14-66 | row `i` advances the run by one row |
| Utils.LegacyMigrateIndicators | layer/utils.py:9-66 | every row in turn, each in its own `try` |
| Utils.LegacyFeatureSave | layer/utils.py:87-112 | a district feature is appended without parent; a revenue circle is appended under an existing district; other file names save nothing |
| Utils.LegacyParentLink | layer/utils.py:102-104 | the revenue circle's parent is the DISTRICT named by `district_1`; DoesNotExist exactly when there is none |
| Utils.LegacyGeojsonAppends | layer/utils.py:74-112 | rows are only appended |
| Utils.LegacyFeatureKeepsForest | layer/utils.py:87-112 | a saved feature keeps uniqueness and parents before children |
| Utils.LegacyGeojsonKeepsForest | layer/utils.py:74-112 | the file keeps uniqueness and parents before children |
| Utils.LegacyGeojsonGrows | layer/utils.py:74-112 | later in the run the table holds what it held earlier |
| Utils.LegacySaveTaken | layer/utils.py:91-112 | a feature whose row is already in the table cannot be inserted again |
| Utils.LegacyGeojsonRerunFails | layer/utils.py:69-112 | run again on a file it imported, the loader raises |
| Utils.VisiblePicked | layer/utils.py:127 | `filter(is_visible=True)`: visible indicators with their rows, each once, taken in key order (the queryset itself is unordered) |
| Utils.VisiblePickedComplete | layer/utils.py:127 | every visible indicator is yielded |
| Utils.Narrow | layer/utils.py:138-140 | the narrowed set holds only the risk score and its children, in order |
| Utils.NarrowComplete | layer/utils.py:138-140 | nothing that passes the filter is dropped |
| Utils.NarrowIdempotent | layer/utils.py:138-140 | narrowing twice is narrowing once |
| Utils.RowSavesMeaning | layer/utils.py:147-156 | a row saves one observation per required indicator, in order, with consecutive keys, up to the first indicator without a column, which raises KeyError |
| Utils.RowSavesStops | layer/utils.py:147-156 | after KeyError no further indicator is read |
| Utils.DataStopsAtUnknown | layer/utils.py:133-143 | a row whose code names no single geography ends the loop without an exception; it saves nothing and no later row is read |
| Utils.DataRowSaves | layer/utils.py:135-156 | a row of a known geography saves the observations of its required indicators, narrowed when it is a DISTRICT |
| Utils.MigrateDataReqd | layer/utils.py:127-140 | while the run goes on, the required set is the narrowed set once a DISTRICT row went by, and every visible indicator before |
| Utils.LaterRowsNarrowed | layer/utils.py:137-156 | as written: after a DISTRICT row, any later row saves observations only for the risk score and its children |
| Utils.IntendedRowColumns | layer/utils.py:137-156 | corrected: a non-district row saves an observation for every visible indicator, whatever rows went before |
| Utils.RowSavesKeeps | layer/utils.py:147-156 | saving a row keeps earlier observations, keys distinct and bounded, and references valid |
| Utils.MigrateDataKeepsInvariants | layer/utils.py:123-157 | the loader keeps earlier observations, keys distinct and bounded, and references valid |
| Utils.SaveRow | layer/utils.py:147-156 | the indicator loop of one row saves as `RowSaves` says |
| Utils.MigrateNextDataRow | layer/utils.py:133-156 | one row of the loop is one step of the run, as written (`sticky`) or corrected |
| Utils.MigrateData | layer/utils.py:123-157 | `migrate_data`: the loop leaves Data, the key sequence and the error the run says, as written (`sticky`) or with the corrected narrowing of the finding below |

## Left out

- **Reading and printing.** File reading, JSON and CSV parsing, `glob` and `print`
  are left out. Files are given as records, and `glob`'s order is the order of the
  given sequence. The first `sorted` by full path (import_data.py:101) is covered by
  the second sort, whose key orders every pair.
- **The report's plumbing.** PDF layout and building with reportlab, chart fetching
  over httpx, `asyncio`, `sync_to_async`, and writing and removing temporary files
  are left out. The fetched chart paths and the outcome of `doc.build` are inputs.
- **The "Error filtering data" 500 response** (views.py:86-87) is left out. It only
  happens on a database failure, and the model has none.
- **Geometry.** `GEOSGeometry` parsing and Polygon to MultiPolygon wrapping are left
  out. A geometry is an opaque `Shape`.
- **Missing keys in a geojson file.** The file-level keys `data["name"]` and
  `ft["geometry"]` are taken as present. Feature properties are text, and a
  missing property raises KeyError.
- **Number types.** `Data.value` is a float in the source and is modelled as
  `Option<int>`, because no arithmetic is done on it. A NaN cell in a data frame is
  modelled as `None`. This is a modelling choice: `FloatField` passes NaN
  through, PostgreSQL stores it as NaN and sorts it before every number under
  `order_by("-value")`, and SQLite stores NULL.
- **Column lengths.** The `max_length` limits of `layer/models.py` are not
  modelled: `Indicators.slug` (20) and `name` (100), `Geography.code` (20),
  `name` (100) and `type` (15), `Data.data_period` (100), `Page.name` and
  `Page.slug` (20), and the `name` and `slug` of `Department` and `Scheme` (20).
  `Models.SaveGeography`, `Models.SavedIndicator`, the Data appends and the
  `Save` methods of `Models.Page`, `Models.Department` and `Models.Scheme`
  accept text of any length; `Page.Save` in particular writes
  `slugify(f"{name}_{id}")`, which can exceed 20 characters. On
  PostgreSQL an over-long value raises DataError on save. In the command's
  `migrate_indicators` and `migrate_geojson` that error would end `handle()`; in
  `utils.migrate_indicators` it is caught like any other row exception.
- **Unordered querysets.** `Indicators.objects.filter(is_visible=True)`
  (import_data.py:278, utils.py:127) has no `order_by`, and `Indicators` has no
  `Meta.ordering`, so the database may yield the rows in any order. The model
  takes them in key order (`Command.VisibleIds`, `Utils.VisiblePicked`). Two
  things follow from that choice rather than from the source: the exact key
  given to each (row, indicator) observation (`ImportData.RowObservationsKeys`,
  `Utils.RowSavesMeaning`), and, in `utils.migrate_data`, which of a row's
  observations are saved before a missing column raises KeyError.
- **NULLs and ties in `order_by("-value")`.** Where NULLs fall is the database's
  choice, given as `nullsFirst`.
- Views.FilterData: which of several observations of equal value are kept is the
  database's choice. The model breaks ties by a stable order, so the contract
  states only order-free properties: size, order, origin and the largest-kept
  guarantee.
- Views.GenerateReport: its contract states the status codes, the file name, the
  element count and the table element. The title, spacers and chart elements are
  stated by Views.ReportElements.
- **Text handling is ASCII only.** Lower-casing and capitalising touch ASCII
  letters only, and `strip` removes ASCII blanks. `name__iexact` is modelled as
  equality after `Lower`.
- **`slugify`** is Django's library function. It is a parameter and is not
  modelled.
- **Fields that no core logic reads** are left out: `short_description`, `type`,
  the `geography`, `department` and `scheme` of an indicator, the `scheme` of an
  observation, `added` and `modified`, and Unit's choice lists.
- **`update_indicators`** (import_data.py:79-97) is left out. The command never
  calls it.
- **The database's auto-increment sequence.** Explicit keys from `generate_pk`
  are modelled, but not the fact that they do not advance the database's own
  sequence. The legacy loader's keys come from a separate `sequence` field.
- **The legacy `migrate_data` row counter `i`** only feeds `print`, so it is left
  out.
- **The `object-id` and `object_id` index columns** are modelled as
  `DataRow.code`.
- **Unknown geojson file names.** A file of an unknown name in
  `import_data.migrate_geojson` reuses the previous feature's locals, as Python
  does. The model carries them across features and files. The first feature of
  such a file, with no previous locals, raises Python's UnboundLocalError.

## Findings

| source | as written | input that shows it | evidently intended | confidence | as-written member | corrected member |
|---|---|---|---|---|---|---|
| layer/utils.py:137-140 | `reqd_columns` is reassigned to the narrowed queryset, so after the first DISTRICT row every later row only gets the risk score and its factors | a frame whose first row is a DISTRICT geography and whose second row is a REVENUE CIRCLE, with a visible indicator that is neither `risk-score` nor a child of it | narrow the indicators only for the DISTRICT row itself (the comment at line 136 says "for Districts") | medium, not executed | Utils.LaterRowsNarrowed | Utils.IntendedRowColumns |

`Utils.MigrateDataRun` takes a flag `sticky`. With `sticky` set it is the loop as
written, which `Utils.LaterRowsNarrowed` is about. Without it, the narrowing
applies to the DISTRICT row only. The loop method `Utils.MigrateData` takes the
same flag and equals the run in either reading, and the invariant lemma
`Utils.MigrateDataKeepsInvariants` holds for both.
