/** The tables of the layer app (Unit, Geography, Indicators, Data) as records in
    an arena: a row's id is its position in its table, and a foreign key is such
    a position. Also the `save()` overrides of Page, Department, Scheme and
    Indicators, and the uniqueness rules the database enforces on save. */
module Models {
  import opened Query
  import opened Text

  /** Primary key of a Unit, Geography or Indicators row: its position in the table. */
  type Id = nat

  // Geography `type` values written by the ingestion code.
  const STATE := "STATE"
  const DISTRICT := "DISTRICT"
  const REVENUE_CIRCLE := "REVENUE CIRCLE"
  const SUB_DISTRICT := "SUB DISTRICT"
  const TEHSIL := "TEHSIL"

  /** Unit: `name` is unique; `symbol` is never null (blank by default). */
  datatype Unit = Unit(name: string, description: Option<string>, symbol: string)

  /** A geometry, kept opaque. */
  datatype Shape = Shape(geojson: string)

  /** Geography: `name` and `code` are each unique; `parent` is the optional
      self-reference `parentId`. The field `type` is called `kind` here. */
  datatype Geography = Geography(name: string, code: string, kind: string,
                                 parent: Option<Id>, geom: Option<Shape>)

  /** A stored Indicators row. After `save()` the slug is always a string
      (see `SavedIndicator`), so it is not nullable here. */
  datatype Indicator = Indicator(name: string, slug: string,
                                 longDescription: Option<string>, category: Option<string>,
                                 dataSource: Option<string>, unit: Option<Id>,
                                 parent: Option<Id>, visible: bool)

  /** A Data row (an observation): exactly one indicator and one geography;
      `value` and `data_period` may be null. */
  datatype Data = Data(pk: nat, value: Option<int>, indicator: Id, geography: Id,
                       period: Option<string>)

  /** The four tables at one moment. */
  datatype Tables = Tables(units: seq<Unit>, geographies: seq<Geography>,
                           indicators: seq<Indicator>, data: seq<Data>)

  /** Every foreign key points at an existing row. */
  predicate RefsValid(t: Tables) {
    && (forall i :: 0 <= i < |t.geographies| && t.geographies[i].parent.Some? ==>
          t.geographies[i].parent.value < |t.geographies|)
    && (forall i :: 0 <= i < |t.indicators| ==>
          (t.indicators[i].parent.Some? ==> t.indicators[i].parent.value < |t.indicators|) &&
          (t.indicators[i].unit.Some? ==> t.indicators[i].unit.value < |t.units|))
    && (forall d :: d in t.data ==> d.indicator < |t.indicators| && d.geography < |t.geographies|)
  }

  predicate UniqueUnitNames(units: seq<Unit>) {
    forall i, j :: 0 <= i < j < |units| ==> units[i].name != units[j].name
  }

  predicate UniqueGeographies(geos: seq<Geography>) {
    forall i, j :: 0 <= i < j < |geos| ==> geos[i].code != geos[j].code && geos[i].name != geos[j].name
  }

  /** Parents are created before their children, so the parent links form a forest. */
  predicate ParentsFirst(t: Tables) {
    && (forall i :: 0 <= i < |t.geographies| && t.geographies[i].parent.Some? ==>
          t.geographies[i].parent.value < i)
    && (forall i :: 0 <= i < |t.indicators| && t.indicators[i].parent.Some? ==>
          t.indicators[i].parent.value < i)
  }

  /** What the database guarantees about its tables. */
  predicate WellFormed(t: Tables) {
    RefsValid(t) && UniqueUnitNames(t.units) && UniqueGeographies(t.geographies) && ParentsFirst(t)
  }

  /** The primary key of Data. */
  predicate DistinctPks(data: seq<Data>) {
    forall i, j :: 0 <= i < j < |data| ==> data[i].pk != data[j].pk
  }

  /** In a table with distinct primary keys a row occurs at most once. */
  lemma {:induction false} DistinctPksOccurOnce(s: seq<Data>, x: Data)
    requires DistinctPks(s)
    ensures multiset(s)[x] <= 1
  {
    if s != [] {
      var init := s[..|s| - 1];
      var last := s[|s| - 1];
      assert s == init + [last];
      assert DistinctPks(init);
      DistinctPksOccurOnce(init, x);
      forall k | 0 <= k < |init| ensures init[k] != last {
        assert init[k] == s[k];
      }
      assert last !in init;
    }
  }

  /** Two equal rows at different positions make the row's count at least two. */
  lemma RepeatedRowCount(r: seq<Data>, i: nat, j: nat)
    requires i < j < |r|
    ensures r[i] == r[j] ==> multiset(r)[r[j]] >= 2
  {
    assert r == r[..j] + [r[j]] + r[j + 1..];
    assert r[..j][i] == r[i];
    assert multiset(r)[r[j]] == multiset(r[..j])[r[j]] + 1 + multiset(r[j + 1..])[r[j]];
  }

  /** Rows drawn from a table with distinct primary keys have distinct keys. */
  lemma DistinctPksOfSubMultiset(r: seq<Data>, s: seq<Data>)
    requires multiset(r) <= multiset(s) && DistinctPks(s)
    ensures DistinctPks(r)
  {
    forall i, j | 0 <= i < j < |r| ensures r[i].pk != r[j].pk {
      assert r[i] in multiset(r) && r[j] in multiset(r);
      var a :| 0 <= a < |s| && s[a] == r[i];
      var b :| 0 <= b < |s| && s[b] == r[j];
      RepeatedRowCount(r, i, j);
      DistinctPksOccurOnce(s, r[j]);
      assert a != b ==> s[a].pk != s[b].pk;
    }
  }

  /** Does some row other than `at` already use `g`'s code or name? */
  predicate Clashes(geos: seq<Geography>, at: Option<Id>, g: Geography) {
    exists k :: 0 <= k < |geos| && Some(k) != at && (geos[k].code == g.code || geos[k].name == g.name)
  }

  /** `Geography.save()`: inserts (`at == None`) or overwrites row `at`; `None`
      when the unique `code` or `name` is already taken by another row
      (IntegrityError). */
  function SaveGeography(geos: seq<Geography>, at: Option<Id>, g: Geography): (r: Option<seq<Geography>>)
    requires at.Some? ==> at.value < |geos|
    ensures r.None? <==> Clashes(geos, at, g)
  {
    if Clashes(geos, at, g) then None
    else if at.None? then Some(geos + [g])
    else Some(geos[at.value := g])
  }

  /** A successful save keeps codes and names unique. */
  lemma SaveGeographyKeepsUnique(geos: seq<Geography>, at: Option<Id>, g: Geography)
    requires UniqueGeographies(geos)
    requires at.Some? ==> at.value < |geos|
    requires SaveGeography(geos, at, g).Some?
    ensures UniqueGeographies(SaveGeography(geos, at, g).value)
  {
    var r := SaveGeography(geos, at, g).value;
    forall i, j | 0 <= i < j < |r| ensures r[i].code != r[j].code && r[i].name != r[j].name {
      if Some(i) == at || i == |geos| {
        assert !(geos[j].code == g.code || geos[j].name == g.name) || j == |geos|;
      } else if Some(j) == at || j == |geos| {
        assert !(geos[i].code == g.code || geos[i].name == g.name);
      }
    }
  }

  /** The filters the ingestion code hands to `Geography.objects.get`. */
  datatype GeoQuery =
    | NamedKind(name: string, kind: string)   // `name__iexact=name, type=kind`
    | CodedKind(code: string, kind: string)   // `code=code, type=kind`
    | CodedChild(code: string, parent: Id)    // `code=code, parentId=parent`
    | CodedNonState(code: string)             // `Q(code=code), ~Q(type="STATE")`
    | Coded(code: string)                     // `code=code`

  /** Does row `g` pass filter `q`? `iexact` compares case-insensitively. */
  predicate Answers(g: Geography, q: GeoQuery) {
    match q
    case NamedKind(name, kind) => Lower(g.name) == Lower(name) && g.kind == kind
    case CodedKind(code, kind) => g.code == code && g.kind == kind
    case CodedChild(code, parent) => g.code == code && g.parent == Some(parent)
    case CodedNonState(code) => g.code == code && g.kind != STATE
    case Coded(code) => g.code == code
  }

  /** `Geography.objects.get(q)`. */
  function GeographyWhere(geos: seq<Geography>, q: GeoQuery): (r: Lookup)
    ensures r.Found? ==> r.id < |geos|
  {
    if geos == [] then NotFound
    else
      var front := GeographyWhere(geos[..|geos| - 1], q);
      if !Answers(geos[|geos| - 1], q) then front
      else if front.NotFound? then Found(|geos| - 1)
      else Multiple
  }

  /** `get` raises DoesNotExist exactly when no row passes the filter. */
  lemma {:induction false} GeographyWhereNotFound(geos: seq<Geography>, q: GeoQuery)
    ensures GeographyWhere(geos, q) == NotFound <==> forall k :: 0 <= k < |geos| ==> !Answers(geos[k], q)
  {
    if geos != [] {
      var init := geos[..|geos| - 1];
      GeographyWhereNotFound(init, q);
      assert forall k :: 0 <= k < |init| ==> init[k] == geos[k];
      var front := GeographyWhere(init, q);
      if front.Found? {
        GeographyWhereFound(init, q);
        assert Answers(geos[front.id], q);
      }
    }
  }

  /** What `get` returns is the one row passing the filter. */
  lemma {:induction false} GeographyWhereFound(geos: seq<Geography>, q: GeoQuery)
    requires GeographyWhere(geos, q).Found?
    ensures Answers(geos[GeographyWhere(geos, q).id], q)
    ensures forall k :: 0 <= k < |geos| && k != GeographyWhere(geos, q).id ==> !Answers(geos[k], q)
  {
    var init := geos[..|geos| - 1];
    assert forall k :: 0 <= k < |init| ==> init[k] == geos[k];
    var front := GeographyWhere(init, q);
    if front.Found? {
      GeographyWhereFound(init, q);
    } else {
      GeographyWhereNotFound(init, q);
    }
  }

  /** `get` raises MultipleObjectsReturned exactly when two rows pass the filter. */
  lemma {:induction false} GeographyWhereMultiple(geos: seq<Geography>, q: GeoQuery)
    ensures GeographyWhere(geos, q) == Multiple <==>
              exists a, b :: 0 <= a < b < |geos| && Answers(geos[a], q) && Answers(geos[b], q)
  {
    if geos != [] {
      var init := geos[..|geos| - 1];
      var last := |geos| - 1;
      GeographyWhereMultiple(init, q);
      assert forall k :: 0 <= k < |init| ==> init[k] == geos[k];
      var front := GeographyWhere(init, q);
      if front == Multiple {
        var a, b :| 0 <= a < b < |init| && Answers(init[a], q) && Answers(init[b], q);
        assert Answers(geos[a], q) && Answers(geos[b], q);
      } else if front.Found? {
        GeographyWhereFound(init, q);
        if Answers(geos[last], q) {
          assert Answers(geos[front.id], q);
        }
      } else {
        GeographyWhereNotFound(init, q);
      }
    }
  }

  /** `Unit.objects.get(name=name)` on the unique `name` column: the row
      with that name, if there is one. */
  function UnitNamed(units: seq<Unit>, name: string): (r: Option<Id>)
    ensures r.Some? ==> r.value < |units| && units[r.value].name == name
    ensures r.None? ==> forall k :: 0 <= k < |units| ==> units[k].name != name
  {
    if units == [] then None
    else if units[|units| - 1].name == name then Some(|units| - 1)
    else UnitNamed(units[..|units| - 1], name)
  }

  /** A unit chosen for an indicator, and the Unit table afterwards. */
  datatype UnitChoice = UnitChoice(id: Id, units: seq<Unit>)

  /** `Unit.objects.get(name=name)`, or, on DoesNotExist, a new `Unit(name=name)`
      saved with a blank symbol. */
  function UnitFor(units: seq<Unit>, name: string): (r: UnitChoice)
    ensures r.id < |r.units| && r.units[r.id].name == name
    ensures r.units == units || r.units == units + [Unit(name, None, "")]
  {
    var found := UnitNamed(units, name);
    if found.Some? then UnitChoice(found.value, units) else UnitChoice(|units|, units + [Unit(name, None, "")])
  }

  /** A unit is created exactly when none has the name, and names stay unique. */
  lemma UnitForCreates(units: seq<Unit>, name: string)
    requires UniqueUnitNames(units)
    ensures UniqueUnitNames(UnitFor(units, name).units)
    ensures UnitFor(units, name).units == units <==> exists k :: 0 <= k < |units| && units[k].name == name
  {
  }

  /** The two columns `migrate_indicators` looks indicators up by. */
  datatype IndicatorKey = BySlug | ByName

  function KeyOf(i: Indicator, key: IndicatorKey): string {
    match key
    case BySlug => i.slug
    case ByName => i.name
  }

  /** `Indicators.objects.get(slug=value)` or `get(name=value)`; neither
      column is unique. */
  function IndicatorWith(indicators: seq<Indicator>, key: IndicatorKey, value: string): (r: Lookup)
    ensures r.Found? ==> r.id < |indicators|
  {
    if indicators == [] then NotFound
    else
      var front := IndicatorWith(indicators[..|indicators| - 1], key, value);
      if KeyOf(indicators[|indicators| - 1], key) != value then front
      else if front.NotFound? then Found(|indicators| - 1)
      else Multiple
  }

  /** `get` raises DoesNotExist exactly when no row matches. */
  lemma {:induction false} IndicatorWithNotFound(indicators: seq<Indicator>, key: IndicatorKey, value: string)
    ensures IndicatorWith(indicators, key, value) == NotFound <==>
              forall k :: 0 <= k < |indicators| ==> KeyOf(indicators[k], key) != value
  {
    if indicators != [] {
      var init := indicators[..|indicators| - 1];
      IndicatorWithNotFound(init, key, value);
      assert forall k :: 0 <= k < |init| ==> init[k] == indicators[k];
      var front := IndicatorWith(init, key, value);
      if front.Found? {
        IndicatorWithFound(init, key, value);
        assert KeyOf(indicators[front.id], key) == value;
      }
    }
  }

  /** What `get` returns is the one matching row. */
  lemma {:induction false} IndicatorWithFound(indicators: seq<Indicator>, key: IndicatorKey, value: string)
    requires IndicatorWith(indicators, key, value).Found?
    ensures KeyOf(indicators[IndicatorWith(indicators, key, value).id], key) == value
    ensures forall k :: 0 <= k < |indicators| && k != IndicatorWith(indicators, key, value).id ==>
              KeyOf(indicators[k], key) != value
  {
    var init := indicators[..|indicators| - 1];
    assert forall k :: 0 <= k < |init| ==> init[k] == indicators[k];
    var front := IndicatorWith(init, key, value);
    if front.Found? {
      IndicatorWithFound(init, key, value);
    } else {
      IndicatorWithNotFound(init, key, value);
    }
  }

  /** `get` raises MultipleObjectsReturned exactly when two rows match. */
  lemma {:induction false} IndicatorWithMultiple(indicators: seq<Indicator>, key: IndicatorKey, value: string)
    ensures IndicatorWith(indicators, key, value) == Multiple <==>
              exists a, b :: 0 <= a < b < |indicators| &&
                KeyOf(indicators[a], key) == value && KeyOf(indicators[b], key) == value
  {
    if indicators != [] {
      var init := indicators[..|indicators| - 1];
      var last := |indicators| - 1;
      IndicatorWithMultiple(init, key, value);
      assert forall k :: 0 <= k < |init| ==> init[k] == indicators[k];
      var front := IndicatorWith(init, key, value);
      if front == Multiple {
        var a, b :| 0 <= a < b < |init| && KeyOf(init[a], key) == value && KeyOf(init[b], key) == value;
        assert KeyOf(indicators[a], key) == value && KeyOf(indicators[b], key) == value;
      } else if front.Found? {
        IndicatorWithFound(init, key, value);
        if KeyOf(indicators[last], key) == value {
          assert KeyOf(indicators[front.id], key) == value;
        }
      } else {
        IndicatorWithNotFound(init, key, value);
      }
    }
  }

  /** The database holding the four tables, and the auto-increment sequence that
      gives a saved Data row its primary key. */
  class Database {
    var units: seq<Unit>
    var geographies: seq<Geography>
    var indicators: seq<Indicator>
    var data: seq<Data>
    var sequence: nat

    function Snapshot(): Tables
      reads this
    {
      Tables(units, geographies, indicators, data)
    }

    ghost predicate Valid()
      reads this
    {
      WellFormed(Snapshot())
    }

    constructor (t: Tables, sequence: nat)
      ensures Snapshot() == t && this.sequence == sequence
    {
      units, geographies, indicators, data := t.units, t.geographies, t.indicators, t.data;
      this.sequence := sequence;
    }
  }

  // ---- The `save()` overrides ----

  /** `not self.slug`: the slug is null or empty. */
  predicate BlankSlug(slug: Option<string>) {
    slug.None? || slug.value == ""
  }

  /** The slug left by `Department.save`, `Scheme.save` and `Indicators.save`:
      a non-empty slug is kept, otherwise it becomes `slugify(name)`. */
  function FilledSlug(slug: Option<string>, name: string, slugify: string -> string): (r: string)
    ensures !BlankSlug(slug) ==> r == slug.value
    ensures BlankSlug(slug) ==> r == slugify(name)
  {
    if BlankSlug(slug) then slugify(name) else slug.value
  }

  /** Saving again after a save leaves the slug as it is. */
  lemma FilledSlugStable(slug: Option<string>, name: string, slugify: string -> string)
    ensures FilledSlug(Some(FilledSlug(slug, name, slugify)), name, slugify) == FilledSlug(slug, name, slugify)
  {
  }

  /** How an f-string shows a nullable text field: `None` reads "None". */
  function Shown(s: Option<string>): string {
    if s.None? then "None" else s.value
  }

  /** How an f-string shows `self.id`: "None" before the first insert, and
      afterwards the decimal text `str(id)`, which reads back as the id. */
  function ShownId(id: Option<nat>): (r: string)
    ensures r != [] && (id.None? ==> r[0] == 'N')
    ensures id.Some? ==> (forall k :: 0 <= k < |r| ==> '0' <= r[k] <= '9') && DigitsValue(r) == id.value
  {
    if id.None? then "None" else DecimalText(id.value)
  }

  /** The slug `Page.save` writes: `slugify(f"{name}_{id}")`. */
  function PageSlug(name: Option<string>, id: Option<nat>, slugify: string -> string): string {
    slugify(Shown(name) + "_" + ShownId(id))
  }

  /** The first save of a new page and the next save of that page hand
      `slugify` different texts: the first one is computed before the
      database assigns the id, so it reads "None" where the second has the
      id's digits. */
  lemma {:induction false} PageSlugChangesAfterFirstSave(name: Option<string>, newId: nat)
    ensures Shown(name) + "_" + ShownId(None) != Shown(name) + "_" + ShownId(Some(newId))
  {
    var pre := Shown(name) + "_";
    var digits := ShownId(Some(newId));
    assert (pre + ShownId(None))[|pre|] == 'N';
    assert (pre + digits)[|pre|] == digits[0] != 'N';
  }

  class Page {
    var id: Option<nat>
    var name: Option<string>
    var description: Option<string>
    var slug: Option<string>

    constructor (name: Option<string>, description: Option<string>, slug: Option<string>)
      ensures this.id == None && this.name == name && this.description == description && this.slug == slug
    {
      this.id := None;
      this.name := name;
      this.description := description;
      this.slug := slug;
    }

    /** `Page.save()`: the slug is always overwritten, from the name and the id
        the row has before this save; a row without an id is inserted and the
        database gives it `newId`. */
    method Save(slugify: string -> string, newId: nat)
      modifies this
      ensures slug == Some(PageSlug(old(name), old(id), slugify))
      ensures id == (if old(id).None? then Some(newId) else old(id))
      ensures name == old(name) && description == old(description)
    {
      slug := Some(PageSlug(name, id, slugify));
      if id.None? {
        id := Some(newId);
      }
    }
  }

  class Department {
    var name: string
    var description: Option<string>
    var slug: Option<string>
    var geography: Id

    constructor (name: string, description: Option<string>, slug: Option<string>, geography: Id)
      ensures this.name == name && this.description == description && this.slug == slug
      ensures this.geography == geography
    {
      this.name := name;
      this.description := description;
      this.slug := slug;
      this.geography := geography;
    }

    /** `Department.save()`: fills the slug only when it is empty. */
    method Save(slugify: string -> string)
      modifies this`slug
      ensures slug == Some(FilledSlug(old(slug), name, slugify))
    {
      if BlankSlug(slug) {
        slug := Some(slugify(name));
      }
    }
  }

  class Scheme {
    var name: string
    var description: Option<string>
    var slug: Option<string>
    var department: Id

    constructor (name: string, description: Option<string>, slug: Option<string>, department: Id)
      ensures this.name == name && this.description == description && this.slug == slug
      ensures this.department == department
    {
      this.name := name;
      this.description := description;
      this.slug := slug;
      this.department := department;
    }

    /** `Scheme.save()`: fills the slug only when it is empty. */
    method Save(slugify: string -> string)
      modifies this`slug
      ensures slug == Some(FilledSlug(old(slug), name, slugify))
    {
      if BlankSlug(slug) {
        slug := Some(slugify(name));
      }
    }
  }

  /** An Indicators instance before `save()`: its slug may still be null. */
  datatype IndicatorDraft = IndicatorDraft(name: string, slug: Option<string>,
                                           longDescription: Option<string>, category: Option<string>,
                                           dataSource: Option<string>, unit: Option<Id>,
                                           parent: Option<Id>, visible: bool)

  /** The row `Indicators.save()` stores for a draft: every field as given,
      the slug filled from the name only when it is empty. */
  function SavedIndicator(d: IndicatorDraft, slugify: string -> string): (r: Indicator)
    ensures r.slug == FilledSlug(d.slug, d.name, slugify)
    ensures r.name == d.name && r.unit == d.unit && r.parent == d.parent && r.visible == d.visible
  {
    Indicator(d.name, FilledSlug(d.slug, d.name, slugify), d.longDescription, d.category,
              d.dataSource, d.unit, d.parent, d.visible)
  }
}
