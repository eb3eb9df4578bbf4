/** layer/views.py: the choice of observations behind the state report
    (`get_filtered_data` and its inner `filter_data`: filter, order by value
    descending, keep the first five) and the assembly of the report's district
    table and element list in `generate_report`. */
module Views {
  import opened Query
  import opened Models

  /** The slice `[:5]` applied after `order_by("-value")`. */
  const TOP_N := 5

  // ---- The filters of `filter_data`, one per `.filter(...)` call ----

  /** `indicator__is_visible=True, data_period=time_period` */
  predicate VisibleIn(t: Tables, period: string, d: Data) {
    d.indicator < |t.indicators| && t.indicators[d.indicator].visible && d.period == Some(period)
  }

  /** The slug of the parent of indicator `i`, when it has one. */
  function ParentSlug(t: Tables, i: Id): Option<string> {
    if i < |t.indicators| && t.indicators[i].parent.Some? && t.indicators[i].parent.value < |t.indicators|
    then Some(t.indicators[t.indicators[i].parent.value].slug)
    else None
  }

  /** `Q(indicator__slug=f) | Q(indicator__parent__slug=f)` */
  predicate IndicatorOrParentIs(t: Tables, f: string, d: Data) {
    d.indicator < |t.indicators| &&
    (t.indicators[d.indicator].slug == f || ParentSlug(t, d.indicator) == Some(f))
  }

  /** `indicator__parent__parent=None` (a left join: an indicator without a parent
      has no grandparent either). */
  predicate NoGrandparent(t: Tables, d: Data) {
    d.indicator < |t.indicators| &&
    var p := t.indicators[d.indicator].parent;
    p.None? || (p.value < |t.indicators| && t.indicators[p.value].parent.None?)
  }

  /** The code of the parent of geography `g`, when it has one. */
  function ParentCode(t: Tables, g: Id): Option<string> {
    if g < |t.geographies| && t.geographies[g].parent.Some? && t.geographies[g].parent.value < |t.geographies|
    then Some(t.geographies[t.geographies[g].parent.value].code)
    else None
  }

  /** `Q(geography__parentId__code__in=[f]) | Q(geography__code__in=[f])` */
  predicate GeographyOrParentIs(t: Tables, f: string, d: Data) {
    d.geography < |t.geographies| &&
    (t.geographies[d.geography].code == f || ParentCode(t, d.geography) == Some(f))
  }

  /** What `filter_data` asks of an observation before ordering: visible, of
      the period, matching the indicator filter (the slug itself or its direct
      children; with no filter, no grandparent) and the geography filter (the
      code itself or its direct children). */
  predicate Selected(t: Tables, period: string, indicator: Option<string>, geo: Option<string>, d: Data) {
    && d.indicator < |t.indicators|
    && t.indicators[d.indicator].visible
    && d.period == Some(period)
    && (Given(indicator) ==>
          t.indicators[d.indicator].slug == indicator.value || ParentSlug(t, d.indicator) == Some(indicator.value))
    && (!Given(indicator) ==> NoGrandparent(t, d))
    && (Given(geo) ==>
          d.geography < |t.geographies| &&
          (t.geographies[d.geography].code == geo.value || ParentCode(t, d.geography) == Some(geo.value)))
  }

  /** The queryset of `filter_data` before ordering, built by the same chain of
      `.filter(...)` calls as the view: exactly the selected observations. */
  function Candidates(t: Tables, period: string, indicator: Option<string>, geo: Option<string>): (r: seq<Data>)
    ensures multiset(r) <= multiset(t.data)
    ensures forall d :: d in r <==> d in t.data && Selected(t, period, indicator, geo, d)
  {
    var visibleIn := (d: Data) => VisibleIn(t, period, d);
    WhereSubMultiset(t.data, visibleIn);
    var visible := Where(t.data, visibleIn);
    var byIndicator :=
      if Given(indicator) then
        (var f := indicator.value;
         var matching := (d: Data) => IndicatorOrParentIs(t, f, d);
         WhereSubMultiset(visible, matching);
         Where(visible, matching))
      else
        (var topLevel := (d: Data) => NoGrandparent(t, d);
         WhereSubMultiset(visible, topLevel);
         Where(visible, topLevel));
    if Given(geo) then
      var f := geo.value;
      var located := (d: Data) => GeographyOrParentIs(t, f, d);
      WhereSubMultiset(byIndicator, located);
      Where(byIndicator, located)
    else
      byIndicator
  }

  /** With an indicator filter, an observation whose indicator is a grandchild of
      the filtered indicator (and matches neither by its own slug nor by its
      parent's) is never a candidate: the match stops one level down. */
  lemma GrandchildrenNotCandidates(t: Tables, period: string, f: string, geo: Option<string>, d: Data)
    requires f != "" && d.indicator < |t.indicators|
    requires var p := t.indicators[d.indicator].parent;
             p.Some? && p.value < |t.indicators| && ParentSlug(t, p.value) == Some(f)
    requires t.indicators[d.indicator].slug != f && ParentSlug(t, d.indicator) != Some(f)
    ensures d !in Candidates(t, period, Some(f), geo)
  {
  }

  // ---- `order_by("-value")` ----

  /** `a` may be listed before `b` when ordering by value, descending. Where
      nulls go is the database's choice: first when `nullsFirst`, else last. */
  predicate ValueAtLeast(a: Option<int>, b: Option<int>, nullsFirst: bool) {
    if a.None? then b.None? || nullsFirst
    else if b.None? then !nullsFirst
    else a.value >= b.value
  }

  predicate SortedByValue(s: seq<Data>, nullsFirst: bool) {
    forall i, j :: 0 <= i < j < |s| ==> ValueAtLeast(s[i].value, s[j].value, nullsFirst)
  }

  lemma ValueAtLeastTransitive(a: Option<int>, b: Option<int>, c: Option<int>, nullsFirst: bool)
    requires ValueAtLeast(a, b, nullsFirst) && ValueAtLeast(b, c, nullsFirst)
    ensures ValueAtLeast(a, c, nullsFirst)
  {
  }

  /** A value at least that of `x` and of every row of `s` is at least that of
      every row of any rearrangement of `s` and `x`. */
  lemma BoundKeptByInsert(y: Data, x: Data, s: seq<Data>, r: seq<Data>, nullsFirst: bool)
    requires ValueAtLeast(y.value, x.value, nullsFirst)
    requires forall k :: 0 <= k < |s| ==> ValueAtLeast(y.value, s[k].value, nullsFirst)
    requires multiset(r) == multiset(s) + multiset{x}
    ensures forall k :: 0 <= k < |r| ==> ValueAtLeast(y.value, r[k].value, nullsFirst)
  {
    forall k | 0 <= k < |r| ensures ValueAtLeast(y.value, r[k].value, nullsFirst) {
      assert r[k] in multiset(r);
      if r[k] != x {
        assert r[k] in multiset(s);
        var m :| 0 <= m < |s| && s[m] == r[k];
      }
    }
  }

  function InsertByValue(x: Data, s: seq<Data>, nullsFirst: bool): (r: seq<Data>)
    requires SortedByValue(s, nullsFirst)
    ensures SortedByValue(r, nullsFirst)
    ensures multiset(r) == multiset(s) + multiset{x}
    ensures |r| == |s| + 1
  {
    if s == [] || ValueAtLeast(x.value, s[0].value, nullsFirst) then
      assert forall j :: 0 <= j < |s| ==> ValueAtLeast(x.value, s[j].value, nullsFirst) by {
        forall j | 0 <= j < |s| ensures ValueAtLeast(x.value, s[j].value, nullsFirst) {
          if j > 0 {
            ValueAtLeastTransitive(x.value, s[0].value, s[j].value, nullsFirst);
          }
        }
      }
      [x] + s
    else
      var rest := InsertByValue(x, s[1..], nullsFirst);
      assert s == [s[0]] + s[1..];
      BoundKeptByInsert(s[0], x, s[1..], rest, nullsFirst);
      [s[0]] + rest
  }

  /** The rows ordered by value, descending; rows with equal values keep their
      table order. */
  function OrderByValue(s: seq<Data>, nullsFirst: bool): (r: seq<Data>)
    ensures SortedByValue(r, nullsFirst)
    ensures multiset(r) == multiset(s)
    ensures |r| == |s|
  {
    if s == [] then []
    else
      assert s == [s[0]] + s[1..];
      InsertByValue(s[0], OrderByValue(s[1..], nullsFirst), nullsFirst)
  }

  function Min(a: nat, b: nat): nat {
    if a < b then a else b
  }

  lemma PrefixOfSorted(s: seq<Data>, n: nat, nullsFirst: bool)
    requires SortedByValue(s, nullsFirst) && n <= |s|
    ensures SortedByValue(s[..n], nullsFirst)
    ensures multiset(s[..n]) <= multiset(s)
  {
    assert s == s[..n] + s[n..];
  }

  /** `filter_data()`: at most five candidates, highest values first. */
  function FilterData(t: Tables, period: string, indicator: Option<string>, geo: Option<string>,
                      nullsFirst: bool): (r: seq<Data>)
    ensures |r| == Min(TOP_N, |Candidates(t, period, indicator, geo)|)
    ensures SortedByValue(r, nullsFirst)
    ensures multiset(r) <= multiset(Candidates(t, period, indicator, geo))
  {
    var ordered := OrderByValue(Candidates(t, period, indicator, geo), nullsFirst);
    var n := Min(TOP_N, |ordered|);
    PrefixOfSorted(ordered, n, nullsFirst);
    ordered[..n]
  }

  /** Every selected observation is visible, of the requested period, and passes
      the indicator and geography filters. */
  lemma FilterDataOnlyCandidates(t: Tables, period: string, indicator: Option<string>, geo: Option<string>,
                                 nullsFirst: bool, d: Data)
    requires d in FilterData(t, period, indicator, geo, nullsFirst)
    ensures d in Candidates(t, period, indicator, geo)
    ensures d in t.data && VisibleIn(t, period, d)
  {
    var r := FilterData(t, period, indicator, geo, nullsFirst);
    assert d in multiset(r);
  }

  /** No candidate left out has a greater value than the smallest one selected;
      and something is left out only when five are selected. */
  lemma {:induction false} FilterDataKeepsLargest(t: Tables, period: string, indicator: Option<string>,
                                                   geo: Option<string>, nullsFirst: bool, d: Data)
    requires d in multiset(Candidates(t, period, indicator, geo)) - multiset(FilterData(t, period, indicator, geo, nullsFirst))
    ensures |FilterData(t, period, indicator, geo, nullsFirst)| == TOP_N
    ensures ValueAtLeast(FilterData(t, period, indicator, geo, nullsFirst)[TOP_N - 1].value, d.value, nullsFirst)
  {
    var c := Candidates(t, period, indicator, geo);
    var ordered := OrderByValue(c, nullsFirst);
    var n := Min(TOP_N, |ordered|);
    var r := FilterData(t, period, indicator, geo, nullsFirst);
    assert r == ordered[..n];
    assert ordered == r + ordered[n..];
    assert multiset(c) == multiset(r) + multiset(ordered[n..]);
    assert d in multiset(ordered[n..]);
    var k :| 0 <= k < |ordered[n..]| && ordered[n..][k] == d;
    assert ordered[n + k] == d;
  }

  /** The selection never lists an observation twice. */
  lemma FilterDataDistinct(t: Tables, period: string, indicator: Option<string>, geo: Option<string>,
                           nullsFirst: bool)
    requires DistinctPks(t.data)
    ensures DistinctPks(FilterData(t, period, indicator, geo, nullsFirst))
  {
    DistinctPksOfSubMultiset(FilterData(t, period, indicator, geo, nullsFirst), t.data);
  }

  // ---- `generate_report` ----

  /** A cell of the district table. */
  datatype Cell = Label(text: string) | Value(value: Option<int>)

  const HEADER: seq<Cell> := [Label("District"), Label("Flood Risk Level")]

  /** `[data.geography.name, data.value]` */
  function TableRow(t: Tables, d: Data): seq<Cell>
    requires d.geography < |t.geographies|
  {
    [Label(t.geographies[d.geography].name), Value(d.value)]
  }

  /** `district_table_data`: the header, then one row per selected observation,
      in the order of the selection. */
  method DistrictTable(t: Tables, selected: seq<Data>) returns (table: seq<seq<Cell>>)
    requires forall d :: d in selected ==> d.geography < |t.geographies|
    ensures |table| == |selected| + 1 && table[0] == HEADER
    ensures forall i :: 0 <= i < |selected| ==> table[i + 1] == TableRow(t, selected[i])
  {
    table := [HEADER];
    for i := 0 to |selected|
      invariant |table| == i + 1 && table[0] == HEADER
      invariant forall k :: 0 <= k < i ==> table[k + 1] == TableRow(t, selected[k])
    {
      table := table + [TableRow(t, selected[i])];
    }
  }

  /** The flowables of the PDF document. */
  datatype Element =
    | Paragraph(text: string, style: string)
    | Spacer(width: int, height: int)
    | TableBlock(rows: seq<seq<Cell>>)
    | Image(path: string, width: int, height: int)

  const TITLE := "State Report: Assam | May 2023"

  /** What is shown for one chart: the fetched image, or an error note. */
  function ChartElement(fetched: Option<string>): Element {
    if Given(fetched) then Image(fetched.value, 400, 200)
    else Paragraph("Error fetching visualization", "BodyText")
  }

  /** `elements`: title, spacer, table, spacer, then each chart followed by a spacer. */
  method ReportElements(table: seq<seq<Cell>>, fetched: seq<Option<string>>) returns (elements: seq<Element>)
    ensures |elements| == 4 + 2 * |fetched|
    ensures elements[..4] == [Paragraph(TITLE, "Title"), Spacer(1, 12), TableBlock(table), Spacer(1, 12)]
    ensures forall k :: 0 <= k < |fetched| ==>
              elements[4 + 2 * k] == ChartElement(fetched[k]) && elements[5 + 2 * k] == Spacer(1, 12)
  {
    elements := [Paragraph(TITLE, "Title"), Spacer(1, 12)];
    elements := elements + [TableBlock(table)];
    elements := elements + [Spacer(1, 12)];
    for i := 0 to |fetched|
      invariant |elements| == 4 + 2 * i
      invariant elements[..4] == [Paragraph(TITLE, "Title"), Spacer(1, 12), TableBlock(table), Spacer(1, 12)]
      invariant forall k :: 0 <= k < i ==>
                  elements[4 + 2 * k] == ChartElement(fetched[k]) && elements[5 + 2 * k] == Spacer(1, 12)
    {
      elements := elements + [ChartElement(fetched[i])] + [Spacer(1, 12)];
    }
  }

  /** The answer of `generate_report`. */
  datatype Response = Pdf(elements: seq<Element>, filename: string) | Failure(status: int, message: string)

  /** `request.GET.get(key)` */
  function Param(query: map<string, string>, key: string): Option<string> {
    if key in query then Some(query[key]) else None
  }

  /** `generate_report(request)`: a GET builds the report from the top-five
      selection; the charts' download results and the outcome of building the
      PDF are inputs (`fetched`, `buildError`). */
  method GenerateReport(t: Tables, httpMethod: string, query: map<string, string>, defaultPeriod: string,
                        nullsFirst: bool, fetched: seq<Option<string>>, buildError: Option<string>)
    returns (response: Response)
    requires RefsValid(t)
    ensures httpMethod != "GET" ==> response == Failure(405, "Invalid HTTP method")
    ensures httpMethod == "GET" && buildError.Some? ==>
              response == Failure(500, "Error generating PDF: " + buildError.value)
    ensures httpMethod == "GET" && buildError.None? ==>
              var period := if "time_period" in query then query["time_period"] else defaultPeriod;
              var selected := FilterData(t, period, Param(query, "indicator"), Param(query, "geo_filter"), nullsFirst);
              && response.Pdf?
              && response.filename == "state_report_assam.pdf"
              && |response.elements| == 4 + 2 * |fetched|
              && response.elements[2].TableBlock?
              && (forall d :: d in selected ==> d.geography < |t.geographies|)
              && |response.elements[2].rows| == |selected| + 1
              && response.elements[2].rows[0] == HEADER
              && (forall i :: 0 <= i < |selected| ==>
                    response.elements[2].rows[i + 1] == TableRow(t, selected[i]))
  {
    if httpMethod != "GET" {
      return Failure(405, "Invalid HTTP method");
    }
    var period := if "time_period" in query then query["time_period"] else defaultPeriod;
    var selected := FilterData(t, period, Param(query, "indicator"), Param(query, "geo_filter"), nullsFirst);
    forall d | d in selected ensures d.geography < |t.geographies| {
      FilterDataOnlyCandidates(t, period, Param(query, "indicator"), Param(query, "geo_filter"), nullsFirst, d);
      assert d in t.data;
    }
    var table := DistrictTable(t, selected);
    var elements := ReportElements(table, fetched);
    assert elements[2] == elements[..4][2] == TableBlock(table);
    if buildError.Some? {
      return Failure(500, "Error generating PDF: " + buildError.value);
    }
    response := Pdf(elements, "state_report_assam.pdf");
  }
}
