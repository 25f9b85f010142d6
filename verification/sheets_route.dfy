/** The pure part of the sheets API route (app/api/sheets/route.ts): raw
    spreadsheet rows become section and section-data records by cell position,
    the sections of the `market` tab are kept and sorted, their data rows are
    joined on, and failures select the response status. The fetch itself is a
    parameter: `fetched` is the outcome of the three range reads. */
module SheetsRoute {
  import opened Wrappers
  import opened Seqs
  import opened StableSort

  const MarketTabName := "market"
  const OkStatus := 200
  const DefaultErrorStatus := 500
  const MissingIdMessage := "Spreadsheet ID is not configured"
  const FetchFailedMessage := "Failed to fetch data from Google Sheets"

  /** One spreadsheet row: its cells, trailing empty cells omitted. */
  type Row = seq<string>

  /** `row[i]`: `None` (undefined) past the end of the row. */
  function Cell(row: Row, i: nat): (r: Option<string>)
    ensures r.Some? <==> i < |row|
    ensures r.Some? ==> r.value == row[i]
  {
    if i < |row| then Some(row[i]) else None
  }

  /** A section record of the route; text fields are `None` when the row has no such cell. */
  datatype SheetSection = SheetSection(
    tabName: Option<string>,
    sectionName: Option<string>,
    sectionId: Option<string>,
    chartType: Option<string>,
    description: Option<string>,
    sortOrder: int)

  /** A section-data record of the route (`dataLabel` is its `label` field); `value` is `None` where `parseFloat` gives `NaN`. */
  datatype SheetDatum = SheetDatum(sectionId: Option<string>, dataLabel: Option<string>, value: Option<real>)

  /** `parseInt(cell) || 0`: a missing cell or a failed parse (`NaN`) gives 0;
      never an error. */
  function IntOrZero(parseInt: string -> Option<int>, cell: Option<string>): (n: int)
    ensures cell.Some? && parseInt(cell.value).Some? ==> n == parseInt(cell.value).value
    ensures (cell.None? || parseInt(cell.value).None?) ==> n == 0
  {
    match cell
    case None => 0
    case Some(c) =>
      match parseInt(c)
      case None => 0
      case Some(v) => if v != 0 then v else 0
  }

  /** `parseFloat(cell)`: a missing cell parses to `NaN`. */
  function FloatOf(parseFloat: string -> Option<real>, cell: Option<string>): (x: Option<real>)
    ensures cell.None? ==> x.None?
    ensures cell.Some? ==> x == parseFloat(cell.value)
  {
    match cell
    case None => None
    case Some(c) => parseFloat(c)
  }

  /** A `Sections!A2:G` row as a section: cells 0 to 4 are the id, tab name,
      chart type, name and description; cell 5 is the sort order. */
  function ToSection(row: Row, parseInt: string -> Option<int>): (s: SheetSection)
    ensures s.sectionId == Cell(row, 0) && s.tabName == Cell(row, 1) && s.chartType == Cell(row, 2)
    ensures s.sectionName == Cell(row, 3) && s.description == Cell(row, 4)
    ensures |row| > 5 && parseInt(row[5]).Some? ==> s.sortOrder == parseInt(row[5]).value
    ensures (|row| <= 5 || parseInt(row[5]).None?) ==> s.sortOrder == 0
  {
    SheetSection(Cell(row, 1), Cell(row, 3), Cell(row, 0), Cell(row, 2), Cell(row, 4),
                  IntOrZero(parseInt, Cell(row, 5)))
  }

  /** Writing a section's fields back into their cells and reading the row
      again gives the section back, provided the sort-order cell parses to
      the section's sort order. */
  lemma ToSectionRoundTrip(s: SheetSection, sortCell: string, parseInt: string -> Option<int>)
    requires s.sectionId.Some? && s.tabName.Some? && s.chartType.Some?
    requires s.sectionName.Some? && s.description.Some?
    requires parseInt(sortCell) == Some(s.sortOrder)
    ensures ToSection([s.sectionId.value, s.tabName.value, s.chartType.value,
                       s.sectionName.value, s.description.value, sortCell], parseInt) == s
  {
  }

  /** A `SectionData!A2:C` row as a datum: section id, label, parsed value. */
  function ToDatum(row: Row, parseFloat: string -> Option<real>): (d: SheetDatum)
    ensures d.sectionId == Cell(row, 0) && d.dataLabel == Cell(row, 1)
    ensures |row| > 2 ==> d.value == parseFloat(row[2])
    ensures |row| <= 2 ==> d.value.None?
  {
    SheetDatum(Cell(row, 0), Cell(row, 1), FloatOf(parseFloat, Cell(row, 2)))
  }

  /** Writing a datum's fields back into their cells and reading the row again
      gives the datum back, provided the value cell parses to the datum's value. */
  lemma ToDatumRoundTrip(d: SheetDatum, valueCell: string, parseFloat: string -> Option<real>)
    requires d.sectionId.Some? && d.dataLabel.Some?
    requires parseFloat(valueCell) == d.value
    ensures ToDatum([d.sectionId.value, d.dataLabel.value, valueCell], parseFloat) == d
  {
  }

  /** `response.data.values || []`. */
  function RowsOrEmpty(values: Option<seq<Row>>): (rows: seq<Row>)
    ensures values.None? ==> rows == []
    ensures values.Some? ==> rows == values.value
  {
    values.GetOr([])
  }

  /** Every section row becomes one section, in order: no row is dropped. */
  function NormalizeSections(values: Option<seq<Row>>, parseInt: string -> Option<int>): (r: seq<SheetSection>)
    ensures |r| == |RowsOrEmpty(values)|
    ensures forall i :: 0 <= i < |r| ==> r[i] == ToSection(RowsOrEmpty(values)[i], parseInt)
  {
    var rows := RowsOrEmpty(values);
    seq(|rows|, i requires 0 <= i < |rows| => ToSection(rows[i], parseInt))
  }

  /** Every section-data row becomes one datum, in order: no row is dropped. */
  function NormalizeData(values: Option<seq<Row>>, parseFloat: string -> Option<real>): (r: seq<SheetDatum>)
    ensures |r| == |RowsOrEmpty(values)|
    ensures forall i :: 0 <= i < |r| ==> r[i] == ToDatum(RowsOrEmpty(values)[i], parseFloat)
  {
    var rows := RowsOrEmpty(values);
    seq(|rows|, i requires 0 <= i < |rows| => ToDatum(rows[i], parseFloat))
  }

  /** Comparator `(a, b) => a.sortOrder - b.sortOrder`. */
  predicate MarketSectionOrder(a: SheetSection, b: SheetSection) {
    a.sortOrder <= b.sortOrder
  }

  lemma MarketSectionOrderIsTotalPreorder()
    ensures TotalPreorder(MarketSectionOrder)
  {
  }

  /** `sections.filter(section => section.tabName === 'market')`. */
  function OnMarketTab(sections: seq<SheetSection>): seq<SheetSection> {
    Filter(sections, (s: SheetSection) => s.tabName == Some(MarketTabName))
  }

  /** The market tab's sections, stable-sorted ascending by `sortOrder`. */
  function MarketSections(sections: seq<SheetSection>): (r: seq<SheetSection>)
    ensures forall s :: s in r <==> s in sections && s.tabName == Some(MarketTabName)
    ensures forall s :: multiset(r)[s] == if s.tabName == Some(MarketTabName) then multiset(sections)[s] else 0
    ensures Sorted(r, MarketSectionOrder)
    ensures forall y :: Ties(r, y, MarketSectionOrder) == Ties(OnMarketTab(sections), y, MarketSectionOrder)
  {
    var r := SortBy(OnMarketTab(sections), MarketSectionOrder);
    MarketSectionOrderIsTotalPreorder();
    SortByCharacterization(OnMarketTab(sections), MarketSectionOrder);
    r
  }

  /** `sections.some(section => section.sectionId === id)`. */
  predicate HasSectionId(sections: seq<SheetSection>, id: Option<string>) {
    exists i :: 0 <= i < |sections| && sections[i].sectionId == id
  }

  /** The data rows of the given sections: a semi-join that keeps the data in
      its input order. */
  function MarketSectionData(data: seq<SheetDatum>, market: seq<SheetSection>): (r: seq<SheetDatum>)
    ensures forall d :: d in r <==> d in data && exists s :: s in market && s.sectionId == d.sectionId
    ensures forall d :: multiset(r)[d] == if HasSectionId(market, d.sectionId) then multiset(data)[d] else 0
    ensures IsSubsequence(r, data)
  {
    Filter(data, (d: SheetDatum) => HasSectionId(market, d.sectionId))
  }

  /** The three range reads: tabs, sections, section data. */
  datatype Responses = Responses(tabs: Option<seq<Row>>, sections: Option<seq<Row>>, sectionData: Option<seq<Row>>)

  /** The error a failed read throws: its message and, when it has one, its status code. */
  datatype SheetsError = SheetsError(message: Option<string>, code: Option<int>)

  datatype Body =
    | MarketTab(sections: seq<SheetSection>, sectionData: seq<SheetDatum>)
    | ErrorBody(error: string, details: Option<string>, code: Option<int>)

  datatype Response = Response(status: int, body: Body)

  /** `sheetsError.code || 500`: a missing or zero code gives 500. */
  function ErrorStatus(code: Option<int>): (status: int)
    ensures status != 0
    ensures code.Some? && code.value != 0 ==> status == code.value
    ensures (code.None? || code.value == 0) ==> status == DefaultErrorStatus
  {
    match code
    case Some(c) => if c != 0 then c else DefaultErrorStatus
    case None => DefaultErrorStatus
  }

  /** `!spreadsheetId`: the id is undefined or empty. */
  predicate Unconfigured(spreadsheetId: Option<string>) {
    spreadsheetId.None? || spreadsheetId.value == ""
  }

  /** `GET`: a configuration error, the error of a failed read, or the market tab's data. */
  function Get(spreadsheetId: Option<string>, fetched: Result<Responses, SheetsError>,
               parseInt: string -> Option<int>, parseFloat: string -> Option<real>): (r: Response)
    ensures Unconfigured(spreadsheetId) ==> r == Response(DefaultErrorStatus, ErrorBody(MissingIdMessage, None, None))
    ensures !Unconfigured(spreadsheetId) && fetched.Failure? ==>
              && r.body == ErrorBody(FetchFailedMessage, fetched.error.message, Some(r.status))
              && r.status == ErrorStatus(fetched.error.code)
    ensures !Unconfigured(spreadsheetId) && fetched.Success? ==>
              && r.status == OkStatus && r.body.MarketTab?
              && r.body.sections == MarketSections(NormalizeSections(fetched.value.sections, parseInt))
              && r.body.sectionData == MarketSectionData(NormalizeData(fetched.value.sectionData, parseFloat), r.body.sections)
    ensures r.body.MarketTab? <==> !Unconfigured(spreadsheetId) && fetched.Success?
  {
    if Unconfigured(spreadsheetId) then
      Response(DefaultErrorStatus, ErrorBody(MissingIdMessage, None, None))
    else
      match fetched
      case Failure(e) =>
        var status := ErrorStatus(e.code);
        Response(status, ErrorBody(FetchFailedMessage, e.message, Some(status)))
      case Success(responses) =>
        var sections := MarketSections(NormalizeSections(responses.sections, parseInt));
        var data := MarketSectionData(NormalizeData(responses.sectionData, parseFloat), sections);
        Response(OkStatus, MarketTab(sections, data))
  }

  /** The tabs range is read but its rows are never used. */
  lemma GetIgnoresTabs(spreadsheetId: Option<string>, tabs1: Option<seq<Row>>, tabs2: Option<seq<Row>>,
                       sections: Option<seq<Row>>, data: Option<seq<Row>>,
                       parseInt: string -> Option<int>, parseFloat: string -> Option<real>)
    ensures Get(spreadsheetId, Success(Responses(tabs1, sections, data)), parseInt, parseFloat)
         == Get(spreadsheetId, Success(Responses(tabs2, sections, data)), parseInt, parseFloat)
  {
  }
}
