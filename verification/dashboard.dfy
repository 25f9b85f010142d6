/** The records the dashboard tabs receive (src/types/dashboard.ts), the
    comparators the tabs sort them with, and the rendered structure of a tab:
    captions, chart points, paragraphs and list items instead of markup. */
module Dashboard {
  import opened Wrappers
  import StableSort
  import KeyOrder

  datatype Slide = Slide(
    slideId: string,
    tabId: string,
    slideTitle: string,
    slideSubtitle: string,
    slideInsight: string,
    slideFooter: string,
    sortOrder: int,
    isActive: bool)

  datatype Section = Section(
    sectionId: string,
    slideId: string,
    sectionType: string,
    sectionTitle: string,
    sortOrder: int,
    isActive: bool)

  /** One (section, key, value) row. `originalRowIndex` is not declared by the
      shared type, but the shared renderer sorts on it, so it is part of the record. */
  datatype SectionData = SectionData(
    sectionId: string,
    key: string,
    value: string,
    originalRowIndex: int)

  datatype GlobalString = GlobalString(key: string, value: string)

  /** Comparator `(a, b) => a.sortOrder - b.sortOrder` on slides, as "a <= b". */
  predicate SlideOrder(a: Slide, b: Slide) {
    a.sortOrder <= b.sortOrder
  }

  /** Comparator `(a, b) => a.sortOrder - b.sortOrder` on sections. */
  predicate SectionOrder(a: Section, b: Section) {
    a.sortOrder <= b.sortOrder
  }

  /** Comparator `(a, b) => a.originalRowIndex - b.originalRowIndex`. */
  predicate RowIndexOrder(a: SectionData, b: SectionData) {
    a.originalRowIndex <= b.originalRowIndex
  }

  /** Comparator `(a, b) => a.key.localeCompare(b.key)`. */
  predicate RowKeyOrder(a: SectionData, b: SectionData) {
    KeyOrder.LexLe(a.key, b.key)
  }

  lemma SlideOrderIsTotalPreorder()
    ensures StableSort.TotalPreorder(SlideOrder)
  {
  }

  lemma SectionOrderIsTotalPreorder()
    ensures StableSort.TotalPreorder(SectionOrder)
  {
  }

  lemma RowIndexOrderIsTotalPreorder()
    ensures StableSort.TotalPreorder(RowIndexOrder)
  {
  }

  lemma RowKeyOrderIsTotalPreorder()
    ensures StableSort.TotalPreorder(RowKeyOrder)
  {
    forall a, b
      ensures RowKeyOrder(a, b) || RowKeyOrder(b, a)
    {
      KeyOrder.LexLeTotal(a.key, b.key);
    }
    forall a, b, c | RowKeyOrder(a, b) && RowKeyOrder(b, c)
      ensures RowKeyOrder(a, c)
    {
      KeyOrder.LexLeTransitive(a.key, b.key, c.key);
    }
  }

  // ---- Rendered structure ----

  /** One bar of a bar chart. `value` is `None` where the source would plot `NaN`. */
  datatype Point = Point(name: string, value: Option<real>)

  /** The body of a text or list section: its entries, or the "no content"
      notice some renderers show in place of an empty list. */
  datatype Body = Lines(lines: seq<string>) | Notice(message: string)

  /** The chart of a chart section, or the "no chart data" notice. */
  datatype Chart = Bars(points: seq<Point>) | NoChartData

  /** What one section renders. A section that renders `null` is `None` at the
      use site, so it does not appear here. */
  datatype Block =
    | ChartBlock(caption: Option<string>, chart: Chart, insight: Option<string>)
    | TextBlock(body: Body)
    | ListBlock(title: string, body: Body)

  /** The content of a slide card. */
  datatype CardBody =
    | SectionsBody(blocks: seq<Option<Block>>, footer: Option<string>)
      /** The fixed introduction of the welcome tab, followed by the footer. */
    | WelcomeBody(footer: Option<string>)
      /** The fixed benchmark content that later best-in-class slides show. */
    | FixedBenchmarkBody

  datatype Card = Card(slideId: string, title: string, subtitle: string, body: CardBody)

  /** `{text && <...>{text}</...>}`: shown only when the text is non-empty. */
  function ShownIfNonEmpty(text: string): (r: Option<string>)
    ensures r.Some? <==> text != ""
    ensures r.Some? ==> r.value == text
  {
    if text != "" then Some(text) else None
  }
}
