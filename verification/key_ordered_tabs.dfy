/** The channel-breakdown and retailer-deep-dives tabs
    (src/components/tabs/ChannelBreakdownTab.tsx,
    src/components/tabs/RetailerDeepDivesTab.tsx). Both run the same pipeline
    with their own tab id and render sections themselves: a section's rows are
    ordered by key, and chart values are parsed with no fallback. */
module KeyOrderedTabs {
  import opened Wrappers
  import opened Seqs
  import opened StableSort
  import opened KeyOrder
  import opened Dashboard
  import opened Selection
  import SectionRenderer

  const ChannelBreakdownTabId := "channel-breakdown"
  const RetailerDeepDivesTabId := "retailer-deep-dives"

  /** `sectionData.filter(item => item.sectionId === sectionId)`. */
  function RowsOf(sectionId: string, data: seq<SectionData>): seq<SectionData> {
    Filter(data, (d: SectionData) => d.sectionId == sectionId)
  }

  /** The section's rows sorted by key, rows with equal keys in input order. */
  function KeyOrderedRows(sectionId: string, data: seq<SectionData>): (r: seq<SectionData>)
    ensures forall d :: d in r <==> d in data && d.sectionId == sectionId
    ensures forall d :: multiset(r)[d] == if d.sectionId == sectionId then multiset(data)[d] else 0
    ensures forall i, j :: 0 <= i < j < |r| ==> LexLe(r[i].key, r[j].key)
    ensures forall y :: Ties(r, y, RowKeyOrder) == Ties(RowsOf(sectionId, data), y, RowKeyOrder)
  {
    var r := SortBy(RowsOf(sectionId, data), RowKeyOrder);
    RowKeyOrderIsTotalPreorder();
    SortByCharacterization(RowsOf(sectionId, data), RowKeyOrder);
    r
  }

  /** Rows tied under the key order have equal keys, so stability means: rows
      sharing a key keep their input order. */
  lemma TiesShareKey(rows: seq<SectionData>, y: SectionData, d: SectionData)
    requires d in Ties(rows, y, RowKeyOrder)
    ensures d.key == y.key
  {
    LexLeAntisymmetric(d.key, y.key);
  }

  /** The plotted rows: every row except `intro`; overlay labels stay in. */
  function NonIntroRows(rows: seq<SectionData>): seq<SectionData> {
    Filter(rows, (d: SectionData) => d.key != SectionRenderer.IntroKey)
  }

  /** `renderSection(slide, section)`; `None` where it returns `null`. */
  function RenderSection(slide: Slide, section: Section, data: seq<SectionData>,
                         parseFloat: string -> Option<real>): (r: Option<Block>)
    ensures r.Some? <==> section.sectionType in {"chart", "text", "list"}
    ensures r.Some? && section.sectionType == "text" ==>
              r.value == TextBlock(Lines(SectionRenderer.LinesOf(KeyOrderedRows(section.sectionId, data))))
    ensures r.Some? && section.sectionType == "list" ==>
              r.value == ListBlock(section.sectionTitle,
                                   Lines(SectionRenderer.LinesOf(KeyOrderedRows(section.sectionId, data))))
    // Chart: always a bar chart, one point per non-intro row, in key order,
    // with the raw parse (None for NaN) as its value.
    ensures r.Some? && section.sectionType == "chart" ==>
              var rows := KeyOrderedRows(section.sectionId, data);
              var plotted := NonIntroRows(rows);
              && r.value.ChartBlock?
              && r.value.caption == SectionRenderer.Caption(rows)
              && r.value.chart.Bars?
              && |r.value.chart.points| == |plotted|
              && (forall i :: 0 <= i < |plotted| ==>
                    r.value.chart.points[i] == Point(plotted[i].key, parseFloat(plotted[i].value)))
              && r.value.insight == ShownIfNonEmpty(slide.slideInsight)
  {
    var rows := KeyOrderedRows(section.sectionId, data);
    if section.sectionType == "chart" then
      var plotted := NonIntroRows(rows);
      var points := seq(|plotted|, i requires 0 <= i < |plotted| =>
                          Point(plotted[i].key, parseFloat(plotted[i].value)));
      Some(ChartBlock(SectionRenderer.Caption(rows), Bars(points), ShownIfNonEmpty(slide.slideInsight)))
    else if section.sectionType == "text" then
      Some(TextBlock(Lines(SectionRenderer.LinesOf(rows))))
    else if section.sectionType == "list" then
      Some(ListBlock(section.sectionTitle, Lines(SectionRenderer.LinesOf(rows))))
    else None
  }

  /** The card of one slide: title, subtitle, its selected sections'
      renderings in order, and the footer when it is non-empty. */
  function SlideCard(slide: Slide, sections: seq<Section>, data: seq<SectionData>,
                     parseFloat: string -> Option<real>): (c: Card)
    ensures c.slideId == slide.slideId && c.title == slide.slideTitle && c.subtitle == slide.slideSubtitle
    ensures c.body.SectionsBody?
    ensures |c.body.blocks| == |SectionsForSlide(slide.slideId, sections)|
    ensures forall j :: 0 <= j < |c.body.blocks| ==>
              c.body.blocks[j] == RenderSection(slide, SectionsForSlide(slide.slideId, sections)[j], data, parseFloat)
    ensures c.body.footer == ShownIfNonEmpty(slide.slideFooter)
  {
    var secs := SectionsForSlide(slide.slideId, sections);
    Card(slide.slideId, slide.slideTitle, slide.slideSubtitle,
         SectionsBody(seq(|secs|, j requires 0 <= j < |secs| => RenderSection(slide, secs[j], data, parseFloat)),
                      ShownIfNonEmpty(slide.slideFooter)))
  }

  /** The cards of a key-ordered tab: one per selected slide, in order. */
  function KeyOrderedTab(tabId: string, slides: seq<Slide>, sections: seq<Section>,
                         data: seq<SectionData>, parseFloat: string -> Option<real>): (r: seq<Card>)
    ensures |r| == |SelectForTab(tabId, slides)|
    ensures forall i :: 0 <= i < |r| ==> r[i] == SlideCard(SelectForTab(tabId, slides)[i], sections, data, parseFloat)
  {
    var selected := SelectForTab(tabId, slides);
    seq(|selected|, i requires 0 <= i < |selected| => SlideCard(selected[i], sections, data, parseFloat))
  }

  function ChannelBreakdownTab(slides: seq<Slide>, sections: seq<Section>, data: seq<SectionData>,
                               parseFloat: string -> Option<real>): (r: seq<Card>)
    ensures |r| == |ActiveOnTab(ChannelBreakdownTabId, slides)|
    ensures forall i :: 0 <= i < |r| ==> r[i] == SlideCard(SelectForTab(ChannelBreakdownTabId, slides)[i], sections, data, parseFloat)
    ensures forall c :: c in r ==> exists s :: s in slides && s.tabId == ChannelBreakdownTabId && s.isActive
                                            && c == SlideCard(s, sections, data, parseFloat)
  {
    KeyOrderedTab(ChannelBreakdownTabId, slides, sections, data, parseFloat)
  }

  function RetailerDeepDivesTab(slides: seq<Slide>, sections: seq<Section>, data: seq<SectionData>,
                                parseFloat: string -> Option<real>): (r: seq<Card>)
    ensures |r| == |ActiveOnTab(RetailerDeepDivesTabId, slides)|
    ensures forall i :: 0 <= i < |r| ==> r[i] == SlideCard(SelectForTab(RetailerDeepDivesTabId, slides)[i], sections, data, parseFloat)
    ensures forall c :: c in r ==> exists s :: s in slides && s.tabId == RetailerDeepDivesTabId && s.isActive
                                            && c == SlideCard(s, sections, data, parseFloat)
  {
    KeyOrderedTab(RetailerDeepDivesTabId, slides, sections, data, parseFloat)
  }
}
