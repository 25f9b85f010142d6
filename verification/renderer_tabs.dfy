/** The tabs that hand every section to the shared renderer without a selected
    metric: advertiser categories and country potential
    (src/components/tabs/AdvertiserCategoriesTab.tsx,
    src/components/tabs/CountryPotentialTab.tsx), and best in class
    (src/components/tabs/BestInClassTab.tsx), where only the first slide
    renders its sections. */
module RendererTabs {
  import opened Wrappers
  import opened Dashboard
  import opened Selection
  import SectionRenderer

  const AdvertiserCategoriesTabId := "advertiser-categories"
  const CountryPotentialTabId := "country-potential"
  const BestInClassTabId := "best-in-class"

  /** The typed `sectionData` array, as the shared renderer receives it: present,
      with no null items. */
  function AsProp(data: seq<SectionData>): (r: Option<seq<Option<SectionData>>>)
    ensures r.Some? && |r.value| == |data|
    ensures forall i :: 0 <= i < |data| ==> r.value[i] == Some(data[i])
  {
    Some(seq(|data|, i requires 0 <= i < |data| => Some(data[i])))
  }

  /** The card of one slide whose sections go through `SectionRenderer` with the
      whole `sectionData` and no `selectedMetric`, followed by the footer when
      it is non-empty. */
  function RendererSlideCard(slide: Slide, sections: seq<Section>, data: seq<SectionData>,
                             parseFloat: string -> Option<real>): (c: Card)
    ensures c.slideId == slide.slideId && c.title == slide.slideTitle && c.subtitle == slide.slideSubtitle
    ensures c.body.SectionsBody?
    ensures |c.body.blocks| == |SectionsForSlide(slide.slideId, sections)|
    ensures forall j :: 0 <= j < |c.body.blocks| ==>
              c.body.blocks[j] == SectionRenderer.Render(SectionsForSlide(slide.slideId, sections)[j], slide,
                                                         AsProp(data), None, parseFloat)
    ensures c.body.footer == ShownIfNonEmpty(slide.slideFooter)
  {
    var secs := SectionsForSlide(slide.slideId, sections);
    Card(slide.slideId, slide.slideTitle, slide.slideSubtitle,
         SectionsBody(seq(|secs|, j requires 0 <= j < |secs| =>
                            SectionRenderer.Render(secs[j], slide, AsProp(data), None, parseFloat)),
                      ShownIfNonEmpty(slide.slideFooter)))
  }

  /** Without a selected metric the renderer plots every non-intro, non-overlay
      row of the section, so the tabs never window a chart. */
  lemma NoMetricPlotsAllRows(section: Section, slide: Slide, data: seq<SectionData>,
                             parseFloat: string -> Option<real>)
    requires section.sectionType == "chart"
    ensures var b := SectionRenderer.Render(section, slide, AsProp(data), None, parseFloat);
            var rows := SectionRenderer.SelectRows(section.sectionId, AsProp(data).value);
            && b.Some? && b.value.ChartBlock?
            && (b.value.chart.Bars? ==> |b.value.chart.points| == |SectionRenderer.PlottedRows(rows)|)
            && (b.value.chart.NoChartData? <==> |SectionRenderer.PlottedRows(rows)| == 0)
  {
  }

  /** One card per selected slide, in order, each rendered by the shared renderer. */
  function RendererTab(tabId: string, slides: seq<Slide>, sections: seq<Section>,
                       data: seq<SectionData>, parseFloat: string -> Option<real>): (r: seq<Card>)
    ensures |r| == |ActiveOnTab(tabId, slides)|
    ensures forall i :: 0 <= i < |r| ==>
              r[i] == RendererSlideCard(SelectForTab(tabId, slides)[i], sections, data, parseFloat)
  {
    var selected := SelectForTab(tabId, slides);
    seq(|selected|, i requires 0 <= i < |selected| => RendererSlideCard(selected[i], sections, data, parseFloat))
  }

  function AdvertiserCategoriesTab(slides: seq<Slide>, sections: seq<Section>, data: seq<SectionData>,
                                   parseFloat: string -> Option<real>): (r: seq<Card>)
    ensures |r| == |ActiveOnTab(AdvertiserCategoriesTabId, slides)|
    ensures forall i :: 0 <= i < |r| ==> r[i] == RendererSlideCard(SelectForTab(AdvertiserCategoriesTabId, slides)[i], sections, data, parseFloat)
    ensures forall c :: c in r ==> exists s :: s in slides && s.tabId == AdvertiserCategoriesTabId && s.isActive
                                            && c == RendererSlideCard(s, sections, data, parseFloat)
  {
    RendererTab(AdvertiserCategoriesTabId, slides, sections, data, parseFloat)
  }

  function CountryPotentialTab(slides: seq<Slide>, sections: seq<Section>, data: seq<SectionData>,
                               parseFloat: string -> Option<real>): (r: seq<Card>)
    ensures |r| == |ActiveOnTab(CountryPotentialTabId, slides)|
    ensures forall i :: 0 <= i < |r| ==> r[i] == RendererSlideCard(SelectForTab(CountryPotentialTabId, slides)[i], sections, data, parseFloat)
    ensures forall c :: c in r ==> exists s :: s in slides && s.tabId == CountryPotentialTabId && s.isActive
                                            && c == RendererSlideCard(s, sections, data, parseFloat)
  {
    RendererTab(CountryPotentialTabId, slides, sections, data, parseFloat)
  }

  /** Best in class: the first selected slide renders its sections and footer;
      every later slide shows the fixed benchmark content instead. */
  function BestInClassTab(slides: seq<Slide>, sections: seq<Section>, data: seq<SectionData>,
                          parseFloat: string -> Option<real>): (r: seq<Card>)
    ensures |r| == |ActiveOnTab(BestInClassTabId, slides)|
    ensures |r| > 0 ==> r[0] == RendererSlideCard(SelectForTab(BestInClassTabId, slides)[0], sections, data, parseFloat)
    ensures forall i :: 0 < i < |r| ==>
              var slide := SelectForTab(BestInClassTabId, slides)[i];
              r[i] == Card(slide.slideId, slide.slideTitle, slide.slideSubtitle, FixedBenchmarkBody)
  {
    var selected := SelectForTab(BestInClassTabId, slides);
    seq(|selected|, i requires 0 <= i < |selected| =>
      if i == 0 then RendererSlideCard(selected[i], sections, data, parseFloat)
      else Card(selected[i].slideId, selected[i].slideTitle, selected[i].slideSubtitle, FixedBenchmarkBody))
  }

  /** Slides after the first ignore sections and section data entirely. */
  lemma {:induction false} BestInClassLaterSlidesIgnoreSections(
    slides: seq<Slide>, sections1: seq<Section>, sections2: seq<Section>,
    data1: seq<SectionData>, data2: seq<SectionData>, parseFloat: string -> Option<real>, i: nat)
    requires 0 < i < |ActiveOnTab(BestInClassTabId, slides)|
    ensures BestInClassTab(slides, sections1, data1, parseFloat)[i] == BestInClassTab(slides, sections2, data2, parseFloat)[i]
  {
  }
}
