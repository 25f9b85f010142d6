/** The selection every tab performs: the active slides of one tab in
    `sortOrder` order, and for each slide its active sections in `sortOrder`
    order. Each tab file repeats this pipeline with its own tab id. */
module Selection {
  import opened Seqs
  import opened StableSort
  import opened Dashboard

  /** `slides.filter(slide => slide.tabId === tabId && slide.isActive)`. */
  function ActiveOnTab(tabId: string, slides: seq<Slide>): seq<Slide> {
    Filter(slides, (s: Slide) => s.tabId == tabId && s.isActive)
  }

  /** The filtered slides stable-sorted ascending by `sortOrder`. */
  function SelectForTab(tabId: string, slides: seq<Slide>): (r: seq<Slide>)
    ensures forall x :: x in r <==> x in slides && x.tabId == tabId && x.isActive
    ensures forall x :: multiset(r)[x] == if x.tabId == tabId && x.isActive then multiset(slides)[x] else 0
    ensures Sorted(r, SlideOrder)
    ensures forall y :: Ties(r, y, SlideOrder) == Ties(ActiveOnTab(tabId, slides), y, SlideOrder)
  {
    var r := SortBy(ActiveOnTab(tabId, slides), SlideOrder);
    SlideOrderIsTotalPreorder();
    SortByCharacterization(ActiveOnTab(tabId, slides), SlideOrder);
    r
  }

  /** `sections.filter(section => section.slideId === slideId && section.isActive)`. */
  function ActiveOnSlide(slideId: string, sections: seq<Section>): seq<Section> {
    Filter(sections, (s: Section) => s.slideId == slideId && s.isActive)
  }

  /** The filtered sections stable-sorted ascending by `sortOrder`. */
  function SectionsForSlide(slideId: string, sections: seq<Section>): (r: seq<Section>)
    ensures forall x :: x in r <==> x in sections && x.slideId == slideId && x.isActive
    ensures forall x :: multiset(r)[x] == if x.slideId == slideId && x.isActive then multiset(sections)[x] else 0
    ensures Sorted(r, SectionOrder)
    ensures forall y :: Ties(r, y, SectionOrder) == Ties(ActiveOnSlide(slideId, sections), y, SectionOrder)
  {
    var r := SortBy(ActiveOnSlide(slideId, sections), SectionOrder);
    SectionOrderIsTotalPreorder();
    SortByCharacterization(ActiveOnSlide(slideId, sections), SectionOrder);
    r
  }

  /** Any ordering of the tab's active slides that is sorted by `sortOrder` and
      keeps equal `sortOrder`s in input order is the one the tabs display. */
  lemma SelectForTabIsUnique(tabId: string, slides: seq<Slide>, r: seq<Slide>)
    requires Sorted(r, SlideOrder)
    requires forall y :: Ties(r, y, SlideOrder) == Ties(ActiveOnTab(tabId, slides), y, SlideOrder)
    ensures r == SelectForTab(tabId, slides)
  {
    SlideOrderIsTotalPreorder();
    SortByIsTheStableSort(ActiveOnTab(tabId, slides), r, SlideOrder);
  }
}
