/** The welcome tab (src/components/tabs/WelcomeTab.tsx): one card of fixed
    introduction per selected slide, with the slide's footer when non-empty. */
module WelcomeTab {
  import opened Dashboard
  import opened Selection

  const WelcomeTabId := "welcome"

  /** `globalStrings` is accepted and never read. */
  function WelcomeTab(slides: seq<Slide>, globalStrings: seq<GlobalString>): (r: seq<Card>)
    ensures |r| == |ActiveOnTab(WelcomeTabId, slides)|
    ensures forall i :: 0 <= i < |r| ==>
              var slide := SelectForTab(WelcomeTabId, slides)[i];
              && r[i].slideId == slide.slideId
              && r[i].title == slide.slideTitle
              && r[i].subtitle == slide.slideSubtitle
              && r[i].body.WelcomeBody?
              && r[i].body.footer == ShownIfNonEmpty(slide.slideFooter)
  {
    var selected := SelectForTab(WelcomeTabId, slides);
    seq(|selected|, i requires 0 <= i < |selected| =>
      Card(selected[i].slideId, selected[i].slideTitle, selected[i].slideSubtitle,
           WelcomeBody(ShownIfNonEmpty(selected[i].slideFooter))))
  }

  /** The cards depend on the slides alone. */
  lemma WelcomeIgnoresGlobalStrings(slides: seq<Slide>, g1: seq<GlobalString>, g2: seq<GlobalString>)
    ensures WelcomeTab(slides, g1) == WelcomeTab(slides, g2)
  {
  }
}
