/**
 * The banner pager both launcher pages rotate every five seconds: a pips pager with a selected page
 * and a page count, advanced by the dispatcher timer while there are banners to show.
 */
module Carousel {
  import opened Wrappers
  import UiRules

  class PipsPager {
    var selectedPageIndex: int
    var numberOfPages: int

    constructor (numberOfPages: int)
      ensures selectedPageIndex == 0 && this.numberOfPages == numberOfPages
    {
      selectedPageIndex := 0;
      this.numberOfPages := numberOfPages;
    }

    /**
     * The timer tick. `bannerCount` is the size of the banner list, `None` while it is null. With
     * banners the pager moves to the next page, wrapping around; a pager with no pages makes the
     * remainder throw, which the tick swallows.
     */
    method Tick(bannerCount: Option<nat>)
      modifies this`selectedPageIndex
      ensures bannerCount.None? || bannerCount.value == 0 || numberOfPages == 0 ==>
        selectedPageIndex == old(selectedPageIndex)
      ensures bannerCount.Some? && bannerCount.value > 0 && numberOfPages > 0 && -1 <= old(selectedPageIndex) ==>
        0 <= selectedPageIndex < numberOfPages
      ensures bannerCount.Some? && bannerCount.value > 0 && 0 < numberOfPages && -1 <= old(selectedPageIndex) < numberOfPages ==>
        selectedPageIndex == (old(selectedPageIndex) + 1) % numberOfPages
    {
      if bannerCount.Some? && bannerCount.value > 0 && numberOfPages != 0 {
        selectedPageIndex := UiRules.NextPageIndex(selectedPageIndex, numberOfPages);
        if 0 <= old(selectedPageIndex) < numberOfPages {
          UiRules.AdvanceIsModular(old(selectedPageIndex), numberOfPages, 1);
        }
      }
    }

    /** As many ticks as there are pages bring a pager with banners back to the page it showed. */
    method TickRound(bannerCount: Option<nat>)
      requires bannerCount.Some? && bannerCount.value > 0
      requires 0 <= selectedPageIndex < numberOfPages
      modifies this`selectedPageIndex
      ensures selectedPageIndex == old(selectedPageIndex)
    {
      ghost var start := selectedPageIndex;
      var i := 0;
      while i < numberOfPages
        invariant 0 <= i <= numberOfPages
        invariant selectedPageIndex == UiRules.Advance(start, numberOfPages, i)
        invariant 0 <= selectedPageIndex < numberOfPages
      {
        Tick(bannerCount);
        i := i + 1;
      }
      UiRules.FullRotation(start, numberOfPages);
    }
  }
}
