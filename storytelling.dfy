/**
 * The storytelling page: which section the page marks as current while the reader scrolls.
 * The first section, in page order, whose top edge lies in the upper half of the window
 * becomes current; if none does, the current section stays as it was.
 */
module Storytelling {
  import opened Wrappers

  /** The ids of the page's sections, in the order the scroll handler checks them. */
  const Sections: seq<string> := ["hero", "section1", "section2", "section3", "section4", "thanks"]

  /**
   * A section whose element exists and whose top edge is `top` pixels below the top of a
   * window `innerHeight` high is in view when `0 <= top <= innerHeight / 2`; the halving is
   * exact, so the second bound is written as `2 * top <= innerHeight`; for whole-pixel tops
   * that is the same as comparing with the rounded-down half.
   */
  predicate InView(top: Option<int>, innerHeight: int)
    ensures InView(top, innerHeight) <==> top.Some? && 0 <= top.value <= innerHeight / 2
  {
    top.Some? && 0 <= top.value && 2 * top.value <= innerHeight
  }

  /** The index of the first section in view, given the sections' tops in page order. */
  function FirstInView(tops: seq<Option<int>>, innerHeight: int): (r: Option<nat>)
    ensures r.Some? ==> r.value < |tops| && InView(tops[r.value], innerHeight)
    ensures r.Some? ==> forall j :: 0 <= j < r.value ==> !InView(tops[j], innerHeight)
    ensures r.None? <==> forall j :: 0 <= j < |tops| ==> !InView(tops[j], innerHeight)
  {
    if tops == [] then None
    else if InView(tops[0], innerHeight) then Some(0)
    else
      match FirstInView(tops[1..], innerHeight)
      case None => None
      case Some(k) => Some(k + 1)
  }

  /** The first section in view is the only one that is in view with none in view before it. */
  lemma FirstInViewIsEarliest(tops: seq<Option<int>>, innerHeight: int, k: nat)
    requires k < |tops| && InView(tops[k], innerHeight)
    requires forall j :: 0 <= j < k ==> !InView(tops[j], innerHeight)
    ensures FirstInView(tops, innerHeight) == Some(k)
  {
  }

  /** Both bounds are inclusive, and a section above the top of the window is not in view. */
  lemma InViewBounds(top: int, innerHeight: int)
    ensures 0 <= innerHeight ==> InView(Some(0), innerHeight)
    ensures InView(Some(top), 2 * top) <==> 0 <= top
    ensures top < 0 ==> !InView(Some(top), innerHeight)
    ensures !InView(None, innerHeight)
  {
  }

  /** A section whose element is missing is passed over and the search goes on behind it. */
  lemma MissingSectionSkipped(tops: seq<Option<int>>, innerHeight: int)
    requires tops != [] && tops[0].None?
    ensures FirstInView(tops, innerHeight) ==
            (match FirstInView(tops[1..], innerHeight) case None => None case Some(k) => Some(k + 1))
  {
  }

  /** The page's state that the model keeps: the id of the current section. */
  class StorytellingPage {
    var currentSection: string

    /** The page starts at the hero section. */
    constructor()
      ensures currentSection == "hero"
    {
      currentSection := "hero";
    }

    /**
     * The scroll listener. `tops[i]` is the top edge of the element with id `Sections[i]`,
     * or None if the page has no such element.
     */
    method HandleScroll(tops: seq<Option<int>>, innerHeight: int)
      requires |tops| == |Sections|
      modifies this
      ensures FirstInView(tops, innerHeight).Some? ==> currentSection == Sections[FirstInView(tops, innerHeight).value]
      ensures FirstInView(tops, innerHeight).None? ==> currentSection == old(currentSection)
      ensures currentSection in Sections || currentSection == old(currentSection)
    {
      var i := 0;
      while i < |Sections|
        invariant 0 <= i <= |Sections|
        invariant forall j :: 0 <= j < i ==> !InView(tops[j], innerHeight)
        invariant currentSection == old(currentSection)
      {
        var top := tops[i];
        if top.Some? {
          if top.value >= 0 && top.value * 2 <= innerHeight {
            currentSection := Sections[i];
            FirstInViewIsEarliest(tops, innerHeight, i);
            break;
          }
        }
        i := i + 1;
      }
    }
  }
}
