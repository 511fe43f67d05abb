/**
  The onboarding pager: four slides tagged 0 to 3, a Next button that becomes "Get Started" on
  the last slide, a Skip button, and a row of page dots.
*/
module Onboarding {

  const PageCount: int := 4
  const LastPage: int := 3

  /** `currentPage` and `isActive` together. */
  datatype Pager = Pager(page: int, active: bool)

  /** The Next / Get Started button. */
  function NextPressed(p: Pager): Pager
  {
    if p.page < LastPage then p.(page := p.page + 1) else p.(active := true)
  }

  /** n presses of Next. */
  function NextPressedN(p: Pager, n: nat): Pager
    decreases n
  {
    if n == 0 then p else NextPressedN(NextPressed(p), n - 1)
  }

  /** The Skip button. */
  function SkipPressed(p: Pager): Pager
  {
    p.(active := true)
  }

  lemma NextKeepsPageInRange(p: Pager)
    requires 0 <= p.page <= LastPage
    ensures 0 <= NextPressed(p).page <= LastPage
    ensures NextPressed(p).active <==> p.active || p.page == LastPage
  {
  }

  /** From the first slide, Next walks through the slides and activates on the fourth press. */
  lemma {:induction false} NextFromFirstSlide(n: nat)
    ensures NextPressedN(Pager(0, false), n) == Pager(if n < LastPage then n else LastPage, n > LastPage)
  {
    NextPressedFrom(Pager(0, false), n);
  }

  lemma {:induction false} NextPressedFrom(p: Pager, n: nat)
    requires 0 <= p.page <= LastPage
    ensures NextPressedN(p, n).page == if p.page + n < LastPage then p.page + n else LastPage
    ensures NextPressedN(p, n).active <==> p.active || p.page + n > LastPage
    decreases n
  {
    if n > 0 {
      NextPressedFrom(NextPressed(p), n - 1);
    }
  }

  /** The button's caption. */
  function ButtonLabel(page: int): (caption: string)
    ensures caption == "Get Started" <==> page == LastPage
    ensures caption != "Get Started" ==> caption == "Next"
  {
    if page == LastPage then "Get Started" else "Next"
  }

  /** `PageIndicator`: one dot per page, highlighted when its index is the current page. */
  function PageIndicator(totalPages: nat, currentPage: int): (dots: seq<bool>)
    ensures |dots| == totalPages
    ensures forall i :: 0 <= i < totalPages ==> (dots[i] <==> i == currentPage)
  {
    seq(totalPages, i => i == currentPage)
  }

  function CountHighlighted(dots: seq<bool>): nat
    decreases |dots|
  {
    if dots == [] then 0 else CountHighlighted(dots[..|dots| - 1]) + (if dots[|dots| - 1] then 1 else 0)
  }

  /** Exactly one dot is lit when the current page is in range, none otherwise. */
  lemma {:induction false} OneDotHighlighted(totalPages: nat, currentPage: int)
    ensures CountHighlighted(PageIndicator(totalPages, currentPage)) == if 0 <= currentPage < totalPages then 1 else 0
    decreases totalPages
  {
    if totalPages > 0 {
      var dots := PageIndicator(totalPages, currentPage);
      assert dots[..totalPages - 1] == PageIndicator(totalPages - 1, currentPage);
      OneDotHighlighted(totalPages - 1, currentPage);
    }
  }

  class OnboardingView {
    var currentPage: int
    var isActive: bool

    function State(): Pager
      reads this
    {
      Pager(currentPage, isActive)
    }

    /** Only slide tags are ever selected. */
    ghost predicate Valid()
      reads this
    {
      0 <= currentPage <= LastPage
    }

    constructor ()
      ensures Valid() && State() == Pager(0, false)
    {
      currentPage, isActive := 0, false;
    }

    method Next()
      requires Valid()
      modifies this
      ensures Valid()
      ensures State() == NextPressed(old(State()))
    {
      if currentPage < LastPage {
        currentPage := currentPage + 1;
      } else {
        isActive := true;
      }
    }

    method Skip()
      requires Valid()
      modifies this
      ensures Valid()
      ensures State() == SkipPressed(old(State()))
    {
      isActive := true;
    }

    /** Swiping the pager selects another slide's tag. */
    method SwipeTo(tag: int)
      requires Valid() && 0 <= tag <= LastPage
      modifies this
      ensures Valid()
      ensures State() == old(State()).(page := tag)
    {
      currentPage := tag;
    }

    /** The page dots as drawn: exactly one lit. */
    function Dots(): (dots: seq<bool>)
      reads this
      requires Valid()
      ensures |dots| == PageCount && CountHighlighted(dots) == 1
      ensures dots[currentPage]
    {
      OneDotHighlighted(PageCount, currentPage);
      PageIndicator(PageCount, currentPage)
    }
  }
}
