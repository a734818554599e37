/** The first-run pager: three slides, a Next button that pages forward and finally opens
    Login, a Skip button, and the pagination dots. */
module Onboarding {
  import opened Common

  /** A slide's content. */
  datatype Slide = Slide(id: int, title: string, description: string, icon: string, color: Color)

  const Slides: seq<Slide> := [
    Slide(1, "Report Waste Easily",
          "Take a photo and report waste issues in your community with just a few taps",
          "camera-outline", Primary),
    Slide(2, "Join Cleanup Tasks",
          "Find and join cleanup tasks in your area. Make a difference together",
          "people-outline", Secondary),
    Slide(3, "Earn Money & Rewards",
          "Get paid for your contributions and earn badges for your achievements",
          "card-outline", Accent)
  ]

  /** The index of the last slide. */
  const LastIndex: int := |Slides| - 1

  /** What Next does: scroll the pager to a slide, or leave for another screen. */
  datatype NextAction = ScrollTo(slide: int) | Leave(nav: Nav)

  /** `handleNext`: before the last slide it scrolls to the following one; from the last
      slide (or any index past it) it replaces the route with Login. */
  function NextFrom(currentIndex: int): (a: NextAction)
    ensures a.ScrollTo? <==> currentIndex < LastIndex
    ensures a.ScrollTo? ==> a.slide == currentIndex + 1
    ensures a.Leave? ==> a.nav == Replace("Login")
  {
    if currentIndex < |Slides| - 1 then ScrollTo(currentIndex + 1) else Leave(Replace("Login"))
  }

  /** `handleSkip`: Login, from anywhere. */
  function Skip(currentIndex: int): (nav: Nav)
    ensures nav == Replace("Login")
  {
    Replace("Login")
  }

  /** The Next button's text. */
  function NextLabel(currentIndex: int): (caption: string)
    ensures caption == "Get Started" <==> currentIndex == LastIndex
    ensures caption == "Next" <==> currentIndex != LastIndex
  {
    if currentIndex == |Slides| - 1 then "Get Started" else "Next"
  }

  /** The Next button's icon. */
  function NextIcon(currentIndex: int): (icon: string)
    ensures icon == "checkmark" <==> currentIndex == LastIndex
    ensures icon == "arrow-forward" <==> currentIndex != LastIndex
  {
    if currentIndex == |Slides| - 1 then "checkmark" else "arrow-forward"
  }

  /** On a slide of the pager the button tells what it does: it reads 'Get Started' with a
      checkmark exactly when pressing it leaves for Login. */
  lemma LabelMatchesAction(i: int)
    requires 0 <= i < |Slides|
    ensures NextLabel(i) == "Get Started" <==> NextFrom(i).Leave?
    ensures NextIcon(i) == "checkmark" <==> NextFrom(i).Leave?
  {
  }

  /** Past the last slide (an over-scroll rounded up) the button reads 'Next' but leaves. */
  lemma PastLastSlide()
    ensures NextLabel(LastIndex + 1) == "Next" && NextFrom(LastIndex + 1) == Leave(Replace("Login"))
  {
  }

  /** Pressing Next from the first slide, each scroll landing on its target, reaches Login
      on the third press. */
  lemma NextWalksThePager()
    ensures NextFrom(0) == ScrollTo(1)
    ensures NextFrom(NextFrom(0).slide) == ScrollTo(2)
    ensures NextFrom(NextFrom(NextFrom(0).slide).slide) == Leave(Replace("Login"))
  {
  }

  /** The pagination dots: one per slide, active at the current index. */
  function Dots(currentIndex: int): (dots: seq<bool>)
    ensures |dots| == |Slides|
  {
    seq(|Slides|, k requires 0 <= k < |Slides| => k == currentIndex)
  }

  predicate IsActive(b: bool) { b }

  /** Exactly one dot is active, the one at the current index, when it is a slide's index;
      none otherwise. */
  lemma {:induction false} ExactlyOneActiveDot(currentIndex: int)
    ensures 0 <= currentIndex < |Slides| ==> Count(Dots(currentIndex), IsActive) == 1
    ensures 0 <= currentIndex < |Slides| ==> Dots(currentIndex)[currentIndex]
    ensures !(0 <= currentIndex < |Slides|) ==> Count(Dots(currentIndex), IsActive) == 0
  {
    var d := Dots(currentIndex);
    assert d == [d[0]] + [d[1]] + [d[2]];
    FilterConcat([d[0]] + [d[1]], [d[2]], IsActive);
    FilterConcat([d[0]], [d[1]], IsActive);
  }

  /** The pager's state. */
  class OnboardingScreen {
    var currentIndex: int

    constructor ()
      ensures currentIndex == 0
    {
      currentIndex := 0;
    }

    /** `handleScroll`: the index the scroll position rounds to becomes current. */
    method HandleScroll(index: int)
      modifies this
      ensures currentIndex == index
    {
      currentIndex := index;
    }

    /** `handleNext`. The index itself changes only through the scroll that follows. */
    method HandleNext() returns (a: NextAction)
      ensures a == NextFrom(currentIndex)
    {
      if currentIndex < |Slides| - 1 {
        a := ScrollTo(currentIndex + 1);
      } else {
        a := Leave(Replace("Login"));
      }
    }

    /** `handleSkip`. */
    method HandleSkip() returns (nav: Nav)
      ensures nav == Skip(currentIndex)
    {
      nav := Replace("Login");
    }
  }
}
