/**
 * `app/onboarding.tsx`: three slides in a paged scroll view. Next scrolls to
 * the following slide, or leaves for the login page from the last one; Skip
 * always leaves; the last slide also offers a login link.
 */
module AppOnboarding {
  import opened Wrappers

  datatype Slide = Slide(title: string, description: string, icon: string, background: string)

  const Slides: seq<Slide> := [
    Slide("Explore Public Transport",
          "Find buses, trains, and destinations across Sri Lanka with ease", "compass", "#54c502"),
    Slide("Find Routes & Schedules",
          "Real-time schedules and route information at your fingertips", "map", "#86da18"),
    Slide("Save Favorites & Plan",
          "Keep track of your favorite routes and plan your journeys ahead", "heart", "#86da18")
  ]

  /** `router.replace(path)` or `router.push(path)`. */
  datatype Navigation = Replace(path: string) | Push(path: string)

  const LoginPath := "/login"

  /** What `handleNext` does from a slide: scroll to the next slide, or leave for login. */
  datatype NextAction = ScrollTo(slide: int) | LeaveForLogin

  function NextFrom(current: int): (a: NextAction)
    ensures a.ScrollTo? <==> current < |Slides| - 1
    ensures a.ScrollTo? ==> a.slide == current + 1
  {
    if current < |Slides| - 1 then ScrollTo(current + 1) else LeaveForLogin
  }

  /** The slide reached by pressing Next `presses` times from `current`, if login has not been left for. */
  function SlideAfter(current: int, presses: nat): Option<int>
    decreases presses
  {
    if presses == 0 then Some(current)
    else match NextFrom(current)
      case LeaveForLogin => None
      case ScrollTo(i) => SlideAfter(i, presses - 1)
  }

  /** From any slide i, |Slides| - 1 - i presses reach the last slide, and one more leaves for login. */
  lemma {:induction false} NextLeadsToLogin(i: nat)
    requires i < |Slides|
    ensures SlideAfter(i, |Slides| - 1 - i) == Some(|Slides| - 1)
    ensures SlideAfter(i, |Slides| - i) == None
    decreases |Slides| - i
  {
    if i < |Slides| - 1 {
      NextLeadsToLogin(i + 1);
    }
  }

  function ButtonLabel(current: int): (text: string)
    ensures text == "Get Started" <==> current == |Slides| - 1
    ensures text == "Next" <==> current != |Slides| - 1
  {
    if current == |Slides| - 1 then "Get Started" else "Next"
  }

  /** The "Already have an account? Login" block: shown on the last slide only, and it pushes the login page. */
  function LoginLink(current: int): (link: Option<Navigation>)
    ensures link.Some? <==> current == |Slides| - 1
    ensures link.Some? ==> link.value == Push(LoginPath)
  {
    if current == |Slides| - 1 then Some(Push(LoginPath)) else None
  }

  /** The screen's `currentSlide` state. */
  class Onboarding {
    var currentSlide: int

    constructor ()
      ensures currentSlide == 0
    {
      currentSlide := 0;
    }

    /** `handleScroll`, given the slide index the scroll offset rounds to. */
    method HandleScroll(slideIndex: int)
      modifies this
      ensures currentSlide == slideIndex
    {
      currentSlide := slideIndex;
    }

    /** `handleSkip`. */
    method HandleSkip() returns (navigation: Navigation)
      ensures navigation == Replace(LoginPath)
    {
      navigation := Replace(LoginPath);
    }

    /** `handleNext`: the scroll it requests and the navigation it makes. */
    method HandleNext() returns (scrollTo: Option<int>, navigation: Option<Navigation>)
      modifies this
      ensures NextFrom(old(currentSlide)).ScrollTo? ==>
        currentSlide == old(currentSlide) + 1 && scrollTo == Some(currentSlide) && navigation == None
      ensures NextFrom(old(currentSlide)) == LeaveForLogin ==>
        currentSlide == old(currentSlide) && scrollTo == None && navigation == Some(Replace(LoginPath))
    {
      if currentSlide < |Slides| - 1 {
        scrollTo := Some(currentSlide + 1);
        currentSlide := currentSlide + 1;
        navigation := None;
      } else {
        scrollTo := None;
        navigation := Some(Replace(LoginPath));
      }
    }

    function Label(): string
      reads this
    {
      ButtonLabel(currentSlide)
    }

    /** The "already have an account" link under the button, if shown. */
    function ShownLoginLink(): (link: Option<Navigation>)
      reads this
      ensures link.Some? <==> currentSlide == |Slides| - 1
      ensures link.Some? ==> link.value == Push(LoginPath)
    {
      LoginLink(currentSlide)
    }
  }
}
