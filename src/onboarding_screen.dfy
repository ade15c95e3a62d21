/**
 * `components/ui/OnboardingScreen.tsx`: three slides, a Next button that
 * advances until the last slide and then completes onboarding, a Skip
 * button that completes from anywhere, and one dot per slide that jumps to it.
 */
module OnboardingScreen {

  datatype Slide = Slide(title: string, description: string, color: string)

  const Slides: seq<Slide> := [
    Slide("Explore Public Transport Easily",
          "Find buses, trains, and destinations across Sri Lanka with real-time updates", "#8D153A"),
    Slide("Find Routes, Destinations, Schedules",
          "Access comprehensive timetables and route information at your fingertips", "#FDB913"),
    Slide("Save Your Favorites & Plan Smooth Trips",
          "Bookmark your frequent routes and plan journeys with confidence", "#00534E")
  ]

  predicate InRange(slide: int)
  {
    0 <= slide < |Slides|
  }

  /** Where the user is: on a slide, or done with onboarding (`onComplete` called). */
  datatype Progress = OnSlide(index: int) | Completed

  /** `handleNext` from a slide: the following slide, or completion from the last one. */
  function Next(current: int): (p: Progress)
    ensures p.OnSlide? <==> current < |Slides| - 1
    ensures p.OnSlide? ==> p.index == current + 1
    ensures InRange(current) && p.OnSlide? ==> InRange(p.index)
  {
    if current < |Slides| - 1 then OnSlide(current + 1) else Completed
  }

  /** Where `presses` presses of Next lead. */
  function AfterPresses(p: Progress, presses: nat): Progress
    decreases presses
  {
    if presses == 0 then p
    else match p
      case Completed => Completed
      case OnSlide(i) => AfterPresses(Next(i), presses - 1)
  }

  /** From any slide, Next reaches the last slide, and one more press completes onboarding. */
  lemma {:induction false} NextReachesEnd(i: int)
    requires InRange(i)
    ensures AfterPresses(OnSlide(i), |Slides| - 1 - i) == OnSlide(|Slides| - 1)
    ensures AfterPresses(OnSlide(i), |Slides| - i) == Completed
    decreases |Slides| - i
  {
    if i < |Slides| - 1 {
      NextReachesEnd(i + 1);
    }
  }

  /** The main button's text. */
  function ButtonLabel(current: int): (text: string)
    ensures text == "Get Started" <==> current == |Slides| - 1
    ensures text == "Next" <==> current != |Slides| - 1
  {
    if current == |Slides| - 1 then "Get Started" else "Next"
  }

  /** The screen's `currentSlide` state. */
  class Onboarding {
    var currentSlide: int

    constructor ()
      ensures currentSlide == 0 && InRange(currentSlide)
    {
      currentSlide := 0;
    }

    /** `handleNext`: advance, or report completion and stay. */
    method HandleNext() returns (completed: bool)
      modifies this
      ensures completed <==> Next(old(currentSlide)) == Completed
      ensures completed ==> currentSlide == old(currentSlide)
      ensures !completed ==> Next(old(currentSlide)) == OnSlide(currentSlide)
      ensures InRange(old(currentSlide)) ==> InRange(currentSlide)
    {
      if currentSlide < |Slides| - 1 {
        currentSlide := currentSlide + 1;
        completed := false;
      } else {
        completed := true;
      }
    }

    /** Skip completes onboarding from any slide. */
    method Skip() returns (completed: bool)
      ensures completed
    {
      completed := true;
    }

    /** A dot press: one dot is rendered per slide. */
    method SelectDot(index: nat)
      requires index < |Slides|
      modifies this
      ensures currentSlide == index && InRange(currentSlide)
    {
      currentSlide := index;
    }

    function Label(): string
      reads this
    {
      ButtonLabel(currentSlide)
    }
  }
}
