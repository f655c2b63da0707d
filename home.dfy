/**
 * The home page of `src/pages/Home.tsx`: the scroll subscription that sets
 * `currentSection` and `robotState` from the scroll progress, and the hero
 * and closing calls to action. Scroll progress is a parameter.
 */
module Home {
  import opened Wrappers
  import PageTransition

  /** The declared values of `robotState`. */
  datatype RobotState = Idle | Wave | Message | Dashboard | Transform | Powerup

  /** The order in which scrolling down passes the states. */
  function Rank(s: RobotState): nat
  {
    match s
    case Idle => 0
    case Wave => 1
    case Message => 2
    case Dashboard => 3
    case Transform => 4
    case Powerup => 5
  }

  /** The threshold chain applied to the latest scroll progress. */
  function ClassifyScroll(latest: real): (r: RobotState)
    ensures r != Idle
    ensures r == Wave <==> latest < 0.2
    ensures r == Message <==> 0.2 <= latest < 0.4
    ensures r == Dashboard <==> 0.4 <= latest < 0.7
    ensures r == Transform <==> 0.7 <= latest < 0.9
    ensures r == Powerup <==> 0.9 <= latest
  {
    if latest < 0.2 then Wave
    else if latest < 0.4 then Message
    else if latest < 0.7 then Dashboard
    else if latest < 0.9 then Transform
    else Powerup
  }

  /** Scrolling further down never moves the robot to an earlier state. */
  lemma ClassifyMonotone(a: real, b: real)
    requires a <= b
    ensures Rank(ClassifyScroll(a)) <= Rank(ClassifyScroll(b))
  {
  }

  /** `Math.floor(latest * 4)`. */
  function SectionIndex(latest: real): (r: int)
    ensures r as real <= latest * 4.0 < r as real + 1.0
    ensures 0.0 <= latest <= 1.0 ==> 0 <= r <= 4
    ensures 0.0 <= latest <= 1.0 ==> (r == 4 <==> latest == 1.0)
  {
    (latest * 4.0).Floor
  }

  /** The home page's state cells. */
  class HomePage {
    var currentSection: int
    var robotState: RobotState

    /** Before any scroll event the robot waves. */
    constructor ()
      ensures currentSection == 0 && robotState == Wave
    {
      currentSection := 0;
      robotState := Wave;
    }

    /** The `scrollYProgress` change handler. */
    method OnScroll(latest: real)
      modifies this
      ensures currentSection == SectionIndex(latest)
      ensures robotState == ClassifyScroll(latest)
    {
      currentSection := SectionIndex(latest);
      robotState := ClassifyScroll(latest);
    }
  }

  /** A call-to-action button: its label, and the arguments it passes to
      `navigateWithLoading`. */
  datatype Cta = Cta(text: string, path: string, message: string)

  const HeroPrimary: Cta := Cta("Discover Our AI", "/contact", "Preparing Contact Form...")
  const HeroSecondary: Cta := Cta("Watch Demo", "/demo", "Loading Demo Environment...")
  const InnovationPrimary: Cta := Cta("Get Started Today", "/contact", "Preparing Contact Form...")

  /** The overlay text a call to action shows. */
  function CtaMessage(c: Cta): (r: string)
    ensures c.message != "" ==> r == c.message
  {
    PageTransition.ResolveMessage(c.path, Some(c.message))
  }

  /** The calls to action go to /contact and /demo and show their own texts,
      which differ from the table's defaults for those paths. */
  lemma CtaTargets()
    ensures HeroPrimary.path == "/contact" && InnovationPrimary.path == "/contact" && HeroSecondary.path == "/demo"
    ensures CtaMessage(HeroPrimary) == "Preparing Contact Form..."
    ensures CtaMessage(InnovationPrimary) == "Preparing Contact Form..."
    ensures CtaMessage(HeroSecondary) == "Loading Demo Environment..."
    ensures CtaMessage(HeroPrimary) != PageTransition.ResolveMessage("/contact", None)
    ensures CtaMessage(HeroSecondary) != PageTransition.ResolveMessage("/demo", None)
  {
  }
}
