/**
 * The internals of the overlay in `src/components/LoadingScreen.tsx`: three
 * independent tick-driven state machines (synthetic progress, display phase,
 * cycling message index) and the pure selectors that render them.
 *
 * Progress is counted in integer tenths of a percent: the source's step of
 * 1.2 is 12 here and its 100 is 1000.
 */
module LoadingScreen {
  import opened Wrappers

  /** The default of the `message` prop. */
  const DefaultMessage: string := "Initializing AI Systems..."

  /** The six canned strings the message index cycles through. */
  const LoadingMessages: seq<string> := [
    "Initializing Neural Networks...",
    "Loading AI Core Systems...",
    "Establishing Quantum Connections...",
    "Calibrating Holographic Interface...",
    "Activating RODELY Protocol...",
    "Systems Online - Welcome! 🚀"
  ]

  /** Periods of the three intervals and the delay before `onLoadComplete`, in ms. */
  const ProgressInterval: int := 30
  const MessageInterval: int := 1500
  const AnimationInterval: int := 2500
  const CompletionDelay: int := 1000

  /** One progress step (1.2) and full progress (100), in tenths. */
  const ProgressStep: int := 12
  const ProgressFull: int := 1000

  /** `currentAnimation`: its declared type admits exactly these four values. */
  datatype Phase = Boot | Processing | Connecting | Ready

  /** The overlay's internal state cells. */
  datatype Overlay = Overlay(progress: int, phase: Phase, messageIndex: nat)

  /** The state of a freshly mounted overlay. */
  function Mount(): (o: Overlay)
    ensures o.progress == 0 && o.phase == Boot && o.messageIndex == 0
  {
    Overlay(0, Boot, 0)
  }

  /** What one progress tick does: either add a step, or finish (set progress to
      exactly 100, clear the interval, enter `ready` and schedule `onLoadComplete`). */
  datatype ProgressEffect = Advance(next: int) | Finish

  /** The updater passed to `setProgress` on every tick. */
  function ProgressUpdate(prev: int): (u: ProgressEffect)
    ensures u.Finish? <==> prev >= ProgressFull
    ensures u.Advance? ==> u.next - prev == ProgressStep
  {
    if prev >= ProgressFull then Finish else Advance(prev + ProgressStep)
  }

  /** The progress value a tick leaves behind. */
  function ProgressAfterTick(prev: int): int
  {
    match ProgressUpdate(prev)
    case Advance(next) => next
    case Finish => ProgressFull
  }

  /** The progress value after `n` ticks of a freshly mounted overlay. */
  function ProgressAfter(n: nat): int
  {
    if n == 0 then 0 else ProgressAfterTick(ProgressAfter(n - 1))
  }

  /** Counted from 0, progress is 12 per tick up to 100.8 after 84 ticks, and
      is clamped to exactly 100 from tick 85 on; it never leaves [0, 100.8]. */
  lemma {:induction false} ProgressSchedule(n: nat)
    ensures n <= 84 ==> ProgressAfter(n) == ProgressStep * n
    ensures n >= 85 ==> ProgressAfter(n) == ProgressFull
    ensures 0 <= ProgressAfter(n) <= ProgressFull + 8
  {
    if n > 0 {
      ProgressSchedule(n - 1);
    }
  }

  /** The tick that follows tick `n` finishes exactly when `n >= 84`: the first
      finishing tick is tick 85, which sees 100.8. */
  lemma FinishingTick(n: nat)
    ensures ProgressUpdate(ProgressAfter(n)).Finish? <==> n >= 84
  {
    ProgressSchedule(n);
  }

  /** Progress never decreases over the first 84 ticks, and tick 85 takes it
      down from 100.8 to 100. */
  lemma ProgressOvershoot()
    ensures forall n: nat :: n < 84 ==> ProgressAfter(n) <= ProgressAfter(n + 1)
    ensures ProgressAfter(84) == ProgressFull + 8 && ProgressAfter(85) == ProgressFull
  {
    forall n: nat | n < 84
      ensures ProgressAfter(n) <= ProgressAfter(n + 1)
    {
      ProgressSchedule(n);
      ProgressSchedule(n + 1);
    }
    ProgressSchedule(84);
    ProgressSchedule(85);
  }

  /** The updater passed to `setCurrentAnimation` by the animation interval. */
  function NextPhase(p: Phase): (r: Phase)
    ensures r == Ready <==> p == Ready
  {
    match p
    case Boot => Processing
    case Processing => Connecting
    case Connecting => Boot
    case Ready => Ready
  }

  /** The phase cycle runs boot, processing, connecting and back to boot, so
      it has period three; `ready` is absorbing. */
  lemma PhaseCycle(p: Phase)
    ensures NextPhase(Boot) == Processing && NextPhase(Processing) == Connecting && NextPhase(Connecting) == Boot
    ensures NextPhase(NextPhase(NextPhase(p))) == p
    ensures p != Ready ==> NextPhase(p) != p
  {
  }

  /** The updater passed to `setCurrentMessageIndex`: `(prev + 1) % 6`. */
  function NextMessageIndex(i: nat): (r: nat)
    ensures r < |LoadingMessages|
    ensures i + 1 < |LoadingMessages| ==> r == i + 1
    ensures i + 1 == |LoadingMessages| ==> r == 0
  {
    (i + 1) % |LoadingMessages|
  }

  /** Six message ticks bring the index back where it was. */
  lemma MessageCycle(i: nat)
    requires i < |LoadingMessages|
    ensures NextMessageIndex(NextMessageIndex(NextMessageIndex(
              NextMessageIndex(NextMessageIndex(NextMessageIndex(i)))))) == i
  {
  }

  /** The `message` prop after its default is applied. */
  function MessageProp(message: Option<string>): string
  {
    match message
    case Some(m) => m
    case None => DefaultMessage
  }

  /** The headline: `message || loadingMessages[currentMessageIndex]`. */
  function Headline(message: Option<string>, index: nat): (r: string)
    requires index < |LoadingMessages|
    ensures r != ""
    ensures message.None? ==> r == DefaultMessage
    ensures message.Some? && message.value != "" ==> r == message.value
    ensures message == Some("") ==> r == LoadingMessages[index]
  {
    var m := MessageProp(message);
    if m != "" then m else LoadingMessages[index]
  }

  /** The six status lines. */
  const CoreInitialized: string := "Core systems initialized"
  const NetworksLoaded: string := "AI neural networks loaded"
  const ProtocolsEstablished: string := "Communication protocols established"
  const VoiceReady: string := "Voice synthesis engines ready"
  const SecurityActivated: string := "Security protocols activated"
  const ReadyToServe: string := "Ready to serve - Welcome to RODELY"

  /** Renders one conditional line: present when its guard holds. */
  function When(guard: bool, line: string): seq<string>
  {
    if guard then [line] else []
  }

  /** The status lines rendered for a progress value (in tenths): each of the
      six lines has its own guard, and exactly one guard holds. */
  function StatusLines(progress: int): (r: seq<string>)
    ensures |r| == 1
    ensures r[0] == CoreInitialized <==> progress < 200
    ensures r[0] == NetworksLoaded <==> 200 <= progress < 400
    ensures r[0] == ProtocolsEstablished <==> 400 <= progress < 600
    ensures r[0] == VoiceReady <==> 600 <= progress < 800
    ensures r[0] == SecurityActivated <==> 800 <= progress < 950
    ensures r[0] == ReadyToServe <==> progress >= 950
  {
    When(progress < 200, CoreInitialized)
    + When(progress >= 200 && progress < 400, NetworksLoaded)
    + When(progress >= 400 && progress < 600, ProtocolsEstablished)
    + When(progress >= 600 && progress < 800, VoiceReady)
    + When(progress >= 800 && progress < 950, SecurityActivated)
    + When(progress >= 950, ReadyToServe)
  }

  /** The string value of `currentAnimation`. */
  function PhaseName(p: Phase): string
  {
    match p
    case Boot => "boot"
    case Processing => "processing"
    case Connecting => "connecting"
    case Ready => "ready"
  }

  /** The class of the robot's arms. The 'waving' and 'playing' branches are
      dead code: no phase has either name. */
  function ArmClass(p: Phase): (r: string)
    ensures r == "animate-float"
  {
    if PhaseName(p) == "waving" then "animate-bounce"
    else if PhaseName(p) == "playing" then "animate-pulse-brand"
    else "animate-float"
  }

  /** Whether the hologram's tech particles are rendered: never, for the same reason. */
  function ShowsTechParticles(p: Phase): (r: bool)
    ensures !r
  {
    PhaseName(p) == "playing"
  }
}
