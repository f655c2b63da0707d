# Page-transition loading coordinator of the RODELY marketing site

This project models the only stateful logic of a React marketing site: the
page-transition loading coordinator and the pure selectors around it. It then
proves properties of that model.

- **The loading store** (`LoadingContext`) holds two cells, `isLoading` and
  `loadingMessage`. `showLoading` and `hideLoading` overwrite them.
  `useLoading` fails fast when no provider is above its caller.
- **The transition trigger** (`navigateWithLoading`) first resolves the
  overlay text: an explicit message, else a five-entry path table, else
  "Loading Page...". It calls `showLoading` at once, navigates 800 ms later
  and calls `hideLoading` 300 ms after that. Nothing is ever cancelled.
- **The overlay** (`LoadingScreen`) is mounted exactly while `isLoading` is
  true. It runs three independent intervals:
  - synthetic progress, +1.2 every 30 ms, clamped at 100, which then
    schedules `onLoadComplete` (wired to `hideLoading`) 1000 ms later;
  - a display phase that cycles every 2500 ms, with `ready` absorbing;
  - a message index that cycles mod 6 every 1500 ms.
  It also renders a headline and one status line chosen by progress band.
- **The wiring and selectors.** This covers the route table, the overlay
  mount rule and the provider nesting in `App`. Navigation contributes the
  active-item highlight, the click handler and the menu flag. Home contributes
  the scroll→robot-state classifier and its calls to action. FloatingElements
  contributes the element tables, the class lookups, the particle count and
  the connection lines.

Time is an integer millisecond clock. Pending `setTimeout`/`setInterval`
callbacks form an explicit queue (`App.World.pending`). One turn of the event
loop (`App.Step`) fires the earliest-due timer at its due time. Among timers
due at the same time, the one registered first fires first. Between turns,
time may pass by any amount that does not overtake a pending timer
(`App.Elapse`), so a click can land at any instant. After every store
change, the application re-renders at once (`App.Render`). This mounts a
fresh overlay and registers its three intervals, or unmounts it and clears
them.

The model is a sequential simulation. Overlapping transitions show up only as
interleaved timers in the queue.

Progress is counted in integer tenths: a step of 1.2 is 12, and full is 1000.
Scroll progress is a Dafny `real`.

Files, one module each:

- `wrappers.dfy`: Option and Result.
- `loading_context.dfy`: the store, as a value and as a class.
- `page_transition.dfy`: message resolution and the two delays.
- `loading_screen.dfy`: the overlay's state machines and selectors.
- `timers.dfy`: the timer queue (earliest timer, removal, counting,
  `clearInterval`).
- `app.dfy`: routes, the mount rule, the world, the event loop and its
  invariant.
- `runtime.dfy`: the same world as a class whose fields the callbacks
  overwrite.
- `navigation.dfy`, `home.dfy`, `floating_elements.dfy`: the remaining
  components.

Behaviour of the code that the model makes explicit:

- **Progress overshoots.** A tick that sees less than 100 adds 1.2
  unconditionally, so progress reaches 100.8 after 84 ticks. Tick 85 clamps
  it back to 100 (`LoadingScreen.ProgressSchedule`,
  `LoadingScreen.ProgressOvershoot`). Progress is not an integer percentage.
- **An empty explicit message is not used.** The code resolves the text with
  `message || …`, so an explicit empty message falls through to the table
  (`PageTransition.ResolveMessage`).
- **Unmounting does not cancel everything.** Unmounting clears the three
  intervals, but a completion timeout that is already scheduled still fires
  (`App.HideFires`, `Timers.Cancel`).
- **The first hide wins.** Under overlapping calls, the first `hideLoading`
  to fire clears the flag. A second `showLoading` made while loading only
  replaces the message, so it does not re-arm the overlay.

## Model

| member | source | states |
|---|---|---|
| `LoadingContext.Initial` | src/contexts/LoadingContext.tsx:25-26 | the store starts with `isLoading` false and message "Loading..." |
| `LoadingContext.Show` | src/contexts/LoadingContext.tsx:28-31 | `showLoading(m)` sets the flag and the message to `m`; without an argument the message is "Loading..." |
| `LoadingContext.Hide` | src/contexts/LoadingContext.tsx:33-35 | `hideLoading` clears the flag and keeps the message |
| `LoadingContext.HideIdempotent` | src/contexts/LoadingContext.tsx:33-35 | two `hideLoading` calls leave the same state as one |
| `LoadingContext.ShowOnlyReplacesMessage` | src/contexts/LoadingContext.tsx:28-31 | calling `showLoading` while loading changes only the message |
| `LoadingContext.UseLoading` | src/contexts/LoadingContext.tsx:12-17 | without a provider, the accessor yields the missing-provider error and never a default; with one, it yields that provider's value |
| `LoadingContext.LoadingProvider.constructor` | src/contexts/LoadingContext.tsx:24-26 | the provider's two cells start in the initial state |
| `LoadingContext.LoadingProvider.ShowLoading` | src/contexts/LoadingContext.tsx:28-31 | overwrites the two cells as `Show` describes |
| `LoadingContext.LoadingProvider.HideLoading` | src/contexts/LoadingContext.tsx:33-35 | overwrites the flag as `Hide` describes |
| `PageTransition.ResolveMessage` | src/hooks/usePageTransition.tsx:11-19 | a non-empty explicit message is used verbatim whatever the path; otherwise a table path gets its table value, and any other path gets "Loading Page..."; the result is never empty |
| `PageTransition.TableMessagesDistinctFromFallback` | src/hooks/usePageTransition.tsx:11-19 | with no message, a table path never resolves to the fallback |
| `PageTransition.ContactScenario` | src/hooks/usePageTransition.tsx:16-19 | `/contact` with no message resolves to "Opening Contact Form..." |
| `LoadingScreen.Mount` | src/components/LoadingScreen.tsx:10-20 | a fresh overlay has progress 0, phase boot and message index 0 |
| `LoadingScreen.ProgressUpdate` | src/components/LoadingScreen.tsx:26-34 | a tick finishes exactly when it sees progress of 100 or more; otherwise it adds exactly 1.2 |
| `LoadingScreen.ProgressSchedule` | src/components/LoadingScreen.tsx:24-35 | from 0, progress after n ticks is 1.2·n for n ≤ 84 and exactly 100 from tick 85 on; it always stays in [0, 100.8] |
| `LoadingScreen.FinishingTick` | src/components/LoadingScreen.tsx:26-33 | the tick after tick n finishes exactly when n ≥ 84, so the first finishing tick is tick 85 |
| `LoadingScreen.ProgressOvershoot` | src/components/LoadingScreen.tsx:26-33 | progress never decreases over the first 84 ticks, reaches 100.8, and is pulled back to 100 on tick 85 |
| `LoadingScreen.NextPhase` | src/components/LoadingScreen.tsx:50-58 | the phase update yields `ready` exactly when the previous phase was `ready` |
| `LoadingScreen.PhaseCycle` | src/components/LoadingScreen.tsx:50-58 | the phases follow boot→processing→connecting→boot, so the cycle has period three, and every phase but `ready` moves |
| `LoadingScreen.NextMessageIndex` | src/components/LoadingScreen.tsx:41-43 | the index stays in [0, 6), moves to the next entry, and wraps from 5 to 0 |
| `LoadingScreen.MessageCycle` | src/components/LoadingScreen.tsx:41-43 | six message ticks bring the index back |
| `LoadingScreen.Headline` | src/components/LoadingScreen.tsx:260 | the headline is never empty; it is the prop's default "Initializing AI Systems..." when no message is passed, the message when it is non-empty, and the cycling text when it is "" |
| `LoadingScreen.StatusLines` | src/components/LoadingScreen.tsx:290-295 | exactly one status line is rendered, and each line appears exactly in its band: <20, [20,40), [40,60), [60,80), [80,95), ≥95 |
| `LoadingScreen.ArmClass` | src/components/LoadingScreen.tsx:179-186 | the arms always float: the 'waving' and 'playing' branches are dead code |
| `LoadingScreen.ShowsTechParticles` | src/components/LoadingScreen.tsx:221-227 | the 'playing' particles are never rendered |
| `Timers.Cancel` | src/components/LoadingScreen.tsx:37-61 | `clearInterval` removes exactly the timers whose action is cancelled, and keeps every other timer with its multiplicity |
| `Timers.CancelAppend` | src/components/LoadingScreen.tsx:37-61 | cancelling a concatenation gives the survivors of the front followed by those of the back, so the survivors keep their registration order |
| `Timers.CancelOne` | src/components/LoadingScreen.tsx:37-61 | a single timer is dropped exactly when its action is cancelled; with `CancelAppend` this pins `Cancel` down as an order-keeping filter |
| `App.RouteElement` | src/App.tsx:22-30 | each of the five paths maps to its page, and a path maps to NotFound exactly when it is not one of the five table keys |
| `App.RenderOverlay` | src/App.tsx:32-37 | the overlay is rendered exactly when `isLoading` holds, with the store's message and `hideLoading` as `onLoadComplete` |
| `App.AppContentStore` | src/App.tsx:47-51 | `AppContent` sits inside `LoadingProvider`, so its `useLoading` call yields the store and never the error |
| `App.InitialWorld` | src/contexts/LoadingContext.tsx:25-26 | the application starts idle at time 0 with nothing pending |
| `App.MountTimers` | src/components/LoadingScreen.tsx:24-58 | a fresh overlay registers three timers, one per interval: progress at now+30, message at now+1500, animation at now+2500 |
| `App.Render` | src/App.tsx:32-37 | after a re-render the overlay is mounted exactly while loading. A mount starts a fresh overlay (progress 0, boot, message 0) and appends its intervals; an unmount clears exactly the intervals; otherwise nothing changes. Store, route and clock are untouched |
| `App.NavigateWithLoading` | src/hooks/usePageTransition.tsx:19-29 | `showLoading(resolved)` takes effect at once, before any timer runs; the route is unchanged; the navigation timer is registered at now+800; every timer already pending is kept. A call from idle mounts a fresh overlay and queues the navigation timer followed by its three intervals; a call made while loading keeps the overlay |
| `App.Fire` | src/hooks/usePageTransition.tsx:23-28 | the navigation callback sets only the route, keeps the store and overlay, and queues the hide at now+300. Both hide callbacks clear the flag, keep the message and unmount the overlay. Interval ticks leave the store alone and are no-ops once the overlay is gone. A live progress tick below 100 adds exactly 1.2 and re-arms at now+30; one at 100 or more sets progress to 100, phase `ready`, and queues `onLoadComplete` at now+1000. A live message tick advances the index and re-arms at now+1500; a live animation tick advances the phase and re-arms at now+2500 |
| `App.TickFollowsSchedule` | src/components/LoadingScreen.tsx:25-35 | in the running application, a progress tick takes the overlay from the value after n ticks to the value after n+1, so the overlay follows `LoadingScreen.ProgressSchedule` |
| `App.Elapse` | src/hooks/usePageTransition.tsx:9-30 | time can pass by any amount that does not overtake a pending timer, changing nothing but the clock |
| `App.Step` | src/hooks/usePageTransition.tsx:23-29 | one turn of the event loop fires a pending timer whose due time is minimal, and the clock moves to that time |
| `App.InitialWf` | src/App.tsx:32-37 | the start-up state satisfies the invariant |
| `App.RenderWf` | src/App.tsx:32-37 | a re-render restores "mounted iff loading"; it mounts with exactly one of each interval and unmounts with none |
| `App.NavigateWithLoadingWf` | src/hooks/usePageTransition.tsx:19-29 | a transition call keeps the invariant |
| `App.StepWf` | src/components/LoadingScreen.tsx:24-62 | every callback keeps the invariant: mounted iff loading, message non-empty, no overdue timer, one message and one animation interval while mounted, one progress interval until ready, overlay state in range |
| `App.ElapseWf` | src/hooks/usePageTransition.tsx:9-30 | waiting keeps the invariant, so a click may land at any instant between two timers |
| `App.ClockMonotone` | src/hooks/usePageTransition.tsx:23-29 | the clock never runs backwards |
| `App.NavigationFires` | src/hooks/usePageTransition.tsx:23-28 | the 800 ms callback sets the route, leaves store and overlay alone, and registers `hideLoading` 300 ms after the navigation |
| `App.HideFires` | src/hooks/usePageTransition.tsx:26-28 | `hideLoading` clears the flag, keeps the message, unmounts the overlay and leaves none of its intervals; every other timer, a completion timeout included, survives |
| `App.TicksLeaveStoreAndRoute` | src/components/LoadingScreen.tsx:24-62 | the overlay's interval ticks change neither the store nor the route |
| `App.CompletionScheduledOnce` | src/components/LoadingScreen.tsx:27-31 | the first tick seeing ≥ 100 sets progress to exactly 100 and phase to ready, leaves no progress interval, and registers one `onLoadComplete` at now+1000 |
| `App.NoCancellation` | src/hooks/usePageTransition.tsx:9-30 | apart from the timer that fired and the overlay's intervals, every pending timer is still pending after a turn |
| `App.HeadlineShowsStoreMessage` | src/App.tsx:32-37 | in this application the headline is always the store's message, so the six cycling texts are never shown |
| `App.ContactScenario` | src/hooks/usePageTransition.tsx:16-23 | from start-up, `navigateWithLoading('/contact')` shows "Opening Contact Form..." over a fresh overlay, with the navigation due at 800 ms and the intervals at 30, 1500 and 2500 ms |
| `App.ContactFirstTick` | src/components/LoadingScreen.tsx:25-35 | the first timer of that transition to fire is the progress tick at 30 ms, which leaves progress 1.2 in phase boot |
| `Runtime.AppRuntime.constructor` | src/contexts/LoadingContext.tsx:24-26 | the object state starts as `App.InitialWorld` |
| `Runtime.AppRuntime.Render` | src/App.tsx:32-37 | the in-place re-render leaves the state `App.Render` gives |
| `Runtime.AppRuntime.NavigateWithLoading` | src/hooks/usePageTransition.tsx:19-29 | updates the provider object and the queue in place to the state `App.NavigateWithLoading` gives |
| `Runtime.AppRuntime.RunNextTimer` | src/hooks/usePageTransition.tsx:23-29 | fires exactly when something is pending, to the state `App.Step` gives |
| `Runtime.AppRuntime.Fire` | src/hooks/usePageTransition.tsx:23-28 | runs a taken timer's callback in place, leaving the state `App.Fire` gives |
| `Runtime.AppRuntime.Wait` | src/hooks/usePageTransition.tsx:9-30 | moves the clock in place, leaving the state `App.Elapse` gives |
| `Runtime.AppRuntime.TickProgress` | src/components/LoadingScreen.tsx:25-35 | the progress interval's callback, applied in place, leaves the state `App.Fire(·, ProgressTimer)` gives: +1.2 and re-armed at now+30 below 100, otherwise 100, `ready` and `onLoadComplete` at now+1000 |
| `Runtime.AppRuntime.FollowLink` | src/components/Navigation.tsx:33 | a plain router link changes only the route |
| `Navigation.IsActive` | src/components/Navigation.tsx:13 | an item is active exactly when the location equals its path, with no prefix matching |
| `Navigation.ActiveFlags` | src/components/Navigation.tsx:13 | at most one nav item is highlighted, and one is exactly when the location is a table path |
| `Navigation.DesktopTargets` | src/components/Navigation.tsx:46-58 | every desktop click target is a table key, so it never shows "Loading Page..."; "Get Started" goes to /contact |
| `Navigation.MobileTargets` | src/components/Navigation.tsx:72-93 | the mobile buttons are rendered exactly while the menu is open, and they are the desktop buttons |
| `Navigation.NavPathsAreTableKeys` | src/components/Navigation.tsx:21-27 | the nav paths are distinct and are exactly the five keys of the message table |
| `Navigation.NavigationBar.constructor` | src/components/Navigation.tsx:9 | the menu starts closed |
| `Navigation.NavigationBar.ToggleMenu` | src/components/Navigation.tsx:65 | the menu button negates `isOpen`, so two presses restore the original value |
| `Navigation.NavigationBar.ClickLogo` | src/components/Navigation.tsx:9-33 | the logo link goes to "/" without a transition; the menu stays as it was on Home, and from any other page Home's own bar comes up with the menu closed |
| `Navigation.NavigationBar.HandleNavigation` | src/components/Navigation.tsx:15-19 | a nav click is `navigateWithLoading(path)` with no message, then the menu closes |
| `Home.ClassifyScroll` | src/pages/Home.tsx:27-37 | wave <0.2, message [0.2,0.4), dashboard [0.4,0.7), transform [0.7,0.9), powerup ≥0.9, each in both directions; never idle |
| `Home.ClassifyMonotone` | src/pages/Home.tsx:27-37 | scrolling further never moves the robot to an earlier state |
| `Home.SectionIndex` | src/pages/Home.tsx:23 | the section index is the floor of 4x; for x in [0,1] it lies in 0..4 and is 4 only at x = 1 |
| `Home.HomePage.constructor` | src/pages/Home.tsx:15-16 | before any scroll event, the section is 0 and the robot waves |
| `Home.HomePage.OnScroll` | src/pages/Home.tsx:22-38 | the handler sets the section index and the robot state from the latest progress |
| `Home.CtaMessage` | src/pages/Home.tsx:51-52 | a call to action's own non-empty text is what the overlay shows |
| `Home.CtaTargets` | src/pages/Home.tsx:50-87 | the hero and closing calls to action go to /contact with "Preparing Contact Form..." and to /demo with "Loading Demo Environment...", not the table defaults |
| `FloatingElements.ElementsForSection` | src/components/FloatingElements.tsx:44-208 | each of the four sections yields 4 elements with distinct ids and positions in [0,100]²; any other value yields none |
| `FloatingElements.AllIdsDistinct` | src/components/FloatingElements.tsx:49-200 | the 16 ids are distinct across all sections |
| `FloatingElements.SizeClasses` | src/components/FloatingElements.tsx:213-220 | sm→w-8 h-8, lg→w-16 h-16, md and anything else→w-12 h-12 |
| `FloatingElements.ColorClasses` | src/components/FloatingElements.tsx:222-229 | teal and light map to their classes; cyan and anything else map to text-brand-cyan |
| `FloatingElements.IsMobile` | src/components/FloatingElements.tsx:35 | a window is mobile exactly when it is narrower than 768 px, and exactly then 6 particles are drawn |
| `FloatingElements.ParticleCount` | src/components/FloatingElements.tsx:266 | 6 particles exactly on mobile, 12 otherwise |
| `FloatingElements.LineSlots` | src/components/FloatingElements.tsx:292 | one slot for each of the first three elements |
| `FloatingElements.ConnectionLines` | src/components/FloatingElements.tsx:292-294 | n elements give min(3, n−1) lines, and line i joins element i to element i+1 |
| `FloatingElements.ThreeLinesPerSection` | src/components/FloatingElements.tsx:292-294 | every section draws exactly three lines |

## Left out

- Framer-motion and CSS animation (`ScrollBackground`, `ScrollSection`,
  `FuturisticRobot`, the motion props of every component): these are
  interpolation curves supplied by a library that is not part of this model.
- The content pages and footer (`About`, `Services`, `Demo`, `Contact`,
  `Footer` and the `*Page` wrappers): they are static copy. Their
  `navigateWithLoading` calls pass non-empty explicit messages, which
  `PageTransition.ResolveMessage` covers.
- The styling tables (`tailwind.config.ts`, `ui/button.tsx`).
- React mechanics.
  - Render scheduling, batching and StrictMode double invocation are not
    modelled.
  - Effect re-runs are not modelled. In the source, the progress effect
    depends on `onLoadComplete`, and the provider creates a new `hideLoading`
    on each render, so the progress interval is re-registered on every
    provider re-render. The model registers it once per mount.
  - A re-render is taken to happen immediately after each callback.
- Timers have exact due times, with ties broken by registration order.
  Timer drift, throttling and the browser's exact ordering of re-armed
  intervals are not modelled.
- Floating point. Progress is in exact tenths, and the IEEE rounding of
  repeated `+1.2` is not modelled. Neither is the `{progress}%` text.
- The mouse-driven rotation of the overlay, and every `Math.random` layout
  (the overlay's particles, the floating particles' positions and timings).
- Navigation.NavigationBar: the bar is not remounted when the 800 ms
  navigation changes the page. If the menu is reopened during those 800 ms,
  the model keeps it open, while the new page's bar starts closed. The logo
  click (`ClickLogo`) does model the remount.
- Router matching is exact string equality. React Router's case-insensitive
  and trailing-slash matching is not modelled, and `navigate(path)` only sets
  the route.
- The message table is a finite map with the five literal keys. JavaScript
  prototype keys such as a path of `toString` are not modelled.
- External actions and listeners: `window.open`, `tel:`/`mailto:` links, and
  the resize and scroll listeners. `isMobile` and scroll progress are
  parameters. FloatingElements also renders once with `isMobile` false
  before its effect runs, and that first render is not modelled.
- Home's `sections` copy (titles, features, per-section `robotState` fields),
  apart from the calls to action. `currentSection` is stored but not rendered.
- The icons, delays and durations of the floating elements are carried as
  data. No property is stated about them.
