/**
 * The running application of `src/App.tsx`: the route table, the rule that
 * mounts the overlay exactly while the store says `isLoading`, and the world
 * those rules act on — the store, the current route, the mounted overlay, an
 * integer millisecond clock and the queue of pending timers. The timed
 * show/navigate/hide sequence of `navigateWithLoading`
 * (`src/hooks/usePageTransition.tsx`) and the overlay's intervals run on this
 * queue, one callback at a time.
 */
module App {
  import opened Wrappers
  import opened Timers
  import LC = LoadingContext
  import PageTransition
  import LS = LoadingScreen

  /** The page components the routes render. */
  datatype Page = Home | AboutPage | ServicesPage | DemoPage | ContactPage | NotFound

  /** `<Routes>`: five literal paths and the catch-all. */
  function RouteElement(path: string): (p: Page)
    ensures p != NotFound <==> path in PageTransition.LoadingMessages
    ensures path == "/" ==> p == Home
    ensures path == "/about" ==> p == AboutPage
    ensures path == "/services" ==> p == ServicesPage
    ensures path == "/demo" ==> p == DemoPage
    ensures path == "/contact" ==> p == ContactPage
  {
    if path == "/" then Home
    else if path == "/about" then AboutPage
    else if path == "/services" then ServicesPage
    else if path == "/demo" then DemoPage
    else if path == "/contact" then ContactPage
    else NotFound
  }

  /** The callbacks the overlay can be handed; the app hands it `hideLoading`. */
  datatype Callback = HideLoading

  /** The props of a mounted `LoadingScreen`. */
  datatype OverlayProps = OverlayProps(message: Option<string>, onLoadComplete: Callback)

  /** `{isLoading && <LoadingScreen onLoadComplete={hideLoading} message={loadingMessage} />}`. */
  function RenderOverlay(s: LC.LoadingState): (r: Option<OverlayProps>)
    ensures r.Some? <==> s.isLoading
    ensures r.Some? ==> r.value.message == Some(s.loadingMessage)
    ensures r.Some? ==> r.value.onLoadComplete == HideLoading
  {
    if s.isLoading then Some(OverlayProps(Some(s.loadingMessage), HideLoading)) else None
  }

  /** The providers wrapping `AppContent`, outermost first. */
  datatype Provider = QueryClientProvider | TooltipProvider | LoadingProvider | BrowserRouter

  const AppContentAncestors: seq<Provider> :=
    [QueryClientProvider, TooltipProvider, LoadingProvider, BrowserRouter]

  /** The loading context a component sees under `ancestors`. */
  function ContextUnder(ancestors: seq<Provider>, s: LC.LoadingState): Option<LC.LoadingState>
  {
    if LoadingProvider in ancestors then Some(s) else None
  }

  /** `useLoading()` inside `AppContent` never hits the missing-provider error. */
  function AppContentStore(s: LC.LoadingState): (r: Result<LC.LoadingState>)
    ensures r == Ok(s)
  {
    LC.UseLoading(ContextUnder(AppContentAncestors, s))
  }

  /** What a pending timer does when it fires. */
  datatype Action =
    | NavigateAfterDelay(path: string)  // the 800 ms callback of navigateWithLoading
    | HideAfterNavigate                 // the nested 300 ms callback
    | ProgressTimer                     // the overlay's 30 ms interval
    | MessageTimer                      // the overlay's 1500 ms interval
    | AnimationTimer                    // the overlay's 2500 ms interval
    | LoadComplete                      // setTimeout(onLoadComplete, 1000)

  /** The three intervals an unmounting overlay clears. */
  const OverlayIntervals: set<Action> := {ProgressTimer, MessageTimer, AnimationTimer}

  /** Everything the transition coordinator acts on. */
  datatype World = World(
    loading: LC.LoadingState,
    route: string,
    overlay: Option<LS.Overlay>,
    now: int,
    pending: seq<Timer<Action>>)

  /** The application at start-up, showing `route`. */
  function InitialWorld(route: string): (w: World)
    ensures w.loading == LC.Initial() && w.route == route
    ensures w.overlay == None && w.now == 0 && w.pending == []
  {
    World(LC.Initial(), route, None, 0, [])
  }

  /** The intervals a freshly mounted overlay registers, in effect order. */
  function MountTimers(now: int): (r: seq<Timer<Action>>)
    ensures |r| == 3
    ensures forall t :: t in r ==> t.action in OverlayIntervals && t.due > now
    ensures Count(r, ProgressTimer) == 1 && Count(r, MessageTimer) == 1 && Count(r, AnimationTimer) == 1
    ensures forall t :: t in r && t.action == ProgressTimer ==> t.due == now + 30
    ensures forall t :: t in r && t.action == MessageTimer ==> t.due == now + 1500
    ensures forall t :: t in r && t.action == AnimationTimer ==> t.due == now + 2500
  {
    var timers := [Timer(now + LS.ProgressInterval, ProgressTimer),
                   Timer(now + LS.MessageInterval, MessageTimer),
                   Timer(now + LS.AnimationInterval, AnimationTimer)];
    assert timers[1..] == [timers[1], timers[2]] && [timers[1], timers[2]][1..] == [timers[2]];
    assert [timers[2]][1..] == [];
    assert forall a :: Count([timers[2]], a) == if a == AnimationTimer then 1 else 0;
    assert forall a :: Count([timers[1], timers[2]], a) == Count([timers[2]], a) + if a == MessageTimer then 1 else 0;
    assert forall a :: Count(timers, a) == Count([timers[1], timers[2]], a) + if a == ProgressTimer then 1 else 0;
    timers
  }

  /** Re-rendering `AppContent` after the store changed: the overlay mounts
      (fresh state, three intervals) when `isLoading` turns true and unmounts
      (its intervals cleared) when it turns false. */
  function Render(w: World): (r: World)
    ensures r.overlay.Some? <==> r.loading.isLoading
    ensures r.loading == w.loading && r.route == w.route && r.now == w.now
    ensures w.loading.isLoading && w.overlay.None? ==>
              r.overlay == Some(LS.Mount()) && r.pending == w.pending + MountTimers(w.now)
    ensures !w.loading.isLoading && w.overlay.Some? ==> r.pending == Cancel(w.pending, OverlayIntervals)
    ensures (w.overlay.Some? <==> w.loading.isLoading) ==> r == w
  {
    if w.loading.isLoading && w.overlay.None? then
      w.(overlay := Some(LS.Mount()), pending := w.pending + MountTimers(w.now))
    else if !w.loading.isLoading && w.overlay.Some? then
      w.(overlay := None, pending := Cancel(w.pending, OverlayIntervals))
    else
      w
  }

  /** `navigateWithLoading(path, message)`: `showLoading` with the resolved
      message at once, the navigation timer registered 800 ms ahead, and
      nothing that was already pending cancelled. */
  function NavigateWithLoading(w: World, path: string, message: Option<string>): (r: World)
    ensures r.loading == LC.Show(w.loading, Some(PageTransition.ResolveMessage(path, message)))
    ensures r.overlay.Some?
    ensures r.route == w.route && r.now == w.now
    ensures |r.pending| > |w.pending| && r.pending[..|w.pending|] == w.pending
    ensures r.pending[|w.pending|] == Timer(w.now + PageTransition.NavigateDelay, NavigateAfterDelay(path))
    ensures w.overlay.Some? ==> r.overlay == w.overlay && |r.pending| == |w.pending| + 1
    ensures !w.loading.isLoading && w.overlay.None? ==>
              && r.overlay == Some(LS.Mount())
              && r.pending == w.pending + [Timer(w.now + PageTransition.NavigateDelay, NavigateAfterDelay(path))]
                              + MountTimers(w.now)
  {
    var shown := w.(
      loading := LC.Show(w.loading, Some(PageTransition.ResolveMessage(path, message))),
      pending := w.pending + [Timer(w.now + PageTransition.NavigateDelay, NavigateAfterDelay(path))]);
    Render(shown)
  }

  /** Runs the callback of a timer that has just been taken off the queue. */
  function Fire(w: World, a: Action): (r: World)
    ensures r.now == w.now
    ensures a.NavigateAfterDelay? ==> r.route == a.path && r.loading == w.loading && r.overlay == w.overlay
    ensures a.NavigateAfterDelay? ==> r.pending == w.pending + [Timer(w.now + PageTransition.HideDelay, HideAfterNavigate)]
    ensures !a.NavigateAfterDelay? ==> r.route == w.route
    ensures a == HideAfterNavigate || a == LoadComplete ==>
              !r.loading.isLoading && r.loading.loadingMessage == w.loading.loadingMessage && r.overlay.None?
    ensures a in OverlayIntervals ==> r.loading == w.loading
    ensures a in OverlayIntervals && w.overlay.None? ==> r == w
    ensures (a in OverlayIntervals && w.overlay.Some?) || a.NavigateAfterDelay? ==>
              |r.pending| == |w.pending| + 1 && r.pending[..|w.pending|] == w.pending
    ensures a == ProgressTimer && w.overlay.Some? && w.overlay.value.progress < LS.ProgressFull ==>
              && r.overlay == Some(w.overlay.value.(progress := w.overlay.value.progress + LS.ProgressStep))
              && r.pending == w.pending + [Timer(w.now + LS.ProgressInterval, ProgressTimer)]
    ensures a == ProgressTimer && w.overlay.Some? && w.overlay.value.progress >= LS.ProgressFull ==>
              && r.overlay == Some(w.overlay.value.(progress := LS.ProgressFull, phase := LS.Ready))
              && r.pending == w.pending + [Timer(w.now + LS.CompletionDelay, LoadComplete)]
    ensures a == MessageTimer && w.overlay.Some? ==>
              && r.overlay == Some(w.overlay.value.(messageIndex := LS.NextMessageIndex(w.overlay.value.messageIndex)))
              && r.pending == w.pending + [Timer(w.now + LS.MessageInterval, MessageTimer)]
    ensures a == AnimationTimer && w.overlay.Some? ==>
              && r.overlay == Some(w.overlay.value.(phase := LS.NextPhase(w.overlay.value.phase)))
              && r.pending == w.pending + [Timer(w.now + LS.AnimationInterval, AnimationTimer)]
  {
    match a
    case NavigateAfterDelay(path) =>
      w.(route := path, pending := w.pending + [Timer(w.now + PageTransition.HideDelay, HideAfterNavigate)])
    case HideAfterNavigate =>
      Render(w.(loading := LC.Hide(w.loading)))
    case LoadComplete =>
      Render(w.(loading := LC.Hide(w.loading)))
    case ProgressTimer =>
      if w.overlay.None? then w
      else
        var o := w.overlay.value;
        (match LS.ProgressUpdate(o.progress)
         case Advance(next) =>
           w.(overlay := Some(o.(progress := next)),
              pending := w.pending + [Timer(w.now + LS.ProgressInterval, ProgressTimer)])
         case Finish =>
           w.(overlay := Some(o.(progress := LS.ProgressFull, phase := LS.Ready)),
              pending := w.pending + [Timer(w.now + LS.CompletionDelay, LoadComplete)]))
    case MessageTimer =>
      if w.overlay.None? then w
      else
        var o := w.overlay.value;
        w.(overlay := Some(o.(messageIndex := LS.NextMessageIndex(o.messageIndex))),
           pending := w.pending + [Timer(w.now + LS.MessageInterval, MessageTimer)])
    case AnimationTimer =>
      if w.overlay.None? then w
      else
        var o := w.overlay.value;
        w.(overlay := Some(o.(phase := LS.NextPhase(o.phase))),
           pending := w.pending + [Timer(w.now + LS.AnimationInterval, AnimationTimer)])
  }

  /** One turn of the event loop: the earliest pending timer fires at its due
      time; `None` when nothing is pending. */
  function Step(w: World): (r: Option<World>)
    ensures r.None? <==> w.pending == []
    ensures r.Some? ==> forall i :: 0 <= i < |w.pending| ==> r.value.now <= w.pending[i].due
    ensures r.Some? ==> exists i :: 0 <= i < |w.pending| && r.value.now == w.pending[i].due
  {
    if w.pending == [] then None
    else
      var k := Earliest(w.pending);
      Some(Fire(w.(now := w.pending[k].due, pending := RemoveAt(w.pending, k)), w.pending[k].action))
  }

  /** Time passing between turns of the event loop, before any pending timer
      is due: an event handler such as a click can then run at any instant. */
  function Elapse(w: World, d: nat): (r: World)
    requires DueFrom(w.pending, w.now + d)
    ensures r.now == w.now + d && DueFrom(r.pending, r.now)
    ensures r.loading == w.loading && r.route == w.route && r.overlay == w.overlay && r.pending == w.pending
  {
    w.(now := w.now + d)
  }

  /** One turn of the event loop takes the earliest timer off the queue, moves
      the clock to its due time and runs its callback. */
  lemma StepFires(w: World)
    requires w.pending != []
    ensures Step(w) == Some(Fire(w.(now := w.pending[Earliest(w.pending)].due,
                                    pending := RemoveAt(w.pending, Earliest(w.pending))),
                                 w.pending[Earliest(w.pending)].action))
  {
  }

  /** The overlay's own state stays in range. */
  predicate OverlayValid(o: LS.Overlay)
  {
    && o.messageIndex < |LS.LoadingMessages|
    && (o.phase == LS.Ready ==> o.progress == LS.ProgressFull)
    && (o.phase != LS.Ready ==> 0 <= o.progress <= LS.ProgressFull + 8 && o.progress % LS.ProgressStep == 0)
  }

  /** The invariant of the running application: the overlay is mounted exactly
      while loading; the message is never empty; no timer is overdue; a mounted
      overlay owns exactly one message and one animation interval, and one
      progress interval until it is ready; an unmounted one owns none. */
  predicate Wf(w: World)
  {
    && (w.overlay.Some? <==> w.loading.isLoading)
    && w.loading.loadingMessage != ""
    && (forall i :: 0 <= i < |w.pending| ==> w.now <= w.pending[i].due)
    && Count(w.pending, MessageTimer) == (if w.overlay.Some? then 1 else 0)
    && Count(w.pending, AnimationTimer) == (if w.overlay.Some? then 1 else 0)
    && Count(w.pending, ProgressTimer) == (if w.overlay.Some? && w.overlay.value.phase != LS.Ready then 1 else 0)
    && (w.overlay.Some? ==> OverlayValid(w.overlay.value))
  }

  /** Wf without its mount rule: the timers agree with whatever overlay is
      mounted, as they do between a store update and the re-render. */
  predicate Owns(w: World)
  {
    && w.loading.loadingMessage != ""
    && DueFrom(w.pending, w.now)
    && Count(w.pending, MessageTimer) == (if w.overlay.Some? then 1 else 0)
    && Count(w.pending, AnimationTimer) == (if w.overlay.Some? then 1 else 0)
    && Count(w.pending, ProgressTimer) == (if w.overlay.Some? && w.overlay.value.phase != LS.Ready then 1 else 0)
    && (w.overlay.Some? ==> OverlayValid(w.overlay.value))
  }

  lemma InitialWf(route: string)
    ensures Wf(InitialWorld(route))
  {
  }

  /** Re-rendering restores the mount rule without breaking the rest. */
  lemma RenderWf(w: World)
    requires Owns(w)
    ensures Wf(Render(w))
  {
    var r := Render(w);
    if w.loading.isLoading && w.overlay.None? {
      var m := MountTimers(w.now);
      assert m == [m[0]] + [m[1]] + [m[2]];
      forall a: Action
        ensures Count(r.pending, a) == Count(w.pending, a) + (if a in OverlayIntervals then 1 else 0)
      {
        CountAppendOne(w.pending, m[0], a);
        CountAppendOne(w.pending + [m[0]], m[1], a);
        CountAppendOne(w.pending + [m[0]] + [m[1]], m[2], a);
        assert w.pending + m == w.pending + [m[0]] + [m[1]] + [m[2]];
      }
      DueFromAppend(w.pending, m, w.now);
    } else if !w.loading.isLoading && w.overlay.Some? {
      DueFromCancel(w.pending, OverlayIntervals, w.now);
    }
  }

  /** `navigateWithLoading` keeps the invariant. */
  lemma NavigateWithLoadingWf(w: World, path: string, message: Option<string>)
    requires Wf(w)
    ensures Wf(NavigateWithLoading(w, path, message))
  {
    var t := Timer(w.now + PageTransition.NavigateDelay, NavigateAfterDelay(path));
    var shown := w.(
      loading := LC.Show(w.loading, Some(PageTransition.ResolveMessage(path, message))),
      pending := w.pending + [t]);
    CountAppendOne(w.pending, t, MessageTimer);
    CountAppendOne(w.pending, t, AnimationTimer);
    CountAppendOne(w.pending, t, ProgressTimer);
    DueFromAppend(w.pending, [t], w.now);
    RenderWf(shown);
  }

  /** Appending one re-armed or follow-up timer due no earlier than now. */
  lemma AppendTimerOwns(w: World, t: Timer<Action>)
    requires DueFrom(w.pending, w.now) && w.now <= t.due
    ensures DueFrom(w.pending + [t], w.now)
    ensures forall a :: Count(w.pending + [t], a) == Count(w.pending, a) + (if t.action == a then 1 else 0)
  {
    DueFromAppend(w.pending, [t], w.now);
    forall a
      ensures Count(w.pending + [t], a) == Count(w.pending, a) + (if t.action == a then 1 else 0)
    {
      CountAppendOne(w.pending, t, a);
    }
  }

  /** The state right after a timer with action `a` was taken off the queue
      of a Wf world and the clock moved to its due time. */
  predicate Taken(w: World, a: Action)
  {
    && (w.overlay.Some? <==> w.loading.isLoading)
    && w.loading.loadingMessage != ""
    && DueFrom(w.pending, w.now)
    && (w.overlay.Some? ==> OverlayValid(w.overlay.value))
    && Count(w.pending, MessageTimer) + (if a == MessageTimer then 1 else 0) == (if w.overlay.Some? then 1 else 0)
    && Count(w.pending, AnimationTimer) + (if a == AnimationTimer then 1 else 0) == (if w.overlay.Some? then 1 else 0)
    && Count(w.pending, ProgressTimer) + (if a == ProgressTimer then 1 else 0)
       == (if w.overlay.Some? && w.overlay.value.phase != LS.Ready then 1 else 0)
  }

  lemma FireNavigationWf(w: World, path: string)
    requires Taken(w, NavigateAfterDelay(path))
    ensures Wf(Fire(w, NavigateAfterDelay(path)))
  {
    AppendTimerOwns(w.(route := path), Timer(w.now + PageTransition.HideDelay, HideAfterNavigate));
  }

  lemma FireHideWf(w: World, a: Action)
    requires a == HideAfterNavigate || a == LoadComplete
    requires Taken(w, a)
    ensures Wf(Fire(w, a))
  {
    RenderWf(w.(loading := LC.Hide(w.loading)));
  }

  lemma FireProgressWf(w: World)
    requires Taken(w, ProgressTimer)
    ensures Wf(Fire(w, ProgressTimer))
  {
    var o := w.overlay.value;
    match LS.ProgressUpdate(o.progress) {
      case Advance(next) =>
        AppendTimerOwns(w.(overlay := Some(o.(progress := next))), Timer(w.now + LS.ProgressInterval, ProgressTimer));
      case Finish =>
        AppendTimerOwns(w.(overlay := Some(o.(progress := LS.ProgressFull, phase := LS.Ready))),
                        Timer(w.now + LS.CompletionDelay, LoadComplete));
    }
  }

  lemma FireMessageWf(w: World)
    requires Taken(w, MessageTimer)
    ensures Wf(Fire(w, MessageTimer))
  {
    var o := w.overlay.value;
    AppendTimerOwns(w.(overlay := Some(o.(messageIndex := LS.NextMessageIndex(o.messageIndex)))),
                    Timer(w.now + LS.MessageInterval, MessageTimer));
  }

  lemma FireAnimationWf(w: World)
    requires Taken(w, AnimationTimer)
    ensures Wf(Fire(w, AnimationTimer))
  {
    var o := w.overlay.value;
    AppendTimerOwns(w.(overlay := Some(o.(phase := LS.NextPhase(o.phase)))),
                    Timer(w.now + LS.AnimationInterval, AnimationTimer));
  }

  /** Every turn of the event loop keeps the invariant. */
  lemma StepWf(w: World)
    requires Wf(w) && w.pending != []
    ensures Wf(Step(w).value)
  {
    var k := Earliest(w.pending);
    var t := w.pending[k];
    var w1 := w.(now := t.due, pending := RemoveAt(w.pending, k));
    RemoveEarliestDueFrom(w.pending);
    CountRemoveAt(w.pending, k, MessageTimer);
    CountRemoveAt(w.pending, k, AnimationTimer);
    CountRemoveAt(w.pending, k, ProgressTimer);
    assert Taken(w1, t.action);
    assert Step(w).value == Fire(w1, t.action);
    match t.action
    case NavigateAfterDelay(path) => FireNavigationWf(w1, path);
    case HideAfterNavigate => FireHideWf(w1, t.action);
    case LoadComplete => FireHideWf(w1, t.action);
    case ProgressTimer => FireProgressWf(w1);
    case MessageTimer => FireMessageWf(w1);
    case AnimationTimer => FireAnimationWf(w1);
  }

  /** Time passing up to the next due time keeps the invariant, so an event
      handler may run at any instant between two timers. */
  lemma ElapseWf(w: World, d: nat)
    requires Wf(w) && DueFrom(w.pending, w.now + d)
    ensures Wf(Elapse(w, d))
  {
  }

  /** The clock never runs backwards. */
  lemma ClockMonotone(w: World)
    requires Wf(w) && w.pending != []
    ensures Step(w).value.now >= w.now
  {
  }

  /** The 800 ms callback: the route changes to `path`, the store and the
      overlay are untouched, and `hideLoading` is registered 300 ms later. */
  lemma NavigationFires(w: World, path: string)
    requires w.pending != []
    requires w.pending[Earliest(w.pending)].action == NavigateAfterDelay(path)
    ensures Step(w).value.route == path
    ensures Step(w).value.now == w.pending[Earliest(w.pending)].due
    ensures Step(w).value.loading == w.loading && Step(w).value.overlay == w.overlay
    ensures Step(w).value.pending
            == RemoveAt(w.pending, Earliest(w.pending)) + [Timer(Step(w).value.now + PageTransition.HideDelay, HideAfterNavigate)]
  {
    var k := Earliest(w.pending);
    var w1 := w.(now := w.pending[k].due, pending := RemoveAt(w.pending, k));
    var r := Fire(w1, NavigateAfterDelay(path));
    assert r.route == path && r.now == w1.now && r.loading == w.loading && r.overlay == w.overlay;
    assert r.pending == w1.pending + [Timer(w1.now + PageTransition.HideDelay, HideAfterNavigate)];
    assert Step(w) == Some(r) by {
      StepFires(w);
    }
  }

  /** `hideLoading`, from the transition or from the overlay's completion:
      the flag clears, the message stays, the overlay unmounts and its three
      intervals are gone, while every other pending timer (a completion
      timeout included) is kept. */
  lemma HideFires(w: World)
    requires Wf(w) && w.pending != []
    requires w.pending[Earliest(w.pending)].action in {HideAfterNavigate, LoadComplete}
    ensures Step(w).value.loading == LC.Hide(w.loading)
    ensures Step(w).value.route == w.route && Step(w).value.overlay == None
    ensures forall a :: a in OverlayIntervals ==> Count(Step(w).value.pending, a) == 0
    ensures forall a :: a !in OverlayIntervals ==>
              Count(Step(w).value.pending, a) == Count(RemoveAt(w.pending, Earliest(w.pending)), a)
  {
    var k := Earliest(w.pending);
    forall a | a in OverlayIntervals && w.overlay.None?
      ensures Count(RemoveAt(w.pending, k), a) == 0
    {
      CountRemoveAt(w.pending, k, a);
    }
  }

  /** The overlay's interval ticks change neither the store nor the route. */
  lemma TicksLeaveStoreAndRoute(w: World)
    requires w.pending != []
    requires w.pending[Earliest(w.pending)].action in OverlayIntervals
    ensures Step(w).value.loading == w.loading && Step(w).value.route == w.route
  {
  }

  /** The first progress tick that sees 100 or more sets progress to exactly
      100 and the phase to ready, leaves no progress interval behind, and
      registers one `onLoadComplete` call 1000 ms later. */
  lemma CompletionScheduledOnce(w: World)
    requires Wf(w) && w.pending != []
    requires w.pending[Earliest(w.pending)].action == ProgressTimer
    requires w.overlay.Some? && w.overlay.value.progress >= LS.ProgressFull
    ensures Step(w).value.overlay.Some?
    ensures Step(w).value.overlay.value.progress == LS.ProgressFull
    ensures Step(w).value.overlay.value.phase == LS.Ready
    ensures Count(Step(w).value.pending, ProgressTimer) == 0
    ensures Count(Step(w).value.pending, LoadComplete) == Count(w.pending, LoadComplete) + 1
    ensures Step(w).value.pending[|Step(w).value.pending| - 1]
            == Timer(Step(w).value.now + LS.CompletionDelay, LoadComplete)
  {
    var k := Earliest(w.pending);
    var w1 := w.(now := w.pending[k].due, pending := RemoveAt(w.pending, k));
    var o := w.overlay.value;
    var done := Timer(w1.now + LS.CompletionDelay, LoadComplete);
    var r := w1.(overlay := Some(o.(progress := LS.ProgressFull, phase := LS.Ready)), pending := w1.pending + [done]);
    assert Step(w).value == r by {
      StepFires(w);
    }
    assert Count(r.pending, ProgressTimer) == 0 by {
      assert Count(w.pending, ProgressTimer) <= 1;
      CountRemoveAt(w.pending, k, ProgressTimer);
      CountAppendOne(w1.pending, done, ProgressTimer);
    }
    assert Count(r.pending, LoadComplete) == Count(w.pending, LoadComplete) + 1 by {
      CountRemoveAt(w.pending, k, LoadComplete);
      CountAppendOne(w1.pending, done, LoadComplete);
    }
  }

  /** The running application follows the overlay's progress schedule: if
      the mounted overlay shows the value after `n` ticks, the next progress
      tick leaves the value after `n + 1`. With `LS.ProgressSchedule` this
      gives 1.2 per tick up to 100.8, and then exactly 100. */
  lemma TickFollowsSchedule(w: World, n: nat)
    requires w.overlay.Some? && w.overlay.value.progress == LS.ProgressAfter(n)
    ensures Fire(w, ProgressTimer).overlay.Some?
    ensures Fire(w, ProgressTimer).overlay.value.progress == LS.ProgressAfter(n + 1)
  {
    assert LS.ProgressAfter(n + 1) == LS.ProgressAfterTick(LS.ProgressAfter(n));
  }

  /** Firing a callback cancels nothing but, on unmount, the overlay's intervals. */
  lemma FireKeeps(w: World, a: Action)
    ensures forall t :: t in w.pending && t.action !in OverlayIntervals ==> t in Fire(w, a).pending
  {
  }

  /** No cancellation: every pending timer other than the one that fired and
      the overlay's intervals is still pending after a turn of the event loop. */
  lemma NoCancellation(w: World)
    requires w.pending != []
    ensures forall i :: 0 <= i < |w.pending| && i != Earliest(w.pending) && w.pending[i].action !in OverlayIntervals
              ==> w.pending[i] in Step(w).value.pending
  {
    var k := Earliest(w.pending);
    var w1 := w.(now := w.pending[k].due, pending := RemoveAt(w.pending, k));
    FireKeeps(w1, w.pending[k].action);
    forall i | 0 <= i < |w.pending| && i != k && w.pending[i].action !in OverlayIntervals
      ensures w.pending[i] in w1.pending
    {
      if i < k {
        assert w1.pending[i] == w.pending[i];
      } else {
        assert w1.pending[i - 1] == w.pending[i];
      }
    }
  }

  /** In this application the overlay's headline is always the store's
      message: the six cycling texts are never shown. */
  lemma HeadlineShowsStoreMessage(w: World)
    requires Wf(w) && w.overlay.Some?
    ensures LS.Headline(RenderOverlay(w.loading).value.message, w.overlay.value.messageIndex)
            == w.loading.loadingMessage
  {
  }

  /** `navigateWithLoading('/contact')` from a fresh application: the overlay
      mounts with "Opening Contact Form...", the navigation is due at 800 ms,
      and the overlay's intervals at 30, 1500 and 2500 ms. */
  lemma ContactScenario()
    ensures NavigateWithLoading(InitialWorld("/"), "/contact", None).loading
            == LC.LoadingState(true, "Opening Contact Form...")
    ensures NavigateWithLoading(InitialWorld("/"), "/contact", None).overlay == Some(LS.Mount())
    ensures NavigateWithLoading(InitialWorld("/"), "/contact", None).pending
            == [Timer(800, NavigateAfterDelay("/contact")), Timer(30, ProgressTimer),
                Timer(1500, MessageTimer), Timer(2500, AnimationTimer)]
    ensures NavigateWithLoading(InitialWorld("/"), "/contact", None) == ContactStart()
  {
    PageTransition.ContactScenario();
  }

  /** The application right after that call, written out. */
  function ContactStart(): World
  {
    World(LC.LoadingState(true, "Opening Contact Form..."), "/", Some(LS.Mount()), 0,
          [Timer(800, NavigateAfterDelay("/contact")), Timer(30, ProgressTimer),
           Timer(1500, MessageTimer), Timer(2500, AnimationTimer)])
  }

  /** The first timer of that transition to fire is the 30 ms progress tick. */
  lemma ContactFirstTick()
    ensures Step(ContactStart()).value.now == 30
    ensures Step(ContactStart()).value.overlay == Some(LS.Overlay(12, LS.Boot, 0))
  {
    var w := ContactStart();
    var nav := Timer(800, NavigateAfterDelay("/contact"));
    var rest := [Timer(1500, MessageTimer), Timer(2500, AnimationTimer)];
    var w1 := w.(now := 30, pending := [nav] + rest);
    assert Step(w) == Some(Fire(w1, ProgressTimer)) by {
      assert w.pending == [nav, Timer(30, ProgressTimer)] + rest;
      EarliestSecond(nav, Timer(30, ProgressTimer), rest);
    }
    assert Fire(w1, ProgressTimer).overlay == Some(LS.Overlay(12, LS.Boot, 0)) by {
      assert LS.ProgressUpdate(0) == LS.Advance(12);
    }
  }

  /** A timer due strictly before the one registered ahead of it, and no later
      than any registered after it, is the one that fires. */
  lemma EarliestSecond(a: Timer<Action>, b: Timer<Action>, rest: seq<Timer<Action>>)
    requires b.due < a.due && forall t :: t in rest ==> b.due <= t.due
    ensures Earliest([a, b] + rest) == 1
    ensures RemoveAt([a, b] + rest, 1) == [a] + rest
  {
    var q := [a, b] + rest;
    assert q[1..] == [b] + rest;
    assert q[..1] == [a] && q[2..] == rest;
  }
}
