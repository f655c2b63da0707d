/**
 * The application state as the source holds it: the provider's state cells
 * live in a `LoadingProvider` object, and the route, the mounted overlay, the
 * clock and the timer queue are fields that the callbacks overwrite in place.
 * Every method is specified by the value it leaves in `World()`, in terms of
 * the functions of module App.
 */
module Runtime {
  import opened Wrappers
  import opened Timers
  import LC = LoadingContext
  import PageTransition
  import LS = LoadingScreen
  import App

  class AppRuntime {
    const store: LC.LoadingProvider
    var route: string
    var overlay: Option<LS.Overlay>
    var now: int
    var pending: seq<Timer<App.Action>>

    /** The value of the whole application state. */
    function World(): App.World
      reads this, store
    {
      App.World(store.State(), route, overlay, now, pending)
    }

    constructor (initialRoute: string)
      ensures fresh(store)
      ensures World() == App.InitialWorld(initialRoute)
    {
      store := new LC.LoadingProvider();
      route := initialRoute;
      overlay := None;
      now := 0;
      pending := [];
    }

    /** Re-render after the store changed: mount or unmount the overlay. */
    method Render()
      modifies this
      ensures World() == App.Render(old(World()))
    {
      if store.isLoading && overlay.None? {
        overlay := Some(LS.Mount());
        pending := pending + App.MountTimers(now);
      } else if !store.isLoading && overlay.Some? {
        overlay := None;
        pending := Cancel(pending, App.OverlayIntervals);
      }
    }

    /** `navigateWithLoading(path, message)`. */
    method NavigateWithLoading(path: string, message: Option<string>)
      modifies this, store
      ensures World() == App.NavigateWithLoading(old(World()), path, message)
    {
      var resolved := PageTransition.ResolveMessage(path, message);
      store.ShowLoading(Some(resolved));
      pending := pending + [Timer(now + PageTransition.NavigateDelay, App.NavigateAfterDelay(path))];
      Render();
    }

    /** A router `<Link>`: the route changes at once, with no overlay. */
    method FollowLink(path: string)
      modifies this
      ensures World() == old(World()).(route := path)
    {
      route := path;
    }

    /** Time passes by `d` ms with no timer falling due. */
    method Wait(d: nat)
      requires DueFrom(pending, now + d)
      modifies this
      ensures World() == App.Elapse(old(World()), d)
    {
      now := now + d;
    }

    /** One turn of the event loop: fire the earliest pending timer, if any. */
    method RunNextTimer() returns (fired: bool)
      modifies this, store
      ensures fired <==> old(pending) != []
      ensures fired ==> World() == App.Step(old(World())).value
      ensures !fired ==> World() == old(World())
    {
      if pending == [] {
        return false;
      }
      var k := Earliest(pending);
      var t := pending[k];
      now, pending := t.due, RemoveAt(pending, k);
      Fire(t.action);
      fired := true;
    }

    /** Run the callback of a timer already taken off the queue. */
    method Fire(a: App.Action)
      modifies this, store
      ensures World() == App.Fire(old(World()), a)
    {
      match a {
        case NavigateAfterDelay(path) =>
          route := path;
          pending := pending + [Timer(now + PageTransition.HideDelay, App.HideAfterNavigate)];
        case HideAfterNavigate =>
          store.HideLoading();
          Render();
        case LoadComplete =>
          store.HideLoading();
          Render();
        case ProgressTimer =>
          TickProgress();
        case MessageTimer =>
          if overlay.Some? {
            var o := overlay.value;
            overlay := Some(o.(messageIndex := LS.NextMessageIndex(o.messageIndex)));
            pending := pending + [Timer(now + LS.MessageInterval, App.MessageTimer)];
          }
        case AnimationTimer =>
          if overlay.Some? {
            var o := overlay.value;
            overlay := Some(o.(phase := LS.NextPhase(o.phase)));
            pending := pending + [Timer(now + LS.AnimationInterval, App.AnimationTimer)];
          }
      }
    }

    /** The progress interval's callback. */
    method TickProgress()
      modifies this
      ensures World() == App.Fire(old(World()), App.ProgressTimer)
    {
      if overlay.Some? {
        var o := overlay.value;
        match LS.ProgressUpdate(o.progress) {
          case Advance(next) =>
            overlay := Some(o.(progress := next));
            pending := pending + [Timer(now + LS.ProgressInterval, App.ProgressTimer)];
          case Finish =>
            overlay := Some(o.(progress := LS.ProgressFull, phase := LS.Ready));
            pending := pending + [Timer(now + LS.CompletionDelay, App.LoadComplete)];
        }
      }
    }
  }
}
