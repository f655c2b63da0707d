/**
 * The pure part of `navigateWithLoading` in `src/hooks/usePageTransition.tsx`:
 * which text the overlay shows, and the two fixed delays. The timed
 * show/navigate/hide sequence itself acts on the whole application and is
 * modelled in module App.
 */
module PageTransition {
  import opened Wrappers

  /** The destination-to-message table. */
  const LoadingMessages: map<string, string> := map[
    "/" := "Navigating to Home...",
    "/about" := "Loading About Information...",
    "/services" := "Preparing Services Overview...",
    "/demo" := "Setting up Demo Environment...",
    "/contact" := "Opening Contact Form..."
  ]

  /** Used when neither an explicit message nor the table gives one. */
  const FallbackMessage: string := "Loading Page..."

  /** Milliseconds from `showLoading` to `navigate`. */
  const NavigateDelay: int := 800

  /** Milliseconds from `navigate` to `hideLoading`. */
  const HideDelay: int := 300

  /** JavaScript's `a || b` on strings: the empty string is falsy. */
  function OrElse(a: string, b: string): string
  {
    if a != "" then a else b
  }

  /** `loadingMessages[path]`, with a missing key (`undefined`, falsy) as "". */
  function Lookup(path: string): string
  {
    if path in LoadingMessages then LoadingMessages[path] else ""
  }

  /** `message || loadingMessages[path] || 'Loading Page...'`. */
  function ResolveMessage(path: string, message: Option<string>): (r: string)
    ensures r != ""
    ensures message.Some? && message.value != "" ==> r == message.value
    ensures (message.None? || message.value == "") && path in LoadingMessages ==> r == LoadingMessages[path]
    ensures (message.None? || message.value == "") && path !in LoadingMessages ==> r == FallbackMessage
  {
    var explicit := match message case Some(m) => m case None => "";
    OrElse(OrElse(explicit, Lookup(path)), FallbackMessage)
  }

  /** Every table entry is a non-empty message other than the fallback, so a
      table path never shows "Loading Page...". */
  lemma TableMessagesDistinctFromFallback(path: string)
    requires path in LoadingMessages
    ensures LoadingMessages[path] != "" && LoadingMessages[path] != FallbackMessage
    ensures ResolveMessage(path, None) != FallbackMessage
  {
  }

  /** The scenario: `navigateWithLoading('/contact')` shows "Opening Contact Form...". */
  lemma ContactScenario()
    ensures ResolveMessage("/contact", None) == "Opening Contact Form..."
  {
  }
}
