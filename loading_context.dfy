/**
 * The loading store of `src/contexts/LoadingContext.tsx`: two state cells,
 * `isLoading` and `loadingMessage`, overwritten by `showLoading` and
 * `hideLoading`, and the `useLoading` accessor that fails fast outside a provider.
 */
module LoadingContext {
  import opened Wrappers

  /** The default argument of `showLoading` and the initial message. */
  const DefaultMessage: string := "Loading..."

  /** The message of the error `useLoading` throws when no provider is above it. */
  const MissingProviderError: string := "useLoading must be used within a LoadingProvider"

  /** The value held by the provider's two state cells. */
  datatype LoadingState = LoadingState(isLoading: bool, loadingMessage: string)

  /** The state when the provider mounts. */
  function Initial(): (s: LoadingState)
    ensures !s.isLoading
    ensures s.loadingMessage == DefaultMessage
  {
    LoadingState(false, DefaultMessage)
  }

  /** `showLoading(message)`; `None` is a call without an argument. */
  function Show(s: LoadingState, message: Option<string>): (r: LoadingState)
    ensures r.isLoading
    ensures message.Some? ==> r.loadingMessage == message.value
    ensures message.None? ==> r.loadingMessage == DefaultMessage
  {
    LoadingState(true, match message case Some(m) => m case None => DefaultMessage)
  }

  /** `hideLoading()`: clears the flag only. */
  function Hide(s: LoadingState): (r: LoadingState)
    ensures !r.isLoading
    ensures r.loadingMessage == s.loadingMessage
  {
    s.(isLoading := false)
  }

  /** Two consecutive `hideLoading` calls leave the same state as one. */
  lemma HideIdempotent(s: LoadingState)
    ensures Hide(Hide(s)) == Hide(s)
  {
  }

  /** `showLoading` does not depend on the state it replaces: while already
      loading, it only replaces the message. */
  lemma ShowOnlyReplacesMessage(s: LoadingState, message: Option<string>)
    requires s.isLoading
    ensures Show(s, message) == s.(loadingMessage := Show(s, message).loadingMessage)
  {
  }

  /** `useLoading()`: the context value of the nearest provider, or the
      missing-provider error instead of any default. */
  function UseLoading<C>(context: Option<C>): (r: Result<C>)
    ensures r.Err? <==> context.None?
    ensures r.Err? ==> r.error == MissingProviderError
    ensures r.Ok? ==> r.value == context.value
  {
    match context
    case None => Err(MissingProviderError)
    case Some(c) => Ok(c)
  }

  /** `LoadingProvider`: the two state cells and their setters. */
  class LoadingProvider {
    var isLoading: bool
    var loadingMessage: string

    /** The value of the two cells. */
    function State(): LoadingState
      reads this
    {
      LoadingState(isLoading, loadingMessage)
    }

    constructor ()
      ensures State() == Initial()
    {
      isLoading := false;
      loadingMessage := DefaultMessage;
    }

    method ShowLoading(message: Option<string>)
      modifies this
      ensures State() == Show(old(State()), message)
    {
      loadingMessage := match message case Some(m) => m case None => DefaultMessage;
      isLoading := true;
    }

    method HideLoading()
      modifies this
      ensures State() == Hide(old(State()))
    {
      isLoading := false;
    }
  }
}
