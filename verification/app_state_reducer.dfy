/**
 * `appStateReducer`: the front end's view of the store state, with `ready`
 * set from the settings check.
 */
module AppState {
  import opened Types
  import opened TokenRequestSettings

  /** `{ ...state, ready }`; spreading an undefined state gives `{}`. */
  function AppStateReducer(state: Option<State>): (r: State)
    ensures r.ready == Some(HasLoadedTokenRequestSettings(state))
    ensures state.Some? ==> r.(ready := state.value.ready) == state.value
    ensures state.None? ==> r == EmptyState.(ready := Some(false))
  {
    var base := if state.Some? then state.value else EmptyState;
    base.(ready := Some(HasLoadedTokenRequestSettings(state)))
  }

  /** Setting `ready` never changes the settings check when `ready` is not a listed key. */
  lemma {:induction false} ReadyDoesNotAffectLoaded(settings: seq<(string, string)>, state: State, ready: Option<bool>)
    requires forall i :: 0 <= i < |settings| ==> settings[i].1 != "ready"
    ensures AllLoaded(settings, state.(ready := ready)) == AllLoaded(settings, state)
  {
    AllLoadedReadsOnlyListedKeys(settings, state.(ready := ready), state);
  }

  /** Applying the reducer twice is applying it once. */
  lemma AppStateReducerIdempotent(state: Option<State>)
    ensures AppStateReducer(Some(AppStateReducer(state))) == AppStateReducer(state)
  {
    var once := AppStateReducer(state);
    var base := if state.Some? then state.value else EmptyState;
    ReadyDoesNotAffectLoaded(Settings, base, once.ready);
  }

  /** A state without accepted tokens is not ready. */
  lemma NotReadyWithoutAcceptedTokens(state: State)
    requires state.acceptedTokens.None?
    ensures AppStateReducer(Some(state)).ready == Some(false)
  {
  }
}
