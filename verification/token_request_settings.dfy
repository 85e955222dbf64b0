/**
 * `hasLoadedtokenRequestSettings`: the state has loaded its settings when
 * every key of the settings list holds a truthy value.
 */
module TokenRequestSettings {
  import opened Types

  /** The settings list: pairs of (name, state key). */
  const Settings: seq<(string, string)> := [("acceptedTokens", "acceptedTokens")]

  /** The keys the store's state object has. */
  const StateKeys: set<string> := {"isSyncing", "token", "acceptedTokens", "requests", "account", "ready"}

  /** `!!state[key]` for the store's fields; any other key reads `undefined`.
      Arrays and objects are truthy even when empty. */
  predicate FieldTruthy(state: State, key: string): (truthy: bool)
    ensures truthy ==> key in StateKeys
    ensures key == "acceptedTokens" ==> (truthy <==> state.acceptedTokens.Some?)
  {
    if key == "isSyncing" then state.isSyncing == Some(true)
    else if key == "token" then state.token.Some?
    else if key == "acceptedTokens" then state.acceptedTokens.Some?
    else if key == "requests" then state.requests.Some?
    else if key == "account" then TruthyOption(state.account)
    else if key == "ready" then state.ready == Some(true)
    else false
  }

  /** The `reduce` over the settings list, seeded with `true`: the conjunction of truthiness
      over every listed key, so the empty list is loaded. */
  function AllLoaded(settings: seq<(string, string)>, state: State): (loaded: bool)
    ensures loaded <==> forall i :: 0 <= i < |settings| ==> FieldTruthy(state, settings[i].1)
    decreases |settings|
  {
    if settings == [] then true
    else
      var init := settings[..|settings| - 1];
      assert forall i :: 0 <= i < |init| ==> init[i] == settings[i];
      AllLoaded(init, state) && FieldTruthy(state, settings[|settings| - 1].1)
  }

  /** `state = state || {}` followed by the fold over the shipped list. */
  function HasLoadedTokenRequestSettings(state: Option<State>): (loaded: bool)
    ensures state.None? ==> !loaded
    ensures state.Some? ==> (loaded <==> state.value.acceptedTokens.Some?)
  {
    AllLoaded(Settings, if state.Some? then state.value else EmptyState)
  }

  /** Only the listed keys matter: two states that agree on them agree on the fold. */
  lemma {:induction false} AllLoadedReadsOnlyListedKeys(settings: seq<(string, string)>, state: State, other: State)
    requires forall i :: 0 <= i < |settings| ==> (FieldTruthy(state, settings[i].1) <==> FieldTruthy(other, settings[i].1))
    ensures AllLoaded(settings, state) == AllLoaded(settings, other)
    decreases |settings|
  {
    if settings != [] {
      var init := settings[..|settings| - 1];
      assert forall i :: 0 <= i < |init| ==> init[i] == settings[i];
      AllLoadedReadsOnlyListedKeys(init, state, other);
    }
  }
}
