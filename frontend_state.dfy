/**
 * The desktop front end's state store (src/frontend/state.js): one record,
 * replaced on every update by a shallow merge in which the update's keys win.
 * A record is a map from key to value; the update is a partial record.
 */
module FrontendState {
  import Config

  /** The values the store holds. */
  datatype Value = Bool(b: bool) | Number(n: real) | Null | Undefined

  type Record = map<string, Value>

  /** The record the module starts with. */
  function InitialState(): (s: Record)
    ensures s.Keys == {"isConnectedToWheel", "isConnectedToUDP", "dataReceived", "inTestMode",
                       "flashInterval", "blinkThreshold", "maxRpm", "socket", "currentRpm"}
  {
    map[
      "isConnectedToWheel" := Bool(false),
      "isConnectedToUDP" := Bool(false),
      "dataReceived" := Bool(false),
      "inTestMode" := Bool(true),
      "flashInterval" := Number(Config.DefaultFlashInterval as real),
      "blinkThreshold" := Number(Config.DefaultBlinkThreshold),
      "maxRpm" := Number(Config.DefaultMaxRpm),
      "socket" := Null,
      "currentRpm" := Number(0.0)]
  }

  /** `{...state, ...update}`. */
  function Merge(state: Record, update: Record): (r: Record)
    ensures r.Keys == state.Keys + update.Keys
    ensures forall k :: k in update ==> r[k] == update[k]
    ensures forall k :: k in state && k !in update ==> r[k] == state[k]
  {
    state + update
  }

  /** Reading a key as JavaScript does: a missing key is `undefined`. */
  function Get(state: Record, key: string): Value {
    if key in state then state[key] else Undefined
  }

  /** JavaScript truthiness of a stored value. */
  predicate Truthy(v: Value) {
    match v
    case Bool(b) => b
    case Number(n) => n != 0.0
    case Null => false
    case Undefined => false
  }

  /** The update the "switch-to-test-mode" message applies: `inTestMode` negated. */
  function ToggleTestMode(state: Record): (u: Record)
    ensures u.Keys == {"inTestMode"}
    ensures u["inTestMode"] == Bool(!Truthy(Get(state, "inTestMode")))
  {
    map["inTestMode" := Bool(!Truthy(Get(state, "inTestMode")))]
  }

  // Properties of the merge

  /** The empty update changes nothing. */
  lemma MergeEmpty(state: Record)
    ensures Merge(state, map[]) == state
  {
  }

  /** Applying the same update twice is applying it once. */
  lemma MergeIdempotent(state: Record, update: Record)
    ensures Merge(Merge(state, update), update) == Merge(state, update)
  {
  }

  /** Two updates in a row are one update in which the second one's keys win. */
  lemma MergeCompose(state: Record, a: Record, b: Record)
    ensures Merge(Merge(state, a), b) == Merge(state, Merge(a, b))
  {
  }

  /** The start state: test mode, nothing connected, defaults from the configuration. */
  lemma InitialStateValues()
    ensures Get(InitialState(), "inTestMode") == Bool(true)
    ensures Get(InitialState(), "isConnectedToWheel") == Bool(false)
    ensures Get(InitialState(), "isConnectedToUDP") == Bool(false)
    ensures Get(InitialState(), "dataReceived") == Bool(false)
    ensures Get(InitialState(), "currentRpm") == Number(0.0)
    ensures Get(InitialState(), "maxRpm") == Number(7000.0)
    ensures Get(InitialState(), "flashInterval") == Number(100.0)
    ensures Get(InitialState(), "blinkThreshold") == Number(0.9)
  {
  }

  /** Toggling flips only the mode, and toggling twice restores a boolean mode. */
  lemma ToggleTwice(state: Record)
    requires "inTestMode" in state && state["inTestMode"].Bool?
    ensures var s1 := Merge(state, ToggleTestMode(state));
            s1["inTestMode"] == Bool(!state["inTestMode"].b)
            && (forall k :: k in state && k != "inTestMode" ==> s1[k] == state[k])
            && Merge(s1, ToggleTestMode(s1)) == state
  {
  }

  /** The module-level `state` variable with its two accessors. */
  class Store {
    var state: Record

    constructor ()
      ensures state == InitialState()
    {
      state := InitialState();
    }

    /** updateState: the state becomes the shallow merge. */
    method UpdateState(newState: Record)
      modifies this
      ensures state == Merge(old(state), newState)
    {
      state := Merge(state, newState);
    }

    /** getState: the most recently assigned record. */
    method GetState() returns (s: Record)
      ensures s == state
    {
      s := state;
    }
  }
}
