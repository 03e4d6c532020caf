/**
 * The store slice holding the language-model configuration
 * (reducers/aiconfig.ts): a save replaces it with the payload's four
 * fields, a clear blanks all four, and every other action leaves it alone.
 */
module AIConfigReducer {

  /** A model configuration record (`TModel`). */
  datatype ModelConfig = ModelConfig(provider: string, apiKey: string, model: string, baseURL: string)

  /** The slice: the initial empty object `{}`, or a configuration record. */
  datatype AIConfigState = Unset | Config(config: ModelConfig)

  /** The actions the reducer distinguishes, by their `type`. */
  datatype CoreAction =
    | SaveAIConfig(payload: ModelConfig)   // type 'save_ai_config'
    | ClearAIConfig                        // type 'clear_ai_config'
    | OtherAction(actionType: string)      // any other type

  /** The `type` string an action carries. */
  function ActionType(a: CoreAction): string {
    match a
    case SaveAIConfig(_) => "save_ai_config"
    case ClearAIConfig => "clear_ai_config"
    case OtherAction(t) => t
  }

  /** An action whose `type` is neither of the two configuration types. */
  predicate WellFormed(a: CoreAction) {
    a.OtherAction? ==> a.actionType != "save_ai_config" && a.actionType != "clear_ai_config"
  }

  /** The state before any action: the empty object. */
  const InitialState: AIConfigState := Unset

  /** The all-blank record a clear leaves behind. */
  const Cleared: ModelConfig := ModelConfig("", "", "", "")

  /** `aiConfigReducer(state, action)`. */
  function Reduce(state: AIConfigState, action: CoreAction): (r: AIConfigState)
    requires WellFormed(action)
    ensures ActionType(action) == "save_ai_config" ==> r == Config(action.payload)
    ensures ActionType(action) == "clear_ai_config" ==> r == Config(Cleared)
    ensures ActionType(action) != "save_ai_config" && ActionType(action) != "clear_ai_config" ==> r == state
  {
    if action.SaveAIConfig? then
      var p := action.payload;
      Config(ModelConfig(p.provider, p.apiKey, p.model, p.baseURL))
    else if action.ClearAIConfig? then
      Config(Cleared)
    else
      state
  }

  /** The state after a sequence of actions, starting from `state`. */
  function ReduceAll(state: AIConfigState, actions: seq<CoreAction>): AIConfigState
    requires forall i :: 0 <= i < |actions| ==> WellFormed(actions[i])
    decreases |actions|
  {
    if actions == [] then state else ReduceAll(Reduce(state, actions[0]), actions[1..])
  }

  /** Two saves in a row: the second one wins, whatever came before. */
  lemma LastSaveWins(state: AIConfigState, p: ModelConfig, q: ModelConfig)
    ensures Reduce(Reduce(state, SaveAIConfig(p)), SaveAIConfig(q)) == Reduce(state, SaveAIConfig(q))
    ensures Reduce(state, SaveAIConfig(q)) == Config(q)
  {
  }

  /** Clearing twice is clearing once, and the result does not depend on the state. */
  lemma ClearIdempotent(state: AIConfigState, other: AIConfigState)
    ensures Reduce(Reduce(state, ClearAIConfig), ClearAIConfig) == Reduce(state, ClearAIConfig)
    ensures Reduce(state, ClearAIConfig) == Reduce(other, ClearAIConfig)
  {
  }

  /** A save followed by a clear is just a clear. */
  lemma SaveThenClear(state: AIConfigState, p: ModelConfig)
    ensures Reduce(Reduce(state, SaveAIConfig(p)), ClearAIConfig) == Reduce(state, ClearAIConfig)
  {
  }

  /** A history of unrelated actions leaves the slice as it was. */
  lemma {:induction false} OthersLeaveStateAlone(state: AIConfigState, actions: seq<CoreAction>)
    requires forall i :: 0 <= i < |actions| ==> WellFormed(actions[i]) && actions[i].OtherAction?
    ensures ReduceAll(state, actions) == state
  {
    if actions != [] {
      OthersLeaveStateAlone(state, actions[1..]);
    }
  }

  /**
   * Last writer wins over a whole history: once the history contains a save
   * or a clear, the final slice does not depend on the state it started from.
   */
  lemma {:induction false} LastWriterWins(s1: AIConfigState, s2: AIConfigState, actions: seq<CoreAction>)
    requires forall i :: 0 <= i < |actions| ==> WellFormed(actions[i])
    requires exists i :: 0 <= i < |actions| && !actions[i].OtherAction?
    ensures ReduceAll(s1, actions) == ReduceAll(s2, actions)
  {
    if actions[0].OtherAction? {
      var i :| 0 <= i < |actions| && !actions[i].OtherAction?;
      assert actions[1..][i - 1] == actions[i];
      LastWriterWins(s1, s2, actions[1..]);
    }
  }

  /** After a history that ends in a save, the slice is that save's payload. */
  lemma {:induction false} EndsWithSave(state: AIConfigState, actions: seq<CoreAction>, p: ModelConfig)
    requires forall i :: 0 <= i < |actions| ==> WellFormed(actions[i])
    ensures ReduceAll(state, actions + [SaveAIConfig(p)]) == Config(p)
    decreases |actions|
  {
    if actions != [] {
      assert (actions + [SaveAIConfig(p)])[1..] == actions[1..] + [SaveAIConfig(p)];
      EndsWithSave(Reduce(state, actions[0]), actions[1..], p);
    }
  }

  /** Once the slice holds a record, no action takes it back to the empty object. */
  lemma {:induction false} ConfigStaysConfig(state: AIConfigState, actions: seq<CoreAction>)
    requires forall i :: 0 <= i < |actions| ==> WellFormed(actions[i])
    requires state.Config?
    ensures ReduceAll(state, actions).Config?
    decreases |actions|
  {
    if actions != [] {
      ConfigStaysConfig(Reduce(state, actions[0]), actions[1..]);
    }
  }

  /**
   * The slice stays the initial empty object exactly as long as no save or
   * clear has been reduced.
   */
  lemma {:induction false} InitialUntilWritten(actions: seq<CoreAction>)
    requires forall i :: 0 <= i < |actions| ==> WellFormed(actions[i])
    ensures ReduceAll(InitialState, actions) == Unset <==> forall i :: 0 <= i < |actions| ==> actions[i].OtherAction?
    decreases |actions|
  {
    if actions != [] {
      if actions[0].OtherAction? {
        InitialUntilWritten(actions[1..]);
        assert (forall i :: 0 <= i < |actions| ==> actions[i].OtherAction?) <==>
               (forall i :: 0 <= i < |actions[1..]| ==> actions[1..][i].OtherAction?);
      } else {
        ConfigStaysConfig(Reduce(InitialState, actions[0]), actions[1..]);
      }
    }
  }
}
