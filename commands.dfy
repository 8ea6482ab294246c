/**
 * `handleCommand`: an exact, case-sensitive switch on the command text that
 * calls the caller's setters. The setter calls are returned in the order
 * they are made, and `Apply` plays them on the caller's state.
 */
module Commands {

  const SETTINGS := "settings"

  /** The one command the dispatcher acts on, compared exactly and case-sensitively. */
  predicate OpensSettings(command: string) {
    command == SETTINGS
  }

  /** A call of one of the two setter callbacks the dispatcher receives. */
  datatype SetterCall = SetShowSettings(show: bool) | SetInput(value: string)

  /** The caller state those setters write. */
  datatype UiState = UiState(input: string, showSettings: bool)

  /**
   * Opens the settings for exactly the command `settings`, does nothing else
   * for any other command, and always clears the input last.
   */
  method HandleCommand(command: string) returns (calls: seq<SetterCall>)
    ensures |calls| > 0 && calls[|calls| - 1] == SetInput("")
    ensures SetShowSettings(true) in calls <==> command == SETTINGS
    ensures forall call :: call in calls ==> call == SetInput("") || call == SetShowSettings(true)
  {
    calls := [];
    if OpensSettings(command) {
      calls := calls + [SetShowSettings(true)];
    }
    // an unknown command is only logged
    calls := calls + [SetInput("")];
  }

  function Step(call: SetterCall, state: UiState): UiState {
    match call
    case SetShowSettings(show) => state.(showSettings := show)
    case SetInput(value) => state.(input := value)
  }

  /** The caller state after the setter calls, made in order. */
  function Apply(calls: seq<SetterCall>, state: UiState): UiState {
    if calls == [] then state else Apply(calls[1..], Step(calls[0], state))
  }

  /**
   * Calls that only clear the input or open the settings leave the input
   * cleared if any of them cleared it, and the settings open if any of them
   * opened them; otherwise the state is as it was.
   */
  lemma {:induction false} ApplyClearAndOpen(calls: seq<SetterCall>, state: UiState)
    requires forall call :: call in calls ==> call == SetInput("") || call == SetShowSettings(true)
    ensures Apply(calls, state) == UiState(
      if SetInput("") in calls then "" else state.input,
      state.showSettings || SetShowSettings(true) in calls)
  {
    if calls != [] {
      var rest := calls[1..];
      assert calls == [calls[0]] + rest;
      assert forall call :: call in rest ==> call in calls;
      ApplyClearAndOpen(rest, Step(calls[0], state));
      assert calls[0] in calls;
      if calls[0] == SetInput("") {
        assert Step(calls[0], state) == UiState("", state.showSettings);
      } else {
        assert Step(calls[0], state) == UiState(state.input, true);
      }
    }
  }
}
