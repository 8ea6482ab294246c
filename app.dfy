/**
 * The chat session of `App`: the message list, the input line, the typing
 * flag, the settings panel flag and the three connection settings, with the
 * handlers that update them. Each handler is one sequential step; a handler
 * that awaits the network takes what `fetch` resolved to as a parameter.
 */
module App {
  import opened Wrappers
  import opened JsText
  import opened JsValue
  import opened OpenWebUI
  import Commands

  // The long texts are written in pieces so that the verifier can see their characters.
  const FAILED_REPLY := "Failed to get response from API, " + "Check Settings"

  /** The fixed text of a retry prompt, up to the original message it ends with. */
  const RETRY_PREAMBLE :=
    "Acknowledge that your previous response " + "wasn't satisfactory and provide a new, " +
    "different response to the user's " + "question. Take a different approach " +
    "this time by:\n" +
    "1. Using a different perspective " + "or methodology\n" +
    "2. Providing more specific examples " + "or details\n" +
    "3. Breaking down the explanation " + "in a clearer way\n" +
    "4. Being more direct and concise\n" +
    "\n" +
    "Important: Do not repeat content from " + "your previous response. Focus on " +
    "giving a fresh, alternative answer " + "that might better address what the " +
    "user is looking for.\n" +
    "\n" +
    "Original user message: "

  /** The field names a settings form change can carry. */
  const URL_FIELD := "openWebUIUrl"
  const API_KEY_FIELD := "apiKey"
  const MODEL_FIELD := "selectedModel"

  datatype Settings = Settings(openWebUIUrl: string, apiKey: string, selectedModel: string)

  /** What `handleSend` did with the input line. */
  datatype SendAction =
    | Ignored
    | RanCommand(command: string)
    | Sent(history: seq<Message>)

  /** The initial value of a setting: the stored value unless it is missing or empty, else the configured one. */
  function InitialSetting(stored: Option<string>, configured: string): (v: string)
    ensures stored.Some? && stored.value != "" ==> v == stored.value
    ensures stored.None? || stored.value == "" ==> v == configured
  {
    if stored.Some? && stored.value != "" then stored.value else configured
  }

  /** Input that trims to nothing. */
  predicate IsBlank(s: string) {
    Trim(s) == ""
  }

  /** Blank input holds only whitespace and line terminators. */
  lemma BlankIffWhitespace(s: string)
    ensures IsBlank(s) <==> AllWhitespace(s)
  {
  }

  /** The command check looks at the raw first character, before any trimming. */
  predicate IsCommand(s: string) {
    StartsWith(s, ">")
  }

  /** `choices[0].message.content` of a successful reply that has it. */
  function ReplyContent(result: Result<ChatResponse, JsError>): Option<string> {
    if result.Success? && result.value.ChatObject? && result.value.choices.Some?
       && |result.value.choices.value| > 0 && result.value.choices.value[0].message.Some?
    then Some(result.value.choices.value[0].message.value.content)
    else None
  }

  /** The assistant message appended for a reply: its content, or the fixed failure text. */
  function AssistantReply(result: Result<ChatResponse, JsError>): (m: Message)
    ensures m.role == Assistant
    ensures result.Failure? ==> m.content == FAILED_REPLY
    ensures result.Success? && result.value.ChatObject? && result.value.choices.Some?
            && |result.value.choices.value| > 0 && result.value.choices.value[0].message.Some? ==>
              m.content == result.value.choices.value[0].message.value.content
    ensures result.Success? && (result.value.Falsy? || result.value.choices.None? || result.value.choices.value == []) ==>
              m.content == FAILED_REPLY
    ensures result.Success? && result.value.ChatObject? && result.value.choices.Some?
            && |result.value.choices.value| > 0 && result.value.choices.value[0].message.None? ==>
              m.content == FAILED_REPLY
  {
    Message(Assistant, ReplyContent(result).GetOr(FAILED_REPLY))
  }

  function RetryPrompt(original: string): (p: string)
    ensures StartsWith(p, RETRY_PREAMBLE) && |p| == |RETRY_PREAMBLE| + |original|
    ensures p[|RETRY_PREAMBLE|..] == original
  {
    RETRY_PREAMBLE + original
  }

  /** The original message a retry prompt was built from. */
  function OriginalOfRetryPrompt(prompt: string): Option<string> {
    if StartsWith(prompt, RETRY_PREAMBLE) then Some(prompt[|RETRY_PREAMBLE|..]) else None
  }

  /** A retry at `index` does something only when the message before it is the user's. */
  predicate RetryApplies(ms: seq<Message>, index: int) {
    0 < index <= |ms| && ms[index - 1].role == User
  }

  /** Every user message is directly followed by an assistant message. */
  predicate EveryUserAnswered(ms: seq<Message>) {
    forall i :: 0 <= i < |ms| && ms[i].role == User ==> i + 1 < |ms| && ms[i + 1].role == Assistant
  }

  class Session {
    var messages: seq<Message>
    var input: string
    var isTyping: bool
    var showSettings: bool
    var openWebUIUrl: string
    var apiKey: string
    var selectedModel: string

    function CurrentSettings(): Settings
      reads this
    {
      Settings(openWebUIUrl, apiKey, selectedModel)
    }

    /** Between handlers: no request is pending and every user message has its answer. */
    predicate Quiescent()
      reads this
    {
      !isTyping && EveryUserAnswered(messages)
    }

    /** The initial state, each setting taken from storage or else from the configuration. */
    constructor(stored: Settings, configured: Settings)
      ensures messages == [] && input == "" && !isTyping && !showSettings
      ensures openWebUIUrl == InitialSetting(Some(stored.openWebUIUrl), configured.openWebUIUrl)
      ensures apiKey == InitialSetting(Some(stored.apiKey), configured.apiKey)
      ensures selectedModel == InitialSetting(Some(stored.selectedModel), configured.selectedModel)
      ensures Quiescent()
    {
      messages := [];
      input := "";
      isTyping := false;
      showSettings := false;
      openWebUIUrl := InitialSetting(Some(stored.openWebUIUrl), configured.openWebUIUrl);
      apiKey := InitialSetting(Some(stored.apiKey), configured.apiKey);
      selectedModel := InitialSetting(Some(stored.selectedModel), configured.selectedModel);
    }

    /**
     * The part of `handleSend` before the request: blank input is ignored, a
     * `>` line runs the command after it, trimmed, and anything else becomes
     * a user message with the raw input, the input is cleared and typing starts.
     */
    method BeginSend() returns (action: SendAction)
      modifies this`messages, this`input, this`isTyping, this`showSettings
      ensures IsBlank(old(input)) ==>
        && action == Ignored
        && messages == old(messages) && input == old(input) && isTyping == old(isTyping)
        && showSettings == old(showSettings)
      ensures !IsBlank(old(input)) && IsCommand(old(input)) ==>
        && action == RanCommand(Trim(old(input)[1..]))
        && input == ""
        && showSettings == (old(showSettings) || Commands.OpensSettings(action.command))
        && messages == old(messages) && isTyping == old(isTyping)
      ensures !IsBlank(old(input)) && !IsCommand(old(input)) ==>
        && action == Sent(old(messages) + [Message(User, old(input))])
        && messages == action.history && input == "" && isTyping
        && showSettings == old(showSettings)
    {
      if IsBlank(input) {
        action := Ignored;
      } else if IsCommand(input) {
        var command := Trim(input[1..]);
        RunCommand(command);
        action := RanCommand(command);
      } else {
        var userMessage := Message(User, input);
        messages := messages + [userMessage];
        input := "";
        isTyping := true;
        action := Sent(messages);
      }
    }

    /** `handleCommand` with this session's `setInput` and `setShowSettings` as the setters. */
    method RunCommand(command: string)
      modifies this`input, this`showSettings
      ensures input == ""
      ensures showSettings == (old(showSettings) || Commands.OpensSettings(command))
    {
      var calls := Commands.HandleCommand(command);
      var before := Commands.UiState(input, showSettings);
      Commands.ApplyClearAndOpen(calls, before);
      var after := Commands.Apply(calls, before);
      input := after.input;
      showSettings := after.showSettings;
    }

    /**
     * The part after the request: exactly one assistant message is appended,
     * whatever the outcome, and typing stops.
     */
    method FinishExchange(result: Result<ChatResponse, JsError>)
      modifies this`messages, this`isTyping
      ensures messages == old(messages) + [AssistantReply(result)]
      ensures !isTyping
    {
      match result {
        case Success(response) =>
          if response.ChatObject? && response.choices.Some? && |response.choices.value| > 0
             && response.choices.value[0].message.Some? {
            messages := messages + [Message(Assistant, response.choices.value[0].message.value.content)];
          } else {
            // the invalid-format error thrown here is caught like any other
            messages := messages + [Message(Assistant, FAILED_REPLY)];
          }
        case Failure(_) =>
          messages := messages + [Message(Assistant, FAILED_REPLY)];
      }
      isTyping := false;
    }

    /**
     * `handleSend`: a normal send posts the old messages plus the new user
     * message and ends with that user message followed by one assistant reply.
     */
    method HandleSend(reply: FetchOutcome<ChatResponse>) returns (action: SendAction, request: Option<HttpRequest>)
      modifies this`messages, this`input, this`isTyping, this`showSettings
      ensures IsBlank(old(input)) ==>
        && action == Ignored && request.None?
        && messages == old(messages) && input == old(input) && isTyping == old(isTyping)
        && showSettings == old(showSettings)
      ensures !IsBlank(old(input)) && IsCommand(old(input)) ==>
        && action == RanCommand(Trim(old(input)[1..])) && request.None?
        && input == ""
        && showSettings == (old(showSettings) || Commands.OpensSettings(action.command))
        && messages == old(messages) && isTyping == old(isTyping)
      ensures !IsBlank(old(input)) && !IsCommand(old(input)) ==>
        && request.Some?
        && IsChatRequest(request.value, old(openWebUIUrl), old(apiKey), old(selectedModel),
                         old(messages) + [Message(User, old(input))])
        && messages == old(messages) + [Message(User, old(input)), AssistantReply(ChatResult(reply))]
        && input == "" && !isTyping
        && showSettings == old(showSettings)
      ensures old(Quiescent()) ==> Quiescent()
    {
      action := BeginSend();
      request := None;
      if action.Sent? {
        var sent, result := SendChatMessage(openWebUIUrl, apiKey, selectedModel, action.history, reply);
        request := Some(sent);
        FinishExchange(result);
        if old(Quiescent()) {
          AnsweredAfterExchange(old(messages), Message(User, old(input)), AssistantReply(result));
        }
      }
    }

    /** The typing indicator is on while the retry request is in flight. */
    method BeginRetrySend()
      modifies this`isTyping
      ensures isTyping
    {
      isTyping := true;
    }

    /**
     * `handleRetrySend`: the retry prompt is sent as a history of its own, and
     * its reply is appended after the messages already there.
     */
    method HandleRetrySend(retryMessage: string, reply: FetchOutcome<ChatResponse>) returns (request: HttpRequest)
      modifies this`messages, this`isTyping
      ensures IsChatRequest(request, openWebUIUrl, apiKey, selectedModel, [Message(User, retryMessage)])
      ensures messages == old(messages) + [AssistantReply(ChatResult(reply))]
      ensures !isTyping
    {
      BeginRetrySend();
      var result;
      request, result := SendChatMessage(openWebUIUrl, apiKey, selectedModel, [Message(User, retryMessage)], reply);
      FinishExchange(result);
    }

    /**
     * `handleRetry`: when the message before `index` is the user's, its text
     * is wrapped in the retry prompt and sent; otherwise nothing happens.
     */
    method HandleRetry(index: int, reply: FetchOutcome<ChatResponse>) returns (request: Option<HttpRequest>)
      modifies this`messages, this`isTyping
      ensures !RetryApplies(old(messages), index) ==>
        request.None? && messages == old(messages) && isTyping == old(isTyping)
      ensures RetryApplies(old(messages), index) ==>
        && request.Some?
        && IsChatRequest(request.value, openWebUIUrl, apiKey, selectedModel,
                         [Message(User, RetryPrompt(old(messages)[index - 1].content))])
        && messages == old(messages) + [AssistantReply(ChatResult(reply))]
        && !isTyping
      ensures old(Quiescent()) ==> Quiescent()
    {
      request := None;
      // past the end, reading the role of an undefined message throws before any update
      if index > 0 && index - 1 < |messages| && messages[index - 1].role == User {
        var originalMessage := messages[index - 1].content;
        var retryMessage := RetryPrompt(originalMessage);
        var sent := HandleRetrySend(retryMessage, reply);
        request := Some(sent);
        if old(Quiescent()) {
          AnsweredAfterReply(old(messages), AssistantReply(ChatResult(reply)));
        }
      }
    }

    method HandleClearChat()
      modifies this`messages
      ensures messages == []
    {
      messages := [];
    }

    /** `handleSettingsChange`: the setting the field name names takes the value; other names change nothing. */
    method HandleSettingsChange(name: string, value: string)
      modifies this`openWebUIUrl, this`apiKey, this`selectedModel
      ensures name == URL_FIELD ==> CurrentSettings() == old(CurrentSettings()).(openWebUIUrl := value)
      ensures name == API_KEY_FIELD ==> CurrentSettings() == old(CurrentSettings()).(apiKey := value)
      ensures name == MODEL_FIELD ==> CurrentSettings() == old(CurrentSettings()).(selectedModel := value)
      ensures name != URL_FIELD && name != API_KEY_FIELD && name != MODEL_FIELD ==>
        CurrentSettings() == old(CurrentSettings())
    {
      if name == URL_FIELD {
        openWebUIUrl := value;
      } else if name == API_KEY_FIELD {
        apiKey := value;
      } else if name == MODEL_FIELD {
        selectedModel := value;
      }
    }

    /** `handleLoadDefaultSettings`: all three settings become the configured ones. */
    method HandleLoadDefaultSettings(configured: Settings)
      modifies this`openWebUIUrl, this`apiKey, this`selectedModel
      ensures CurrentSettings() == configured
    {
      openWebUIUrl := configured.openWebUIUrl;
      apiKey := configured.apiKey;
      selectedModel := configured.selectedModel;
    }
  }

  /** A user message followed by an assistant reply keeps every user message answered. */
  lemma AnsweredAfterExchange(ms: seq<Message>, user: Message, reply: Message)
    requires EveryUserAnswered(ms) && reply.role == Assistant
    ensures EveryUserAnswered(ms + [user, reply])
  {
    var ms' := ms + [user, reply];
    forall i | 0 <= i < |ms'| && ms'[i].role == User ensures i + 1 < |ms'| && ms'[i + 1].role == Assistant {
      if i < |ms| {
        assert ms'[i] == ms[i];
        if i + 1 < |ms| {
          assert ms'[i + 1] == ms[i + 1];
        }
      }
    }
  }

  /** An appended assistant reply keeps every user message answered. */
  lemma AnsweredAfterReply(ms: seq<Message>, reply: Message)
    requires EveryUserAnswered(ms) && reply.role == Assistant
    ensures EveryUserAnswered(ms + [reply])
  {
    var ms' := ms + [reply];
    forall i | 0 <= i < |ms'| && ms'[i].role == User ensures i + 1 < |ms'| && ms'[i + 1].role == Assistant {
      assert ms'[i] == ms[i];
      if i + 1 < |ms| {
        assert ms'[i + 1] == ms[i + 1];
      }
    }
  }

  /**
   * The assistant message for each outcome of the chat request: the reply's
   * first choice content when there is one, and the fixed failure text for a
   * network failure, a non-OK status, an unreadable body or a reply without it.
   */
  lemma AssistantReplyOfOutcome(reply: FetchOutcome<ChatResponse>)
    ensures AssistantReply(ChatResult(reply)).role == Assistant
    ensures reply.NetworkError? ==> AssistantReply(ChatResult(reply)).content == FAILED_REPLY
    ensures reply.Response? && !IsOk(reply.status) ==> AssistantReply(ChatResult(reply)).content == FAILED_REPLY
    ensures reply.Response? && reply.json.Failure? ==> AssistantReply(ChatResult(reply)).content == FAILED_REPLY
    ensures reply.Response? && IsOk(reply.status) && reply.json.Success? ==>
      var response := reply.json.value;
      if response.ChatObject? && response.choices.Some? && |response.choices.value| > 0
         && response.choices.value[0].message.Some?
      then AssistantReply(ChatResult(reply)).content == response.choices.value[0].message.value.content
      else AssistantReply(ChatResult(reply)).content == FAILED_REPLY
  {
  }

  /** The original message can be read back from its retry prompt, so different messages give different prompts. */
  lemma RetryPromptRoundTrip(original: string)
    ensures OriginalOfRetryPrompt(RetryPrompt(original)) == Some(original)
  {
    assert RetryPrompt(original)[..|RETRY_PREAMBLE|] == RETRY_PREAMBLE;
  }

  lemma RetryPromptInjective(a: string, b: string)
    requires RetryPrompt(a) == RetryPrompt(b)
    ensures a == b
  {
    RetryPromptRoundTrip(a);
    RetryPromptRoundTrip(b);
  }

  /** The reply of a normal send can be retried: the message before it is the user message just sent. */
  lemma RetryAfterSend(ms: seq<Message>, content: string, reply: Message)
    ensures RetryApplies(ms + [Message(User, content), reply], |ms| + 1)
    ensures (ms + [Message(User, content), reply])[|ms|].content == content
  {
  }

  /**
   * Retrying the reply to a retry does nothing: a retry appends its reply
   * after an assistant message, not after a user message.
   */
  lemma RetryOfRetryReplyIsNoOp(ms: seq<Message>, reply: Message)
    requires |ms| > 0 && ms[|ms| - 1].role == Assistant
    ensures !RetryApplies(ms + [reply], |ms|)
  {
    assert (ms + [reply])[|ms| - 1] == ms[|ms| - 1];
  }

  /** The command check is on the raw input: a line with a space before `>` is chat text. */
  lemma SpacedCommandIsChat(s: string)
    ensures !IsBlank(" >" + s) && !IsCommand(" >" + s)
  {
    BlankIffWhitespace(" >" + s);
    assert (" >" + s)[1] == '>';
    assert (" >" + s)[..1] == " ";
  }
}
