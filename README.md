# OpenWebUI chat client — a Dafny model of its session and request rules

This project models the logic of a small React chat client for an OpenWebUI
server:

- **The chat session** of `App` (`src/App.jsx`). It is a `Session` class with
  fields for the message list, the input line, the typing flag, the
  settings-panel flag and the three connection settings (server URL, API key,
  selected model). Its handlers are methods:
  - sending the input line;
  - retrying an answer;
  - clearing the chat;
  - changing one setting, or loading the configured defaults.
- **The OpenWebUI client** (`src/api/openwebui.js`):
  - the headers, with a `Bearer` credential only when a key is given;
  - the two endpoints and the chat request body;
  - the accepted model-list shape;
  - the text of the error thrown for a non-OK status.
- **Error classification** (`src/utils/error.js`). It takes the status code
  of an error and maps it to a user message. The message can be overridden
  by a JSON `error` field that follows `response text:` in the error text.
- **File validation** (`src/components/FileUpload.jsx`):
  - the size limit, then the extension allow-list;
  - the icon for a file name;
  - the truncated display name.
- **The command dispatcher** (`src/commands.js`). For each command it
  returns the setter calls, in order, and `Apply` plays them on the caller's
  state.

Every `await` resolves to a value that is a parameter of the handler that
awaits it. What `fetch` resolved to is an `OpenWebUI.FetchOutcome`: a network
rejection, or a response with its status, status text, text body and
JSON-parsed body. `JSON.parse` in `handleApiError` is a function parameter
that returns `None` where it would throw. Each handler runs as one
sequential step: `handleSend` is `BeginSend` (everything before the request)
followed by `FinishExchange` (everything after the reply).

JavaScript string operations are modelled in `JsText` on `seq<char>`:
`trim`, `startsWith`, `includes`, `split(sep)[1]`, `split('.').pop()`,
`toLowerCase` and decimal formatting. JSON values and thrown `Error`
objects are modelled in `JsValue`.

## Behaviour notes

- Model list: only an object whose `data` field is an array is accepted
  (`src/api/openwebui.js:18`). Every other response shape is refused.
- API key: the header is `"Bearer " + apiKey` with the key as given, even
  when the key already starts with `Bearer` (`src/api/openwebui.js:8,33`).
- Retry target: only the message just before the chosen one is looked at,
  and only when it is the user's (`src/App.jsx:150`).
  - Retrying the answer to a retry therefore does nothing
    (`App.RetryOfRetryReplyIsNoOp`).
- Retry history: the retry prompt is sent alone, as a one-message history,
  without the earlier messages (`src/App.jsx:134`).
- Failed exchange: every failure appends the same fixed text, which does not
  carry the status code (`src/App.jsx:87,142`).
- Error status: the errors thrown for a non-OK status carry no `status`
  property. `handleApiError` therefore never reports them with a status
  message (`ErrorHandling.ThrownStatusErrorsKeepTheirText`).

## Model

| member | source | states |
|---|---|---|
| App.InitialSetting | src/App.jsx:16-19 | a setting starts as its stored value unless that is missing or empty, and as the configured value otherwise |
| App.BlankIffWhitespace | src/App.jsx:65 | input counts as blank exactly when every character is JavaScript whitespace or a line terminator |
| App.SpacedCommandIsChat | src/App.jsx:65-67 | the command check reads the raw first character: a line with a space before `>` is neither blank nor a command |
| App.Session.constructor | src/App.jsx:13-21 | the session starts with no messages, empty input, no typing, the settings panel closed, and each setting taken from storage or else from the configuration |
| App.Session.BeginSend | src/App.jsx:64-76 | blank input changes nothing; a `>` line runs `Trim(input[1..])` as a command, which clears the input and opens settings only for `settings`, and leaves the messages alone; any other input appends a user message with the raw input, clears the input and starts typing |
| App.Session.RunCommand | src/App.jsx:67-71 | running a command through the session's setters clears the input and opens the settings exactly for `settings` |
| App.Session.FinishExchange | src/App.jsx:80-91 | exactly one assistant message is appended in every outcome: the first choice's content when the reply has it, the fixed failure text otherwise; typing stops |
| App.Session.HandleSend | src/App.jsx:64-92 | for a normal send, the request is a chat POST of the old messages plus the new user message; afterwards the messages are the old ones plus that user message plus one assistant reply, the input is empty and typing is off; blank and command lines send nothing and append nothing; a quiescent session stays quiescent |
| App.Session.BeginRetrySend | src/App.jsx:131-132 | the typing indicator is on while the retry request is in flight |
| App.Session.HandleRetrySend | src/App.jsx:131-147 | the retry prompt is sent as a one-message history with the session's settings; its reply is appended after the existing messages, none of which changes; typing is off afterwards |
| App.Session.HandleRetry | src/App.jsx:149-163 | when `index > 0` and message `index-1` is the user's, the request carries only the retry prompt built from that message's text, and one reply is appended; otherwise nothing is sent and nothing changes; a quiescent session stays quiescent |
| App.Session.HandleClearChat | src/App.jsx:128-130 | the message list becomes empty |
| App.Session.HandleSettingsChange | src/App.jsx:94-103 | only the setting named by the field name takes the new value; any other name changes nothing |
| App.Session.HandleLoadDefaultSettings | src/App.jsx:122-126 | all three settings become the configured ones |
| App.AnsweredAfterExchange | src/App.jsx:73-88 | appending a user message and then an assistant reply keeps every user message directly followed by an assistant message |
| App.AnsweredAfterReply | src/App.jsx:138-143 | appending a retry's assistant reply keeps every user message answered |
| App.AssistantReply | src/App.jsx:135-143 | the appended message is an assistant message; it has the first choice's content when the reply has a first choice with a message, and the fixed failure text for a failed call, a falsy reply, missing or empty `choices`, or a first choice without a message |
| App.AssistantReplyOfOutcome | src/App.jsx:79-88 | the appended assistant message has the failure text for a network failure, a non-OK status, an unreadable body or a reply without `choices[0].message`, and the reply's content otherwise |
| App.RetryPrompt | src/App.jsx:152-160 | the retry prompt is the fixed instructions, ending in `Original user message: `, followed by exactly the original message |
| App.RetryPromptRoundTrip | src/App.jsx:152-160 | the original message can be read back from the end of its retry prompt |
| App.RetryPromptInjective | src/App.jsx:152-160 | different original messages give different retry prompts |
| App.RetryAfterSend | src/App.jsx:150-151 | the reply of a normal send can be retried, and the retry uses the text of the user message just sent |
| App.RetryOfRetryReplyIsNoOp | src/App.jsx:150 | a reply appended after an assistant message cannot be retried |
| OpenWebUI.BuildHeaders | src/api/openwebui.js:4-9 | the headers hold `Content-Type: application/json`, and `Authorization` exactly when the key is non-empty, with value `"Bearer " + key`, and nothing else |
| OpenWebUI.StatusErrorText | src/api/openwebui.js:15 | the non-OK error text (the same form at line 45, for a failed chat completion) is exactly the prefix and `: `, the decimal status, a space, the status text, a newline and the response body, in that order and with nothing else |
| OpenWebUI.StatusErrorTextStatesStatus | src/api/openwebui.js:13-15 | the non-OK error text `prefix: status statusText\nbody` gives back the HTTP status when read after its prefix |
| OpenWebUI.ModelList | src/api/openwebui.js:17-21 | the model list succeeds exactly when the body is an object whose `data` field is an array, and returns that array; any other shape fails with the invalid-format error |
| OpenWebUI.FetchModels | src/api/openwebui.js:3-26 | the request is a GET of `base + "/api/models"` with the headers above; a fetch or parse rejection is rethrown unchanged, a non-OK status gives the `Failed to fetch models: ...` error, and an OK JSON body gives the model list or the invalid-format error |
| OpenWebUI.ChatResult | src/api/openwebui.js:36-52 | the chat call resolves to the parsed body exactly when the status is OK and the body parses; otherwise it fails with the rethrown rejection or the `Failed to send message: ...` error |
| OpenWebUI.SendChatMessage | src/api/openwebui.js:28-53 | the request is a POST to `base + "/api/chat/completions"` with the headers above and the body `{model, messages, stream: false}`, and the result is `ChatResult` of what fetch resolved to |
| ErrorHandling.StatusCodeOf | src/utils/error.js:5 | the status code is `error.status` when it is truthy, otherwise the response's status when there is a response, otherwise absent |
| ErrorHandling.DefaultMessage | src/utils/error.js:6 | the default message is the error's own message when it is non-empty, otherwise `Unknown error occurred`; it is never empty |
| ErrorHandling.HandleApiError | src/utils/error.js:1-38 | the successive updates of `statusCode` and `errorMessage`, including the swallowed throws, compute exactly `Classify` |
| ErrorHandling.Classify | src/utils/error.js:5-37 | the result keeps the input error as `originalError` and the extracted status code, and its message is always truthy |
| ErrorHandling.ResponseTextOverride | src/utils/error.js:19-31 | an override exists only for a message containing `response text:` whose text after the first marker, trimmed, parses to an object with an `error` field; the override is that field, and it is truthy |
| ErrorHandling.UnusableResponseTextKeepsMessage | src/utils/error.js:21-30 | when the text after the first `response text:` does not parse, or is not an object with a truthy `error` field, there is no override and the message stays as the status mapping made it |
| ErrorHandling.ResponseTextErrorIsMessage | src/utils/error.js:19-31 | when the text after the first `response text:`, trimmed, parses to an object with a truthy `error` field, that field is the message |
| ErrorHandling.StatusMapping | src/utils/error.js:8-17 | with no override, 401, 403 and 404 give their fixed messages, every code from 500 up gives the server-error message, and any other code or no code keeps the default message |
| ErrorHandling.OverrideBeatsStatus | src/utils/error.js:19-27 | a truthy `error` field after `response text:` becomes the message whatever the status code |
| ErrorHandling.NoMarkerNoOverride | src/utils/error.js:20-30 | a message without `response text:` keeps the status-mapped message, even when it contains `response text`: the undefined second piece throws and the throw is caught |
| ErrorHandling.MarkerMentionsResponseText | src/utils/error.js:20-22 | a message containing `response text:` passes the `response text` check |
| ErrorHandling.ThrownStatusErrorsKeepTheirText | src/utils/error.js:5-17 | the errors thrown for a non-OK status have no status code after classification; without an override their message is their own text, never one of the four status messages |
| FileUpload.HandleFileChange | src/components/FileUpload.jsx:21-46 | with no file nothing fires; otherwise exactly one callback fires for the first file: the size error when it is larger than 10 MiB, else the type error when its extension is not allowed, else the upload of that file |
| FileUpload.FileExtension | src/components/FileUpload.jsx:35 | the extension is a dot followed by as many characters as follow the last dot of the name, none of them a dot |
| FileUpload.ExtensionOfDottedName | src/components/FileUpload.jsx:35 | the extension of `base.ext`, where `ext` has no dot, is `.` plus `ext` lower-cased, whatever `base` contains |
| FileUpload.ExtensionOfUndottedName | src/components/FileUpload.jsx:35 | a name with no dot has `.` plus the whole lower-cased name as its extension |
| FileUpload.TypeCheckIgnoresCase | src/components/FileUpload.jsx:35-37 | lower-casing the name changes neither its extension nor the type check's verdict |
| FileUpload.FileIcon | src/components/FileUpload.jsx:49-75 | every file name gets one of the six icons: the page, the memo, the curled page, the chart, the picture or the paperclip |
| FileUpload.IconByExtension | src/components/FileUpload.jsx:49-75 | each icon is given for exactly its own extensions, compared case-insensitively as the type check compares them: the page for `.pdf`, the memo for `.doc` and `.docx`, the curled page for `.txt`, `.md` and `.rtf`, the chart for `.csv`, the picture for the seven image types |
| FileUpload.IconIsGenericIffTypeRefused | src/components/FileUpload.jsx:49-75 | a file gets the paperclip icon exactly when the type check refuses it: the icon's cases are the allowed types |
| FileUpload.DisplayName | src/components/FileUpload.jsx:101-103 | a name of at most 15 characters is shown unchanged; a longer one is shown as its first 12 characters and `...`, 15 characters in all |
| Commands.HandleCommand | src/commands.js:1-11 | the last setter call clears the input; the settings are opened exactly for the exact, case-sensitive command `settings`; no other call is made |
| Commands.ApplyClearAndOpen | src/commands.js:1-11 | playing such setter calls clears the input if any call cleared it and opens the settings if any call opened them, and leaves all else as it was |
| JsText.Trim | src/App.jsx:65-68 | `trim` gives the empty string exactly when the input is all whitespace, and otherwise a result that neither starts nor ends with whitespace |
| JsText.TrimIsInfix | src/App.jsx:65-68 | the trimmed text is a contiguous part of the input with only whitespace before it and only whitespace after it |
| JsText.IndexOf | src/utils/error.js:20 | a position `indexOf` reports is one where the pattern occurs |
| JsText.IndexOfIsFirst | src/utils/error.js:20 | no occurrence comes before the reported position, and "not found" is reported only when the pattern occurs nowhere, so `includes` is true exactly when the pattern occurs |
| JsText.SecondPiece | src/utils/error.js:22 | `split(sep)[1]` exists exactly when the separator occurs; it starts right after the first occurrence and runs up to the first occurrence in the rest of the text, or to the end when there is none, and never contains the separator |
| JsText.AfterLast | src/components/FileUpload.jsx:35 | `split('.').pop()` is the suffix after the last dot, and contains no dot |
| JsText.Decimal | src/api/openwebui.js:15 | a status renders as non-empty decimal digits with no leading zero: the text starts with `0` exactly for zero |
| JsText.DecimalRoundTrip | src/api/openwebui.js:15 | the decimal rendering of a status code reads back as the same number |

## Left out

- Streaming, stop and cancel calls, file attachments in chat requests, and
  a fallback `content` field in replies: none of these appears in this
  code base's client or session code.
- `localStorage` and the configuration file. The stored and configured
  settings are constructor parameters. The startup effect
  (`src/App.jsx:24-46`) only re-sets the same stored values and writes the
  configured ones back to storage. `src/utils/config.js` is not part of
  this model.
- `handleSaveSettings` and the model-fetching effect (`src/App.jsx:48-62,
  105-120`). They write to `localStorage` and store the fetched model ids
  and the fetch error for display. The request and response rules they use
  are modelled in `OpenWebUI.FetchModels`. Saving also closes the
  settings panel (`setShowSettings(false)`, `src/App.jsx:110`); that step
  is not modelled either.
- Async interleaving: React's batched setter updates and a second send
  started while one is pending. Each handler is one sequential step.
- Logging through `console`. The App handlers call `handleApiError` only
  for logging and discard its result, so the model does not call it there.
- `JSON.stringify` of the request body. The body is the `ChatBody` value.
  The body sent to the server is not modelled as characters.
- The size-error message with `toFixed(2)`. `TooLarge` carries the size in
  bytes; only the accept/reject decision is modelled.
- FileUpload.FileExtension: `toLowerCase` maps ASCII letters only. Two
  non-ASCII characters lower-case into ASCII text: `K` (U+212A) becomes `k`,
  and `İ` (U+0130) becomes `i` plus a combining dot. Neither changes a
  verdict. No allowed extension and no icon case contains `k`, and the
  combining dot is not ASCII. So the type check and the icon are the same as
  in the source; only the extension text differs for such names.
- String lengths are counted in code points, not UTF-16 code units. This
  affects `DisplayName` only for names outside the Basic Multilingual Plane.
- App.Session.HandleRetry: an `index` past the end of the message list is
  a no-op here. In the source, `messages[index - 1]` is then `undefined`
  and reading its `role` throws a `TypeError` out of the click handler
  (`src/App.jsx:150`); a thrown handler is not modelled.
- OpenWebUI.ChatResult and OpenWebUI.FetchModels: `response.text()` on the
  non-OK path (`src/api/openwebui.js:14,44`) always yields the body text.
  A rejection of that read is not modelled; `FetchOutcome` holds the text.
- JSON numbers are integers, so a fractional `status` is not modelled.
- A reply message whose `content` is not a string is not modelled:
  `ReplyMessage.content` is a string.
- A `choices` value that is neither missing nor an array is not modelled.
- A `choices` array whose first element is `null` is not modelled: `Choice`
  always has a `message` field. In the source, reading `null.message`
  throws a `TypeError`, and the catch in both the send handler
  (`src/App.jsx:80-88`) and the retry handler (`src/App.jsx:133-141`)
  appends the failure text, as the model does for a choice without a
  message.
- Rendering, clipboard, scrolling and resizing. The components other than
  `FileUpload`, and `src/utils/message.js`, are not part of this model.
