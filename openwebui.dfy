/**
 * The request and response rules of the OpenWebUI client: header building,
 * endpoint paths, the chat body, the accepted model-list shape and the text of
 * the error thrown for a non-OK status. `fetch` itself is abstracted as a
 * `FetchOutcome` value: what the request resolved to.
 */
module OpenWebUI {
  import opened Wrappers
  import opened JsText
  import opened JsValue

  datatype Role = User | Assistant

  /** A chat message as the client keeps and sends it: `{role, content}`. */
  datatype Message = Message(role: Role, content: string)

  /** The JSON body of a chat completion request: `{model, messages, stream}`. */
  datatype ChatBody = ChatBody(model: string, messages: seq<Message>, stream: bool)

  datatype HttpRequest = HttpRequest(url: string, httpMethod: string, headers: map<string, string>, body: Option<ChatBody>)

  /**
   * What `fetch` resolved to: a rejection (the network failed), or a response
   * with its status, status text, its body read as text, and its body read as
   * JSON (a rejection when the body is not JSON).
   */
  datatype FetchOutcome<T> =
    | NetworkError(error: JsError)
    | Response(status: nat, statusText: string, text: string, json: Result<T, JsError>)

  /** `response.ok`. */
  predicate IsOk(status: nat) {
    200 <= status <= 299
  }

  /** The shape of a chat completion reply that the client looks at. */
  datatype ReplyMessage = ReplyMessage(content: string)
  datatype Choice = Choice(message: Option<ReplyMessage>)
  /**
   * A parsed reply: a falsy JSON value (`null`, `false`, `0`, `""`), or a
   * truthy one whose `choices` property may be missing.
   */
  datatype ChatResponse = Falsy | ChatObject(choices: Option<seq<Choice>>)

  const CONTENT_TYPE := "Content-Type"
  const AUTHORIZATION := "Authorization"
  const JSON_MEDIA_TYPE := "application/json"
  const MODELS_PATH := "/api/models"
  const CHAT_PATH := "/api/chat/completions"
  const FETCH_MODELS_FAILED := "Failed to fetch models"
  const SEND_MESSAGE_FAILED := "Failed to send message"
  const INVALID_FORMAT := "Invalid response format from OpenWebUI API."

  /**
   * The headers of every request: a JSON content type, and a bearer
   * credential exactly when an API key is given, with the key as it is.
   */
  predicate HeadersFor(headers: map<string, string>, apiKey: string) {
    && CONTENT_TYPE in headers && headers[CONTENT_TYPE] == JSON_MEDIA_TYPE
    && (AUTHORIZATION in headers <==> apiKey != "")
    && (AUTHORIZATION in headers ==> headers[AUTHORIZATION] == "Bearer " + apiKey)
    && headers.Keys <= {CONTENT_TYPE, AUTHORIZATION}
  }

  /** Builds the header object and adds the credential to it when the key is truthy. */
  method BuildHeaders(apiKey: string) returns (headers: map<string, string>)
    ensures HeadersFor(headers, apiKey)
  {
    headers := map[CONTENT_TYPE := JSON_MEDIA_TYPE];
    if apiKey != "" {
      headers := headers[AUTHORIZATION := "Bearer " + apiKey];
    }
  }

  /** The text of the error thrown for a non-OK response. */
  function StatusErrorText(prefix: string, status: nat, statusText: string, text: string): (r: string)
    ensures StartsWith(r, prefix + ": ") && StartsWith(r[|prefix| + 2..], Decimal(status) + " ")
    ensures |r| > |text| && r[|r| - |text| - 1..] == "\n" + text
    ensures var a := |prefix| + 2 + |Decimal(status)| + 1;
            |r| == a + |statusText| + 1 + |text| && r[a..a + |statusText|] == statusText
  {
    prefix + ": " + Decimal(status) + " " + statusText + "\n" + text
  }

  /** The longest run of decimal digits at the start of `s`. */
  function LeadingDigits(s: string): (r: string)
    ensures IsDigits(r) && StartsWith(s, r)
  {
    if s != [] && '0' <= s[0] <= '9' then [s[0]] + LeadingDigits(s[1..]) else ""
  }

  /** The status an error text of `StatusErrorText` form states after its prefix. */
  function StatusInErrorText(message: string, prefix: string): Option<nat> {
    if StartsWith(message, prefix + ": ") then
      Some(DecimalValue(LeadingDigits(message[|prefix| + 2..])))
    else None
  }

  lemma {:induction false} LeadingDigitsOf(digits: string, rest: string)
    requires IsDigits(digits)
    requires rest == [] || !('0' <= rest[0] <= '9')
    ensures LeadingDigits(digits + rest) == digits
  {
    if digits != [] {
      assert (digits + rest)[1..] == digits[1..] + rest;
      LeadingDigitsOf(digits[1..], rest);
    }
  }

  /** The error text loses nothing about the HTTP status: it can be read back. */
  lemma StatusErrorTextStatesStatus(prefix: string, status: nat, statusText: string, text: string)
    ensures StatusInErrorText(StatusErrorText(prefix, status, statusText, text), prefix) == Some(status)
  {
    var m := StatusErrorText(prefix, status, statusText, text);
    var rest := " " + statusText + "\n" + text;
    assert m == (prefix + ": ") + (Decimal(status) + rest);
    assert m[|prefix| + 2..] == Decimal(status) + rest;
    LeadingDigitsOf(Decimal(status), rest);
    DecimalRoundTrip(status);
  }

  /** `data.data` when it is an array; every other shape is refused. */
  function ModelList(data: Json): (r: Result<seq<Json>, JsError>)
    ensures r.Success? <==> data.JObject? && "data" in data.fields && data.fields["data"].JArray?
    ensures r.Success? ==> r.value == data.fields["data"].items
    ensures r.Failure? ==> r.error == NewError(INVALID_FORMAT)
  {
    if data.JObject? && "data" in data.fields && data.fields["data"].JArray? then
      Success(data.fields["data"].items)
    else
      Failure(NewError(INVALID_FORMAT))
  }

  /**
   * `fetchModels`: a GET of the models path with the headers above. A
   * rejected fetch or body parse is rethrown unchanged, a non-OK status throws
   * an error stating status, status text and body, and an OK reply yields the
   * model array of a `{data: [...]}` body.
   */
  method FetchModels(baseUrl: string, apiKey: string, reply: FetchOutcome<Json>)
    returns (request: HttpRequest, result: Result<seq<Json>, JsError>)
    ensures request.url == baseUrl + MODELS_PATH && request.httpMethod == "GET" && request.body.None?
    ensures HeadersFor(request.headers, apiKey)
    ensures reply.NetworkError? ==> result == Failure(reply.error)
    ensures reply.Response? && !IsOk(reply.status) ==>
      result == Failure(NewError(StatusErrorText(FETCH_MODELS_FAILED, reply.status, reply.statusText, reply.text)))
    ensures reply.Response? && IsOk(reply.status) && reply.json.Failure? ==> result == Failure(reply.json.error)
    ensures result.Success? <==>
      && reply.Response? && IsOk(reply.status) && reply.json.Success?
      && reply.json.value.JObject? && "data" in reply.json.value.fields
      && reply.json.value.fields["data"].JArray?
    ensures result.Success? ==> result.value == reply.json.value.fields["data"].items
    ensures reply.Response? && IsOk(reply.status) && reply.json.Success? && result.Failure? ==>
      result.error == NewError(INVALID_FORMAT)
  {
    var headers := BuildHeaders(apiKey);
    request := HttpRequest(baseUrl + MODELS_PATH, "GET", headers, None);
    match reply {
      case NetworkError(e) =>
        result := Failure(e);
      case Response(status, statusText, text, json) =>
        if !IsOk(status) {
          result := Failure(NewError(StatusErrorText(FETCH_MODELS_FAILED, status, statusText, text)));
        } else {
          match json {
            case Failure(e) => result := Failure(e);
            case Success(data) => result := ModelList(data);
          }
        }
    }
  }

  /**
   * What `sendChatMessage` resolves to: the parsed body of an OK reply, the
   * rethrown rejection of fetch or of the body parse, or an error stating the
   * status of a non-OK reply. It carries no `status` property.
   */
  function ChatResult(reply: FetchOutcome<ChatResponse>): (r: Result<ChatResponse, JsError>)
    ensures r.Success? <==> reply.Response? && IsOk(reply.status) && reply.json.Success?
    ensures r.Success? ==> r.value == reply.json.value
    ensures reply.NetworkError? ==> r == Failure(reply.error)
    ensures reply.Response? && IsOk(reply.status) && reply.json.Failure? ==> r == Failure(reply.json.error)
    ensures reply.Response? && !IsOk(reply.status) ==>
      r == Failure(NewError(StatusErrorText(SEND_MESSAGE_FAILED, reply.status, reply.statusText, reply.text)))
  {
    match reply
    case NetworkError(e) => Failure(e)
    case Response(status, statusText, text, json) =>
      if !IsOk(status) then Failure(NewError(StatusErrorText(SEND_MESSAGE_FAILED, status, statusText, text)))
      else json
  }

  /** A POST of `{model, messages, stream: false}` to the chat path with the headers above. */
  predicate IsChatRequest(request: HttpRequest, baseUrl: string, apiKey: string, model: string, messages: seq<Message>) {
    && request.url == baseUrl + CHAT_PATH
    && request.httpMethod == "POST"
    && HeadersFor(request.headers, apiKey)
    && request.body == Some(ChatBody(model, messages, false))
  }

  /** `sendChatMessage`: the request it makes and what it resolves to. */
  method SendChatMessage(baseUrl: string, apiKey: string, model: string, messages: seq<Message>,
                         reply: FetchOutcome<ChatResponse>)
    returns (request: HttpRequest, result: Result<ChatResponse, JsError>)
    ensures IsChatRequest(request, baseUrl, apiKey, model, messages)
    ensures result == ChatResult(reply)
  {
    var headers := BuildHeaders(apiKey);
    request := HttpRequest(baseUrl + CHAT_PATH, "POST", headers, Some(ChatBody(model, messages, false)));
    match reply {
      case NetworkError(e) =>
        result := Failure(e);
      case Response(status, statusText, text, json) =>
        if !IsOk(status) {
          result := Failure(NewError(StatusErrorText(SEND_MESSAGE_FAILED, status, statusText, text)));
        } else {
          result := json;
        }
    }
  }
}
