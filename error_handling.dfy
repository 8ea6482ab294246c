/**
 * `handleApiError`: the status code of an error, the user message for it,
 * and the override taken from a JSON `error` field after `response text:`.
 * `JSON.parse` is a parameter: `None` where it throws.
 */
module ErrorHandling {
  import opened Wrappers
  import opened JsText
  import opened JsValue
  import OpenWebUI

  // The long messages are written in pieces so that the verifier can see their characters.
  const AUTH_FAILED := "Authentication failed. " + "Please check your API key in settings."
  const ACCESS_DENIED := "Access denied. " + "Please verify your API key " + "has the correct permissions."
  const NOT_FOUND := "The requested resource was not found. " + "Please check the API URL in settings."
  const SERVER_ERROR := "Server error occurred. " + "Please try again later."
  const UNKNOWN_ERROR := "Unknown error occurred"
  const RESPONSE_TEXT := "response text"
  const RESPONSE_TEXT_MARKER := "response text:"

  /** The classified error: `{statusCode, message, originalError}`; the message may be any JSON value. */
  datatype HandledError = HandledError(statusCode: Option<int>, message: Json, originalError: JsError)

  /** `error.status || (error.response && error.response.status)`. */
  function StatusCodeOf(error: JsError): (code: Option<int>)
    ensures error.status.Some? && error.status.value != 0 ==> code == error.status
    ensures (error.status.None? || error.status == Some(0)) && error.response.None? ==> code.None?
    ensures (error.status.None? || error.status == Some(0)) && error.response.Some? ==>
      code == error.response.value.status
  {
    if error.status.Some? && error.status.value != 0 then error.status
    else if error.response.Some? then error.response.value.status
    else None
  }

  /** `error.message || 'Unknown error occurred'`. */
  function DefaultMessage(error: JsError): (m: string)
    ensures m != ""
    ensures error.message.Some? && error.message.value != "" ==> m == error.message.value
    ensures error.message.None? || error.message.value == "" ==> m == UNKNOWN_ERROR
  {
    if error.message.Some? && error.message.value != "" then error.message.value else UNKNOWN_ERROR
  }

  /** The user message the status mapping gives, or `fallback` when no case matches. */
  function StatusMessage(code: Option<int>, fallback: string): string {
    if code == Some(401) then AUTH_FAILED
    else if code == Some(403) then ACCESS_DENIED
    else if code == Some(404) then NOT_FOUND
    else if code.Some? && code.value >= 500 then SERVER_ERROR
    else fallback
  }

  /**
   * The `error` field taken from the JSON after `response text:`, when the
   * message mentions `response text`, the piece after the marker parses, the
   * result is not `null`, and its `error` field is truthy; `None` whenever the
   * source keeps the message (including every path that throws into the catch).
   */
  function ResponseTextOverride(error: JsError, parse: string -> Option<Json>): (r: Option<Json>)
    ensures r.Some? ==> Truthy(r.value)
    ensures r.Some? ==> error.message.Some? && Contains(error.message.value, RESPONSE_TEXT_MARKER)
    ensures r.Some? ==>
      && error.message.Some?
      && SecondPiece(error.message.value, RESPONSE_TEXT_MARKER).Some?
      && var p := parse(Trim(SecondPiece(error.message.value, RESPONSE_TEXT_MARKER).value));
      && p.Some? && p.value.JObject? && "error" in p.value.fields && r.value == p.value.fields["error"]
  {
    if error.message.Some? && error.message.value != "" && Contains(error.message.value, RESPONSE_TEXT) then
      match SecondPiece(error.message.value, RESPONSE_TEXT_MARKER)
      case None => None
      case Some(piece) =>
        match parse(Trim(piece))
        case None => None
        case Some(parsed) =>
          if parsed == JNull then None
          else
            match Property(parsed, "error")
            case Some(field) => if Truthy(field) then Some(field) else None
            case None => None
    else None
  }

  /** The result of `handleApiError` as a function of its input. */
  function Classify(error: JsError, parse: string -> Option<Json>): (h: HandledError)
    ensures h.originalError == error && h.statusCode == StatusCodeOf(error)
    ensures Truthy(h.message)
  {
    var code := StatusCodeOf(error);
    var message := match ResponseTextOverride(error, parse)
      case Some(field) => field
      case None => JString(StatusMessage(code, DefaultMessage(error)));
    HandledError(code, message, error)
  }

  /** `handleApiError`, step by step with its local `statusCode` and `errorMessage`. */
  method HandleApiError(error: JsError, parse: string -> Option<Json>) returns (handled: HandledError)
    ensures handled == Classify(error, parse)
  {
    var statusCode :=
      if error.status.Some? && error.status.value != 0 then error.status
      else if error.response.Some? then error.response.value.status
      else None;
    var errorMessage: Json := JString(DefaultMessage(error));

    if statusCode == Some(401) {
      errorMessage := JString(AUTH_FAILED);
    } else if statusCode == Some(403) {
      errorMessage := JString(ACCESS_DENIED);
    } else if statusCode == Some(404) {
      errorMessage := JString(NOT_FOUND);
    } else if statusCode.Some? && statusCode.value >= 500 {
      errorMessage := JString(SERVER_ERROR);
    }
    assert errorMessage == JString(StatusMessage(statusCode, DefaultMessage(error)));
    assert errorMessage == Classify(error, parse).message || ResponseTextOverride(error, parse).Some?;

    if error.message.Some? && error.message.value != "" && Contains(error.message.value, RESPONSE_TEXT) {
      // every path that leaves `errorMessage` alone below is a throw the catch block swallows
      var piece := SecondPiece(error.message.value, RESPONSE_TEXT_MARKER);
      if piece.Some? {
        var parsed := parse(Trim(piece.value));
        if parsed.Some? && parsed.value != JNull {
          var field := Property(parsed.value, "error");
          if field.Some? && Truthy(field.value) {
            errorMessage := field.value;
          }
        }
      }
    }
    assert errorMessage == Classify(error, parse).message;
    handled := HandledError(statusCode, errorMessage, error);
  }

  /** Without an override, 401, 403, 404 and every code from 500 up have fixed messages, and any other code or none keeps the default. */
  lemma StatusMapping(error: JsError, parse: string -> Option<Json>)
    requires ResponseTextOverride(error, parse).None?
    ensures var code := StatusCodeOf(error);
            var m := Classify(error, parse).message;
            && (code == Some(401) ==> m == JString(AUTH_FAILED))
            && (code == Some(403) ==> m == JString(ACCESS_DENIED))
            && (code == Some(404) ==> m == JString(NOT_FOUND))
            && (code.Some? && code.value >= 500 ==> m == JString(SERVER_ERROR))
            && (code.None? || (code.value !in {401, 403, 404} && code.value < 500) ==>
                  m == JString(DefaultMessage(error)))
  {
  }

  /** A truthy `error` field after the marker replaces the message whatever the status. */
  lemma OverrideBeatsStatus(error: JsError, parse: string -> Option<Json>, status: int)
    requires ResponseTextOverride(error, parse).Some?
    ensures Classify(error, parse).message == ResponseTextOverride(error, parse).value
    ensures Classify(error.(status := Some(status)), parse).message == ResponseTextOverride(error, parse).value
  {
  }

  /**
   * The override fires: when the text after the first `response text:`
   * parses, once trimmed, to an object with a truthy `error` field, that
   * field is the message.
   */
  lemma ResponseTextErrorIsMessage(error: JsError, parse: string -> Option<Json>, piece: string, fields: map<string, Json>)
    requires error.message.Some? && SecondPiece(error.message.value, RESPONSE_TEXT_MARKER) == Some(piece)
    requires parse(Trim(piece)) == Some(JObject(fields)) && "error" in fields && Truthy(fields["error"])
    ensures ResponseTextOverride(error, parse) == Some(fields["error"])
    ensures Classify(error, parse).message == fields["error"]
  {
    MarkerMentionsResponseText(error.message.value);
  }

  /**
   * The override does not fire when the text after the first
   * `response text:` does not parse, or parses to something other than an
   * object with a truthy `error` field: the throw or the failed test leaves
   * the message as the status mapping made it.
   */
  lemma UnusableResponseTextKeepsMessage(error: JsError, parse: string -> Option<Json>, piece: string)
    requires error.message.Some? && SecondPiece(error.message.value, RESPONSE_TEXT_MARKER) == Some(piece)
    requires var p := parse(Trim(piece));
             p.None? || !p.value.JObject? || "error" !in p.value.fields || !Truthy(p.value.fields["error"])
    ensures ResponseTextOverride(error, parse).None?
    ensures Classify(error, parse).message == JString(StatusMessage(StatusCodeOf(error), DefaultMessage(error)))
  {
  }

  /**
   * A message that mentions `response text` but never `response text:` is
   * left as the status mapping made it: `split(...)[1]` is undefined and the
   * throw is caught.
   */
  lemma NoMarkerNoOverride(error: JsError, parse: string -> Option<Json>)
    requires error.message.Some? && !Contains(error.message.value, RESPONSE_TEXT_MARKER)
    ensures ResponseTextOverride(error, parse).None?
    ensures Classify(error, parse).message == JString(StatusMessage(StatusCodeOf(error), DefaultMessage(error)))
  {
  }

  /** `response text:` contains `response text`. */
  lemma MarkerMentionsResponseText(s: string)
    requires Contains(s, RESPONSE_TEXT_MARKER)
    ensures Contains(s, RESPONSE_TEXT)
  {
    var k := IndexOf(s, RESPONSE_TEXT_MARKER).value;
    assert s[k..k + |RESPONSE_TEXT|] == s[k..k + |RESPONSE_TEXT_MARKER|][..|RESPONSE_TEXT|];
    assert OccursAt(s, RESPONSE_TEXT, k);
    IndexOfIsFirst(s, RESPONSE_TEXT);
  }

  /**
   * The errors `fetchModels` and `sendChatMessage` throw for a non-OK status
   * carry no `status`, so classifying them yields no status code and never
   * the status messages: a 401 reply is reported with its own error text,
   * unless its body supplies an override.
   */
  lemma ThrownStatusErrorsKeepTheirText(prefix: string, status: nat, statusText: string, text: string,
                                        parse: string -> Option<Json>)
    requires prefix == OpenWebUI.FETCH_MODELS_FAILED || prefix == OpenWebUI.SEND_MESSAGE_FAILED
    ensures var message := OpenWebUI.StatusErrorText(prefix, status, statusText, text);
            var handled := Classify(NewError(message), parse);
            && handled.statusCode.None?
            && (ResponseTextOverride(NewError(message), parse).None? ==>
                  && handled.message == JString(message)
                  && handled.message != JString(AUTH_FAILED)
                  && handled.message != JString(ACCESS_DENIED)
                  && handled.message != JString(NOT_FOUND)
                  && handled.message != JString(SERVER_ERROR))
  {
    var message := OpenWebUI.StatusErrorText(prefix, status, statusText, text);
    assert message[0] == 'F';
    assert AUTH_FAILED[0] == 'A' && ACCESS_DENIED[0] == 'A' && NOT_FOUND[0] == 'T' && SERVER_ERROR[0] == 'S';
  }
}
