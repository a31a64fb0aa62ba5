/**
 * The credential check of src/App.js (`validateApiKey`): two local checks
 * that can refuse the key before any request, then the verdict taken from
 * how `GET /models` ended.
 */
module Credentials {
  import opened Options
  import opened Strings
  import opened Remote
  import Service

  /** Every key the service issues starts with this. */
  const KeyPrefix: string := "sk-"

  /** What the user is told (the source shows it with `alert`). */
  datatype KeyNotice =
    | EnterKeyFirst              // blank key
    | KeyNeedsPrefix             // no `sk-` prefix
    | KeyAccepted
    | KeyRejected(reason: string) // the server's message, or "Unknown error"
    | ConnectionFailed

  /** The new `apiKeyValid`, whether the request was issued, and the notice. */
  datatype KeyCheck = KeyCheck(valid: bool, requested: bool, notice: KeyNotice)

  /** The key passes both local checks, so the request is issued. */
  predicate PassesLocalChecks(key: string)
  {
    !IsBlank(key) && StartsWith(key, KeyPrefix)
  }

  /** `validateApiKey()` for the key `key`, given how the request would end. */
  function CheckKey(key: string, response: ModelsResponse): (check: KeyCheck)
    ensures check.requested <==> PassesLocalChecks(key)
    ensures check.valid <==> check.notice == KeyAccepted
    ensures check.valid ==> check.requested
  {
    if IsBlank(key) then KeyCheck(false, false, EnterKeyFirst)
    else if !StartsWith(key, KeyPrefix) then KeyCheck(false, false, KeyNeedsPrefix)
    else match response
      case Listed => KeyCheck(true, true, KeyAccepted)
      case Refused(ErrorJson(message)) => KeyCheck(false, true, KeyRejected(MessageOr(message, "Unknown error")))
      case Refused(Malformed) => KeyCheck(false, true, ConnectionFailed)
      case NetworkFailure => KeyCheck(false, true, ConnectionFailed)
  }

  /**
   * The request is issued exactly when both local checks pass; otherwise the
   * key is marked invalid and the verdict cannot depend on any response.
   */
  lemma LocalChecksShortCircuit(key: string, response: ModelsResponse, response': ModelsResponse)
    ensures CheckKey(key, response).requested <==> PassesLocalChecks(key)
    ensures !PassesLocalChecks(key) ==>
      !CheckKey(key, response).valid && CheckKey(key, response) == CheckKey(key, response')
  {
  }

  /** The key is marked valid exactly when it passes the local checks and the server lists the models. */
  lemma ValidIffListed(key: string, response: ModelsResponse)
    ensures CheckKey(key, response).valid <==> PassesLocalChecks(key) && response.Listed?
  {
  }

  /** A key with the `sk-` prefix is never blank, so the blank check only decides which notice is shown. */
  lemma PrefixedKeyIsNotBlank(key: string)
    requires StartsWith(key, KeyPrefix)
    ensures !IsBlank(key)
    ensures PassesLocalChecks(key)
  {
    assert key[0] == KeyPrefix[0] == 's';
    assert !IsJsWhitespace(key[0]);
  }

  /** The key `abc` is refused for its prefix, without a request. */
  lemma NoPrefixNoRequest(response: ModelsResponse)
    ensures CheckKey("abc", response) == KeyCheck(false, false, KeyNeedsPrefix)
  {
    assert "abc"[0] == 'a';
    assert !IsBlank("abc");
  }

  /**
   * Once a request is issued, the component's verdict and the service
   * class's verdict (src/utils/openai.js) agree on every outcome; the two
   * differ only in the text of the message.
   */
  lemma AgreesWithService(key: string, response: ModelsResponse, service: Service.OpenAIService)
    requires PassesLocalChecks(key)
    ensures CheckKey(key, response).valid == service.ValidateApiKey(response).valid
    ensures CheckKey(key, response).notice.ConnectionFailed? <==> response.NetworkFailure? || response == Refused(Malformed)
    ensures CheckKey(key, response).notice.ConnectionFailed? ==> service.ValidateApiKey(response).error == Some("Network error")
  {
  }
}
