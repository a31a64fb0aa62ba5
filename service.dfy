/**
 * src/utils/openai.js: the `OpenAIService` class and the `handleOpenAIError`
 * helper. The service's two fields are set once by its constructor and never
 * written again, so the service is a value here.
 */
module Service {
  import opened Options
  import opened Strings
  import opened Remote

  const BaseURL: string := "https://api.openai.com/v1"

  /** The outcome `validateApiKey` resolves to: `{valid: true}` or `{valid: false, error}`. */
  datatype Validation = Validation(valid: bool, error: Option<string>)

  datatype OpenAIService = OpenAIService(apiKey: string, baseURL: string)
  {
    /**
     * `validateApiKey()`, given how its `GET {baseURL}/models` ended. Every
     * failure carries a non-empty message: the server's when it sent a
     * non-empty one, `"Invalid API key"` for any other refusal, and
     * `"Network error"` when the request or the reading of the error body threw.
     */
    function ValidateApiKey(response: ModelsResponse): (v: Validation)
      ensures v.valid <==> response.Listed?
      ensures v.valid <==> v.error.None?
      ensures !v.valid ==> v.error.Some? && v.error.value != ""
      ensures response.NetworkFailure? || response == Refused(Malformed) ==> v.error == Some("Network error")
      ensures forall m :: response == Refused(ErrorJson(Some(m))) && m != "" ==> v.error == Some(m)
      ensures response == Refused(ErrorJson(None)) || response == Refused(ErrorJson(Some("")))
              ==> v.error == Some("Invalid API key")
    {
      match response
      case Listed => Validation(true, None)
      case Refused(ErrorJson(message)) => Validation(false, Some(MessageOr(message, "Invalid API key")))
      case Refused(Malformed) => Validation(false, Some("Network error"))
      case NetworkFailure => Validation(false, Some("Network error"))
    }
  }

  /** `createOpenAIService(apiKey)`: the key is kept as given, the base URL is fixed. */
  function CreateOpenAIService(apiKey: string): (s: OpenAIService)
    ensures s.apiKey == apiKey && s.baseURL == BaseURL
  {
    OpenAIService(apiKey, BaseURL)
  }

  // Each text is written as its two sentences.
  const RateLimitText: string := "Rate limit exceeded. " + "Please wait and try again."
  const QuotaText: string := "Insufficient quota. " + "Please check your OpenAI billing."
  const InvalidKeyText: string := "Invalid API key. " + "Please check your OpenAI API key."
  const GenericPrefix: string := "API Error: "

  /** `handleOpenAIError(error)`, on `error.message`: the first keyword found, in this order, decides. */
  function HandleOpenAIError(message: string): (text: string)
    ensures text != ""
    ensures text in [RateLimitText, QuotaText, InvalidKeyText] || text == GenericPrefix + message
  {
    if Contains(message, "rate_limit") then RateLimitText
    else if Contains(message, "insufficient_quota") then QuotaText
    else if Contains(message, "invalid_api_key") then InvalidKeyText
    else GenericPrefix + message
  }

  /** No fixed text can be mistaken for a generic `API Error: ...` text, nor for one another. */
  lemma FixedTextsDiffer(message: string)
    ensures GenericPrefix + message != RateLimitText
    ensures GenericPrefix + message != QuotaText
    ensures GenericPrefix + message != InvalidKeyText
    ensures RateLimitText != QuotaText && RateLimitText != InvalidKeyText && QuotaText != InvalidKeyText
  {
    assert (GenericPrefix + message)[0] == 'A';
    TextHeads();
  }

  lemma TextHeads()
    ensures RateLimitText[0] == 'R' && QuotaText[0] == 'I' && InvalidKeyText[0] == 'I'
    ensures QuotaText[2] == 's' && InvalidKeyText[2] == 'v'
  {
  }

  /** The rate-limit text is returned exactly when `rate_limit` occurs, whatever else occurs. */
  lemma RateLimitWins(message: string)
    ensures HandleOpenAIError(message) == RateLimitText <==> Contains(message, "rate_limit")
  {
    FixedTextsDiffer(message);
  }

  /** The quota text is returned exactly when `insufficient_quota` occurs and `rate_limit` does not. */
  lemma QuotaSecond(message: string)
    ensures HandleOpenAIError(message) == QuotaText
        <==> !Contains(message, "rate_limit") && Contains(message, "insufficient_quota")
  {
    FixedTextsDiffer(message);
  }

  /** The invalid-key text is returned exactly when `invalid_api_key` is the first keyword present. */
  lemma InvalidKeyThird(message: string)
    ensures HandleOpenAIError(message) == InvalidKeyText
        <==> !Contains(message, "rate_limit") && !Contains(message, "insufficient_quota")
             && Contains(message, "invalid_api_key")
  {
    FixedTextsDiffer(message);
  }

  /** Without any keyword the message is passed through after `API Error: `, and only then. */
  lemma GenericOtherwise(message: string)
    ensures HandleOpenAIError(message) == GenericPrefix + message
        <==> !Contains(message, "rate_limit") && !Contains(message, "insufficient_quota")
             && !Contains(message, "invalid_api_key")
  {
    FixedTextsDiffer(message);
  }

  /**
   * A text that starts with `API Error: ` carries the original message after
   * it: no fixed text starts that way.
   */
  lemma GenericReadBack(message: string)
    ensures StartsWith(HandleOpenAIError(message), GenericPrefix)
        ==> HandleOpenAIError(message)[|GenericPrefix|..] == message
  {
    var text := HandleOpenAIError(message);
    if StartsWith(text, GenericPrefix) {
      assert text[0] == 'A';
      TextHeads();
      assert text == GenericPrefix + message;
    }
  }

  /** A message naming two problems is reported as a rate limit. */
  lemma RateLimitBeforeQuota()
    ensures HandleOpenAIError("rate_limit_exceeded; insufficient_quota") == RateLimitText
  {
    var m := "rate_limit_exceeded; insufficient_quota";
    assert StartsWith(m[0..], "rate_limit");
  }
}
