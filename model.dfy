/**
 * Abstract outcomes of the remote calls. Nothing here talks to the network:
 * each `fetch` the source issues is replaced by the value it ends in, and the
 * model is given those values as inputs.
 */
module Remote {
  import opened Options

  /**
   * How one `callOpenAI` (src/App.js) ends.
   * - `Failed`: reading the image, `fetch` or `response.json()` threw, or the
   *   status was not ok; the message is the error's text. No tokens are counted.
   * - `Answered`: the status was ok, so `usage.total_tokens` has been added to
   *   the token counter; `content` is the parsed reply, or `None` when
   *   `choices[0].message.content` or `JSON.parse` threw afterwards.
   */
  datatype Reply<+T> =
    | Failed(message: string)
    | Answered(usage: Option<nat>, content: Option<T>)

  /** The call answered with an ok status and its reply parsed. */
  predicate Parsed<T>(reply: Reply<T>)
  {
    reply.Answered? && reply.content.Some?
  }

  /** What one call adds to the token counter: `data.usage?.total_tokens || 0` on an ok status. */
  function TokensOf<T>(reply: Reply<T>): (n: nat)
    ensures reply.Failed? ==> n == 0
    ensures reply.Answered? ==> n == if reply.usage.Some? then reply.usage.value else 0
  {
    match reply
    case Answered(Some(n), _) => n
    case _ => 0
  }

  /** The body of a non-ok answer from the models endpoint. */
  datatype ErrorBody =
    | Malformed                              // `response.json()` threw, or the body is not an object, so reading its `error` threw
    | ErrorJson(message: Option<string>)     // `error?.message`

  /** How the credential check against `GET /models` ends. */
  datatype ModelsResponse =
    | NetworkFailure                         // `fetch` threw
    | Listed                                 // `response.ok`
    | Refused(body: ErrorBody)               // not ok

  /** JavaScript's `message || fallback` on an optional string: the empty string is falsy. */
  function MessageOr(message: Option<string>, fallback: string): string
  {
    if message.Some? && message.value != "" then message.value else fallback
  }
}

/** The values the batch pipeline works on. */
module Domain {

  /** A browser `File`: its name, declared media type and size in bytes (the payload is not modelled). */
  datatype UploadedFile = UploadedFile(name: string, mediaType: string, size: int)

  /** The classifier's JSON reply `{meaningful, reason, confidence, imageType}`. */
  datatype Analysis = Analysis(meaningful: bool, reason: string, confidence: real, imageType: string)

  /** The generator's JSON reply, nine named fields. */
  datatype PromptFields = PromptFields(
    imagePrompt: string, videoPrompt: string, creativePrompt: string,
    tags: seq<string>, style: string, mood: string,
    colors: seq<string>, lighting: string, composition: string)

  /** `{file, analysis}`, one entry of `meaningfulImages`. */
  datatype KeptImage = KeptImage(file: UploadedFile, analysis: Analysis)

  /** `{image, analysis, ...result}`, one entry of `prompts`. */
  datatype PromptRecord = PromptRecord(image: UploadedFile, analysis: Analysis, fields: PromptFields)

  /** `{fileName, meaningfulImages, prompts}`, one entry of `results`. */
  datatype FileResult = FileResult(fileName: string, meaningfulImages: seq<KeptImage>, prompts: seq<PromptRecord>)

  /** Item ids; the source draws them from `Date.now() + Math.random()`. */
  type Id = nat

  /** The only status the source ever assigns to a queue item. */
  datatype Status = Pending

  /** `{file, id, status, images, prompts}`, one entry of the upload queue. */
  datatype QueueItem = QueueItem(file: UploadedFile, id: Id, status: Status, images: seq<UploadedFile>, prompts: seq<PromptRecord>)
}
