# PDFtoPrompt core, modelled in Dafny

PDFtoPrompt is a single-page React tool. The user does three things:

1. Enters a key for the OpenAI API and has it checked.
2. Queues images (and PDFs) by drag-and-drop or a file picker.
3. Runs a batch.

A batch walks the queue file by file. For each file it:

1. Extracts the file's images. An image is its own single image; a PDF yields none for now.
2. Asks a vision model whether each image is meaningful. The filter is fail-open: on any error the image is kept with a fallback analysis.
3. Asks the model for nine prompt fields per kept image. The generator is fail-skip: on any error the image gets no record.

Each file that keeps at least one image adds a result entry. Along the way the run advances a step counter and a progress percentage. It also adds up the tokens the API reports, and at the end it shows a cost estimate.

The model has these modules:

- `Options`, `Seqs` and `Strings`. These hold the generic traversals the source's loops and `filter` calls perform (`Filter`, `FilterMap`, `Sum`, `IsSubsequence`) and their lemmas. They also hold `startsWith`, `includes` and `trim`'s whitespace set.
- `Remote`. How a call to the API ends, as a value, so nothing in the model does I/O. A chat call either `Failed` (no tokens counted) or was `Answered` with an ok status. An ok answer has its `usage.total_tokens` counted before its content is parsed, and that content may still fail to parse.
- `Domain`. The records the component passes around: files, analyses, prompt fields, queue items and result entries.
- `Cost`. `calculateCost`, which src/App.js and src/utils/openai.js define identically.
- `Service`. src/utils/openai.js: `OpenAIService` (a value, since its fields never change), `createOpenAIService` and `handleOpenAIError`.
- `Intake`. `handleFiles` (size and type filter, appending pending items) and `removeFile`.
- `Credentials`. `validateApiKey` of the component: a blank check, then the `sk-` prefix check, then the `GET /models` verdict.
- `Stages`. `extractImages`, `filterMeaningfulImages` and `generatePrompts`. The two loops are methods proved against the functions `FilterSpec`/`ClassifyTokens` and `GenerateSpec`/`GenerateTokens`.
- `Pipeline`. The component's state as the class `App`, with one method per handler. `processFiles` is proved against the run functions `RunResults`, `RunTokens` and `RunSteps`, and the run's properties are lemmas about those functions.

The remote calls are parameters. `classify` and `generate` map an image to how its call ends. The model is therefore proved for every behaviour of the API in which each reply is a function of the file it concerns.

Some behaviour of the code is easy to overlook, and the model keeps it as written:

- A file advances the step counter by 1, 2 or 3 steps, not a fixed 3. It stops after extraction when there are no images, and after filtering when nothing was kept. Progress is still divided by `files.length * 3`, so a queue of n PDFs never shows more than (n-1)/(3n)·100 before the final `setProgress(100)` (`Pipeline.ProcessOne`, `Pipeline.RunSteps`, `Pipeline.App.ProcessQueue`).
- The token counter counts the classification calls as well as the generation calls (`Pipeline.TwoImageRun`).
- The final cost counts prompts, not surviving images. It is computed from the `results` and `totalTokens` the handler closed over when the run started, which are not the values the run produced (`Pipeline.App.ProcessFiles`).
- No queue item's status is ever changed. Only two kinds of file are absent from the results: files without an image (PDFs and other non-images), and files whose every classification parsed and was rejected. An image whose calls all fail is listed, with the fallback analysis and no prompts (`Pipeline.AllCallsFailedStillListed`).

## Model

| member | source | states |
|---|---|---|
| Service.OpenAIService.ValidateApiKey | src/utils/openai.js:8-27 | valid exactly when the models list came back ok; an error exactly when invalid, never empty: "Network error" when the request or the error body failed, the server's message when it sent a non-empty one, "Invalid API key" otherwise |
| Service.CreateOpenAIService | src/utils/openai.js:154-156 | the service it builds through the constructor at src/utils/openai.js:3-6 keeps the key as given and the fixed base URL |
| Service.HandleOpenAIError | src/utils/openai.js:159-169 | the text is never empty and is one of the three fixed texts or `API Error: ` followed by the message; which one is decided by RateLimitWins, QuotaSecond, InvalidKeyThird and GenericOtherwise |
| Service.FixedTextsDiffer | src/utils/openai.js:159-169 | the three fixed error texts differ from each other and from every `API Error: ...` text |
| Service.RateLimitWins | src/utils/openai.js:160-161 | the rate-limit text is returned exactly when the message contains `rate_limit`, whatever else it contains |
| Service.QuotaSecond | src/utils/openai.js:162-163 | the quota text is returned exactly when `insufficient_quota` occurs and `rate_limit` does not |
| Service.InvalidKeyThird | src/utils/openai.js:164-165 | the invalid-key text is returned exactly when `invalid_api_key` is the first of the three keywords present |
| Service.GenericOtherwise | src/utils/openai.js:166-168 | the message is passed through after `API Error: ` exactly when it contains none of the keywords |
| Service.GenericReadBack | src/utils/openai.js:166-168 | a text starting with `API Error: ` holds the original message after the prefix |
| Service.RateLimitBeforeQuota | src/utils/openai.js:159-163 | a message naming both a rate limit and a quota problem is reported as a rate limit |
| Cost.CalculateCost | src/App.js:489-495 | the estimate of non-negative counts is non-negative |
| Cost.CostOfNothing | src/App.js:489-495 | no images and no tokens cost nothing |
| Cost.CostMonotone | src/utils/openai.js:144-150 | more images or more tokens never cost less |
| Cost.CostAdditive | src/App.js:489-495 | the estimates of two parts of a run add up to the estimate of the whole |
| Cost.CostExample | src/App.js:489-495 | 10 images and 4000 tokens cost 0.1965 |
| Intake.HandleFiles | src/App.js:274-297 | the old queue stays as the prefix and at most one item is added per batch file; AddedAreAccepted, HandleFilesAppends and HandleFilesAdmits say which |
| Intake.NewItems | src/App.js:290-296 | one item per accepted file, in order, each with its file, its drawn id, `pending` status and no images or prompts |
| Intake.AddedAreAccepted | src/App.js:274-297 | the files appended to the queue are exactly the batch's files passing the size and type checks, in order |
| Intake.HandleFilesAppends | src/App.js:290-296 | the old queue is kept as its prefix; every added item is pending, has no images and no prompts, carries its drawn id and an accepted file |
| Intake.HandleFilesAdmits | src/App.js:275-288 | the added files are a subsequence of the batch, each accepted file as often as it occurs, and a file is added iff it is in the batch and accepted |
| Intake.SizeLimitInclusive | src/App.js:276-280 | a file of exactly 50 MiB of an accepted type is accepted and one byte more is refused |
| Intake.HandleFilesKeepsIdsDistinct | src/App.js:290-296 | with freshly drawn distinct ids the queue's ids stay distinct |
| Intake.RemoveFile | src/App.js:573-575 | the queue never grows and no remaining item carries the removed id; RemoveFileExact says the rest all stay |
| Intake.RemoveFileExact | src/App.js:573-575 | removal keeps exactly the items with another id, in order, each as often as before |
| Intake.RemoveAbsentId | src/App.js:573-575 | removing an id no item carries leaves the queue unchanged |
| Intake.RemovePresentId | src/App.js:573-575 | with distinct ids, removing a present id shortens the queue by one |
| Intake.RemoveFileKeepsIdsDistinct | src/App.js:573-575 | removal keeps the ids distinct |
| Credentials.CheckKey | src/App.js:233-271 | the request is issued exactly when both local checks pass; the key is valid exactly when the notice is the acceptance, and only after a request |
| Credentials.LocalChecksShortCircuit | src/App.js:233-245 | the request is issued exactly when the key is not blank and starts with `sk-`; otherwise the key is marked invalid whatever the server would say |
| Credentials.ValidIffListed | src/App.js:233-271 | the key is marked valid exactly when it passes the local checks and the models list came back ok |
| Credentials.PrefixedKeyIsNotBlank | src/App.js:234-244 | a key starting with `sk-` is never blank, so it passes both local checks |
| Credentials.NoPrefixNoRequest | src/App.js:240-244 | the key `abc` is refused for its prefix, without a request |
| Credentials.AgreesWithService | src/App.js:256-267 | after a request the component and the service reach the same verdict; the component reports a connection failure exactly when the request threw or the error body could not be read, and in that case the service says "Network error" |
| Remote.TokensOf | src/App.js:219-222 | a failed call adds no tokens; an ok answer adds its reported `usage.total_tokens`, or 0 when it reports none, whether or not its content then parses |
| Stages.ExtractImages | src/App.js:317-328 | at most one image, which is the file itself; there is one exactly when the media type starts with `image/` |
| Stages.QueuedFileExtraction | src/App.js:317-328 | for a file the intake accepted, extraction is empty exactly when it is a PDF |
| Stages.ClassifyOne | src/App.js:378-401 | a kept entry is the image itself; the image is dropped exactly when its reply parsed and does not qualify; a kept analysis qualifies or is the fallback |
| Stages.FilterSpec | src/App.js:331-405 | no more entries than images, each with a qualifying or the fallback analysis; FilterKeepsEach keeps every image not rejected by its own parsed reply, KeptEntriesJustified and FilterFailOpen give the rest |
| Stages.FilterMeaningfulImages | src/App.js:331-405 | the loop returns `FilterSpec` (one decision per image, in order) and adds `ClassifyTokens` (each ok answer's usage) |
| Stages.FilterKeepsEach | src/App.js:381-401 | in any list, an image whose call failed is kept with the fallback analysis, one whose parsed reply qualifies is kept with it, and one whose parsed reply does not qualify has no entry |
| Stages.FilterKeepsOrder | src/App.js:334-402 | at most one entry per image, in input order |
| Stages.FilterDecision | src/App.js:381-401 | a parsed reply keeps its image with that analysis iff it is meaningful with confidence above 0.6; any failure keeps it with the fallback analysis |
| Stages.ThresholdIsStrict | src/App.js:381 | a meaningful reply with confidence exactly 0.6 drops the image |
| Stages.KeptEntriesJustified | src/App.js:378-401 | each kept entry comes from the input, has the fallback analysis iff its call failed, and otherwise holds its own qualifying reply |
| Stages.FilterFailOpen | src/App.js:390-401 | every image is kept iff no parsed reply rejected one; when every call fails every image is kept with the fallback analysis |
| Stages.ChargedEvenWhenUnparsed | src/App.js:217-222 | an ok answer whose content does not parse still has its tokens counted, and its image is kept with the fallback analysis |
| Stages.FailedCallsAreFree | src/App.js:219-225 | calls that fail before an ok answer add no tokens |
| Stages.GenerateOne | src/App.js:462-473 | a record is made exactly when the reply parsed, and it carries the kept image, its analysis and the parsed fields |
| Stages.GenerateSpec | src/App.js:408-477 | no more records than kept images, each holding the parsed fields of its own image's call; GenerateKeepsParsed gives every parsed call its record, GenerateFailSkip the order |
| Stages.GeneratePrompts | src/App.js:408-477 | the loop returns `GenerateSpec` (one record per parsed reply, in order) and adds `GenerateTokens` |
| Stages.GenerateFailSkip | src/App.js:411-473 | the records keep their images and analyses in input order; there is one per kept image iff every generation call parsed |
| Stages.GenerateKeepsParsed | src/App.js:462-469 | in any list, a kept image whose generation call parsed gets the record holding its image, analysis and parsed fields |
| Stages.RecordsFromOwnReply | src/App.js:462-469 | each record belongs to a kept image and holds the fields its own call returned |
| Stages.FailOpenVersusFailSkip | src/App.js:331-477 | the same failure keeps an image at the filter and drops it at the generator |
| Pipeline.ProcessOne | src/App.js:524-555 | one step exactly when extraction found no image, two exactly when images were found but none kept, otherwise three with an entry named after the file holding at least one kept image; the tokens are those of the calls made in the steps taken |
| Pipeline.RunResults | src/App.js:523-554 | at most one entry per file, each with at least one kept image; RunResultsExactly and RunResultsInQueueOrder characterise it |
| Pipeline.RunTokens | src/App.js:219-222 | no file's tokens are lost: the total is at least each file's own tokens; RunCompositional adds them up |
| Pipeline.RunSteps | src/App.js:520-548 | a run takes between one and three steps per file, so it never passes the `files.length * 3` it divides by |
| Pipeline.RunSnoc | src/App.js:523-557 | one more file extends the results by its entry, if any, and adds its tokens and steps |
| Pipeline.ProgressAtBounds | src/App.js:526 | each progress value set lies in [0, 100], and a later step never shows less |
| Pipeline.ProgressTraceMonotone | src/App.js:516-563 | 0, the per-step values, then 100 stay in [0, 100] and never decrease |
| Pipeline.RunTraceMonotone | src/App.js:516-563 | the progress values a run sets start at 0, never decrease, stay within [0, 100] and end at 100 |
| Pipeline.RunCompositional | src/App.js:523-557 | files are processed in isolation: a run over two queues is the two runs one after the other |
| Pipeline.RunOnlyGrows | src/App.js:547-551 | during a run the results only grow at their end, and tokens and steps never go down |
| Pipeline.RunResultsInQueueOrder | src/App.js:523-554 | the result entries follow the queue order |
| Pipeline.RunResultsExactly | src/App.js:527-554 | the results hold exactly the entries the files earn: a file with an image of which the filter kept at least one, with what was kept and the prompts generated for it |
| Pipeline.PdfContributesNothing | src/App.js:526-531 | a PDF takes one step, makes no call, adds no tokens and no result |
| Pipeline.ListedWithoutPrompts | src/App.js:541-554 | a qualifying image whose generation fails is still listed, with no prompts, after three steps |
| Pipeline.AllCallsFailedStillListed | src/App.js:389-401 | an image whose classification and generation both fail is listed with the fallback analysis and no prompts, after three steps and without tokens |
| Pipeline.FullImage | src/App.js:525-554 | a qualifying image with generated prompts gives one entry with one prompt, three steps, and both calls' tokens |
| Pipeline.TwoImageRun | src/App.js:516-557 | two such images give two entries in queue order with one prompt each, six steps, and all four calls' tokens |
| Pipeline.App.constructor | src/App.js:6-14 | the initial state: no key, no verdict, empty queue and results, zero counters |
| Pipeline.App.SetApiKey | src/App.js:600 | the key field is replaced, the earlier verdict is kept and the invariant holds |
| Pipeline.App.ValidateApiKey | src/App.js:233-271 | the verdict and notice of `Credentials.CheckKey`; `processing` is lowered again once a request was issued |
| Pipeline.App.HandleFiles | src/App.js:274-297 | the queue becomes `Intake.HandleFiles` of the old queue and keeps its invariant (distinct ids, accepted pending items) |
| Pipeline.App.RemoveFile | src/App.js:573-575 | the queue becomes `Intake.RemoveFile` of the old queue, keeps its invariant, and loses exactly one item when the id was present |
| Pipeline.App.ProcessFiles | src/App.js:497-565 | a run starts exactly when the key was validated, the queue is non-empty and the user confirmed; otherwise nothing changes. A run leaves the queue, ends with `RunResults`/`RunTokens`, progress 100, `processing` lowered and the cost of the values from before the run |
| Pipeline.App.Run | src/App.js:516-563 | reset, the loop, then the cost from the earlier `results`/`totalTokens`, progress 100 and the full progress trace |
| Pipeline.App.ProcessQueue | src/App.js:520-557 | the loop leaves `RunResults`, `RunTokens`, `RunSteps`, the progress values of every step taken, and the progress of the last step |
| Pipeline.App.ProcessItem | src/App.js:524-555 | one iteration adds the file's entry, tokens and one to three steps, setting the progress before each stage it reaches and leaving that of the last one |
| Pipeline.App.SetProgress | src/App.js:526 | progress becomes `currentStep / totalSteps * 100`, within [0, 100] |

## Left out

- The alert texts, `console` logging, `window.confirm` and the clipboard are left out. Which alert `validateApiKey` shows is kept as the value `Credentials.KeyNotice`. The confirmation is the boolean `confirmed` passed to `ProcessFiles`.
- The HTTP requests are left out: headers, the request bodies with their instruction texts, `response.json()`, and the model's JSON reply text. `JSON.parse` is modelled only as "parsed" or "not parsed". Parsed replies are assumed to have the documented field types.
- `fileToBase64` and the image payload are left out. Reading an image that fails ends its call as `Failed`.
- The replies are modelled as functions of the image value: two calls for equal files get equal replies.
- Ids come from the supplied `ids`, and `App.HandleFiles` requires them to be fresh and distinct. The source draws them from `Date.now() + Math.random()`, which only makes clashes unlikely.
- Stages.Qualifies: the confidence is an exact real number compared with 0.6, not a JSON-parsed IEEE double. A reply such as `0.60000000000000001` parses to the double 0.6 and drops the image in the source, while the model keeps it.
- Pipeline.ProgressAt: the progress and the cost are exact real numbers, not IEEE doubles, so rounding of `(currentStep / totalSteps) * 100` and of the cost is not modelled.
- React's batching of state updates and re-renders is left out. Updates take effect in program order, except that `processFiles` reads `results` and `totalTokens` as they were when the run began. The model states this explicitly.
- The `processing` flag only disables buttons in the rendered page. A second run started during a run is not modelled, because the model's methods run to completion.
- The outer `try`/`catch` of `processFiles` has nothing left to catch in the model, because every stage absorbs its own errors. Its alert path is therefore not modelled.
- The `...result` spread of `generatePrompts` is modelled as a separate `fields` part of the record. A reply carrying its own `image` or `analysis` keys would override those keys in the source.
- `OpenAIService.analyzeImage`, `filterMeaningfulImage` and `generatePrompts` are left out. They are never called by the component, which makes its own calls through `callOpenAI`, and their request bodies are I/O.
- The drag-and-drop handlers and the rendering are left out.
