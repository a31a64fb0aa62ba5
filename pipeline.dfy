/**
 * The `App` component of src/App.js as a state machine: its state variables
 * are the fields of `App`, and each handler is a method. `processFiles`
 * walks the queue in order, running extraction on each file, then filtering
 * if there were images, then generation if any image was kept, advancing the
 * step counter and the progress value, and appending a result for every file
 * that kept at least one image, prompts or not.
 */
module Pipeline {
  import opened Options
  import opened Seqs
  import opened Strings
  import opened Remote
  import opened Domain
  import opened Stages
  import Intake
  import Credentials
  import Cost

  // ---------------------------------------------------------------- one file

  /** What one file contributes to a run: its result entry, if any, its tokens and its steps. */
  datatype FileOutcome = FileOutcome(result: Option<FileResult>, tokens: nat, steps: nat)

  /**
   * One iteration of the `processFiles` loop. A file without images stops
   * after one step and one without meaningful images after two; only a file
   * that reaches the generator takes all three and yields a result entry.
   */
  function ProcessOne(item: QueueItem, classify: UploadedFile -> Reply<Analysis>,
                      generate: UploadedFile -> Reply<PromptFields>): (outcome: FileOutcome)
    ensures 1 <= outcome.steps <= 3
    ensures outcome.steps == 1 <==> ExtractImages(item.file) == []
    ensures outcome.steps == 2 <==> ExtractImages(item.file) != [] && FilterSpec(ExtractImages(item.file), classify) == []
    ensures outcome.steps == 1 ==> outcome.tokens == 0
    ensures outcome.steps == 2 ==> outcome.tokens == ClassifyTokens(ExtractImages(item.file), classify)
    ensures outcome.steps == 3 ==>
      outcome.tokens == ClassifyTokens(ExtractImages(item.file), classify)
                        + GenerateTokens(FilterSpec(ExtractImages(item.file), classify), generate)
    ensures outcome.result.Some? <==> outcome.steps == 3
    ensures outcome.result.Some? ==>
      outcome.result.value.fileName == item.file.name && outcome.result.value.meaningfulImages != []
  {
    var images := ExtractImages(item.file);
    if images == [] then FileOutcome(None, 0, 1)
    else
      var meaningfulImages := FilterSpec(images, classify);
      if meaningfulImages == [] then FileOutcome(None, ClassifyTokens(images, classify), 2)
      else
        var prompts := GenerateSpec(meaningfulImages, generate);
        FileOutcome(Some(FileResult(item.file.name, meaningfulImages, prompts)),
                    ClassifyTokens(images, classify) + GenerateTokens(meaningfulImages, generate), 3)
  }

  function ResultOf(classify: UploadedFile -> Reply<Analysis>, generate: UploadedFile -> Reply<PromptFields>)
    : QueueItem -> Option<FileResult>
  {
    (item: QueueItem) => ProcessOne(item, classify, generate).result
  }

  function TokensOfFile(classify: UploadedFile -> Reply<Analysis>, generate: UploadedFile -> Reply<PromptFields>)
    : QueueItem -> nat
  {
    (item: QueueItem) => ProcessOne(item, classify, generate).tokens
  }

  function StepsOfFile(classify: UploadedFile -> Reply<Analysis>, generate: UploadedFile -> Reply<PromptFields>)
    : QueueItem -> nat
  {
    (item: QueueItem) => ProcessOne(item, classify, generate).steps
  }

  // ---------------------------------------------------------------- a run

  /** The `results` a run over `files` leaves. */
  function RunResults(files: seq<QueueItem>, classify: UploadedFile -> Reply<Analysis>,
                      generate: UploadedFile -> Reply<PromptFields>): (results: seq<FileResult>)
    ensures |results| <= |files|
    ensures forall k :: 0 <= k < |results| ==> results[k].meaningfulImages != []
  {
    FilterMapAll(ResultOf(classify, generate), files, (r: FileResult) => r.meaningfulImages != []);
    FilterMap(ResultOf(classify, generate), files)
  }

  /** The `totalTokens` a run over `files` leaves. */
  function RunTokens(files: seq<QueueItem>, classify: UploadedFile -> Reply<Analysis>,
                     generate: UploadedFile -> Reply<PromptFields>): (tokens: nat)
    ensures forall k :: 0 <= k < |files| ==> ProcessOne(files[k], classify, generate).tokens <= tokens
  {
    SumElementBound(TokensOfFile(classify, generate), files);
    Sum(TokensOfFile(classify, generate), files)
  }

  /** The final `currentStep` of a run over `files`. */
  function RunSteps(files: seq<QueueItem>, classify: UploadedFile -> Reply<Analysis>,
                    generate: UploadedFile -> Reply<PromptFields>): (steps: nat)
    ensures |files| <= steps <= 3 * |files|
  {
    SumBounds(StepsOfFile(classify, generate), files, 1, 3);
    Sum(StepsOfFile(classify, generate), files)
  }

  /** `(currentStep / totalSteps) * 100` */
  function ProgressAt(step: nat, totalSteps: nat): real
    requires totalSteps > 0
  {
    (step as real / totalSteps as real) * 100.0
  }

  /** The progress values set before the first `count` steps, in order. */
  function ProgressMarks(count: nat, totalSteps: nat): seq<real>
    requires totalSteps > 0
  {
    seq(count, j requires 0 <= j < count => ProgressAt(j, totalSteps))
  }

  /** `results.reduce((acc, r) => acc + r.prompts.length, 0)` */
  function PromptCount(results: seq<FileResult>): nat
  {
    Sum((r: FileResult) => |r.prompts|, results)
  }

  /** How one more file extends a run. */
  lemma RunSnoc(files: seq<QueueItem>, i: nat, classify: UploadedFile -> Reply<Analysis>,
                generate: UploadedFile -> Reply<PromptFields>)
    requires i < |files|
    ensures var outcome := ProcessOne(files[i], classify, generate);
      && RunResults(files[..i + 1], classify, generate)
         == RunResults(files[..i], classify, generate) + (match outcome.result case Some(r) => [r] case None => [])
      && RunTokens(files[..i + 1], classify, generate) == RunTokens(files[..i], classify, generate) + outcome.tokens
      && RunSteps(files[..i + 1], classify, generate) == RunSteps(files[..i], classify, generate) + outcome.steps
  {
    assert files[..i + 1] == files[..i] + [files[i]];
    FilterMapAppend(ResultOf(classify, generate), files[..i], [files[i]]);
    FilterMapSingle(ResultOf(classify, generate), files[i]);
    SumAppend(TokensOfFile(classify, generate), files[..i], [files[i]]);
    SumAppend(StepsOfFile(classify, generate), files[..i], [files[i]]);
  }

  lemma ProgressMarksPrefix(count: nat, count': nat, totalSteps: nat)
    requires totalSteps > 0 && count <= count'
    ensures ProgressMarks(count', totalSteps) == ProgressMarks(count, totalSteps) + ProgressMarks(count', totalSteps)[count..]
  {
    assert ProgressMarks(count', totalSteps)[..count] == ProgressMarks(count, totalSteps);
  }

  /** Every progress value set lies in [0, 100], and a later step never shows less. */
  lemma ProgressAtBounds(step: nat, step': nat, totalSteps: nat)
    requires 0 < totalSteps && step <= step' <= totalSteps
    ensures 0.0 <= ProgressAt(step, totalSteps) <= ProgressAt(step', totalSteps) <= 100.0
  {
    var t := totalSteps as real;
    var x, x' := step as real / t, step' as real / t;
    assert x * t == step as real;
    assert x' * t == step' as real;
    NonNegativeFactor(x, t);
    NonNegativeFactor(x' - x, t);
    NonNegativeFactor(1.0 - x', t);
  }

  lemma NonNegativeFactor(x: real, t: real)
    requires t > 0.0 && x * t >= 0.0
    ensures x >= 0.0
  {
    if x < 0.0 {
      assert false;
    }
  }

  /** The progress values of a run: 0, one value per step taken, then 100; all in [0, 100] and never decreasing. */
  lemma ProgressTraceMonotone(count: nat, totalSteps: nat)
    requires 0 < totalSteps && count <= totalSteps
    ensures var trace := [0.0] + ProgressMarks(count, totalSteps) + [100.0];
      && (forall j :: 0 <= j < |trace| ==> 0.0 <= trace[j] <= 100.0)
      && (forall i, j :: 0 <= i < j < |trace| ==> trace[i] <= trace[j])
      && trace[|trace| - 1] == 100.0
  {
    var trace := [0.0] + ProgressMarks(count, totalSteps) + [100.0];
    forall i, j | 0 <= i <= j < |trace|
      ensures 0.0 <= trace[i] <= trace[j] <= 100.0
    {
      if 0 < j < |trace| - 1 {
        ProgressAtBounds(j - 1, j - 1, totalSteps);
      }
      if 0 < i < |trace| - 1 && j < |trace| - 1 {
        ProgressAtBounds(i - 1, j - 1, totalSteps);
      } else if 0 < i < |trace| - 1 {
        ProgressAtBounds(i - 1, i - 1, totalSteps);
      }
    }
  }

  // ---------------------------------------------------------------- properties of a run

  /** The progress values a run sets start at 0, never decrease, stay within [0, 100] and end at 100. */
  lemma RunTraceMonotone(files: seq<QueueItem>, classify: UploadedFile -> Reply<Analysis>,
                         generate: UploadedFile -> Reply<PromptFields>)
    requires files != []
    ensures var trace := [0.0] + ProgressMarks(RunSteps(files, classify, generate), 3 * |files|) + [100.0];
      && trace[0] == 0.0 && trace[|trace| - 1] == 100.0
      && (forall j :: 0 <= j < |trace| ==> 0.0 <= trace[j] <= 100.0)
      && (forall i, j :: 0 <= i < j < |trace| ==> trace[i] <= trace[j])
  {
    ProgressTraceMonotone(RunSteps(files, classify, generate), 3 * |files|);
  }

  /** Files are processed in isolation: a run over two queues is the two runs one after the other. */
  lemma RunCompositional(files: seq<QueueItem>, files': seq<QueueItem>, classify: UploadedFile -> Reply<Analysis>,
                         generate: UploadedFile -> Reply<PromptFields>)
    ensures RunResults(files + files', classify, generate)
         == RunResults(files, classify, generate) + RunResults(files', classify, generate)
    ensures RunTokens(files + files', classify, generate)
         == RunTokens(files, classify, generate) + RunTokens(files', classify, generate)
    ensures RunSteps(files + files', classify, generate)
         == RunSteps(files, classify, generate) + RunSteps(files', classify, generate)
  {
    FilterMapAppend(ResultOf(classify, generate), files, files');
    SumAppend(TokensOfFile(classify, generate), files, files');
    SumAppend(StepsOfFile(classify, generate), files, files');
  }

  /** While a run goes on, `results` only grows at its end, and the token count and the step count never go down. */
  lemma RunOnlyGrows(files: seq<QueueItem>, i: nat, j: nat, classify: UploadedFile -> Reply<Analysis>,
                     generate: UploadedFile -> Reply<PromptFields>)
    requires i <= j <= |files|
    ensures RunResults(files[..i], classify, generate) <= RunResults(files[..j], classify, generate)
    ensures RunTokens(files[..i], classify, generate) <= RunTokens(files[..j], classify, generate)
    ensures RunSteps(files[..i], classify, generate) <= RunSteps(files[..j], classify, generate)
  {
    assert files[..j] == files[..i] + files[i..j];
    RunCompositional(files[..i], files[i..j], classify, generate);
  }

  /** The result entries follow the queue order. */
  lemma RunResultsInQueueOrder(files: seq<QueueItem>, classify: UploadedFile -> Reply<Analysis>,
                               generate: UploadedFile -> Reply<PromptFields>)
    ensures IsSubsequence(Map((r: FileResult) => r.fileName, RunResults(files, classify, generate)),
                          Map((item: QueueItem) => item.file.name, files))
  {
    var result := ResultOf(classify, generate);
    assert forall item :: result(item).Some? ==> result(item).value.fileName == item.file.name;
    FilterMapOrder(result, files, (r: FileResult) => r.fileName, (item: QueueItem) => item.file.name);
  }

  /**
   * The entry a file earns: it had an image and the filter kept at least one;
   * the entry holds what the filter kept and whatever prompts were generated
   * for them, possibly none.
   */
  predicate Earns(item: QueueItem, r: FileResult, classify: UploadedFile -> Reply<Analysis>,
                  generate: UploadedFile -> Reply<PromptFields>)
  {
    var images := ExtractImages(item.file);
    var meaningfulImages := FilterSpec(images, classify);
    && images != [] && meaningfulImages != []
    && r == FileResult(item.file.name, meaningfulImages, GenerateSpec(meaningfulImages, generate))
  }

  /** `results` holds exactly the entries the queued files earn. */
  lemma RunResultsExactly(files: seq<QueueItem>, classify: UploadedFile -> Reply<Analysis>,
                          generate: UploadedFile -> Reply<PromptFields>)
    ensures forall r ::
      r in RunResults(files, classify, generate) <==> exists k :: 0 <= k < |files| && Earns(files[k], r, classify, generate)
  {
    var result := ResultOf(classify, generate);
    forall r | r in RunResults(files, classify, generate)
      ensures exists k :: 0 <= k < |files| && Earns(files[k], r, classify, generate)
    {
      FilterMapSource(result, files, r);
      var k :| 0 <= k < |files| && result(files[k]) == Some(r);
      assert Earns(files[k], r, classify, generate);
    }
    forall r, k | 0 <= k < |files| && Earns(files[k], r, classify, generate)
      ensures r in RunResults(files, classify, generate)
    {
      assert result(files[k]) == Some(r);
      FilterMapComplete(result, files, k);
    }
  }

  /** A PDF takes one step, calls nothing and adds nothing. */
  lemma PdfContributesNothing(item: QueueItem, classify: UploadedFile -> Reply<Analysis>,
                              generate: UploadedFile -> Reply<PromptFields>)
    requires item.file.mediaType == "application/pdf"
    ensures ProcessOne(item, classify, generate) == FileOutcome(None, 0, 1)
  {
    assert item.file.mediaType[0] == 'a';
  }

  /**
   * An image whose classification qualifies but whose generation fails is
   * still listed, with its kept image and no prompts, after three steps.
   */
  lemma ListedWithoutPrompts(item: QueueItem, message: string, classify: UploadedFile -> Reply<Analysis>,
                             generate: UploadedFile -> Reply<PromptFields>)
    requires StartsWith(item.file.mediaType, "image/")
    requires Parsed(classify(item.file)) && Qualifies(classify(item.file).content.value)
    requires generate(item.file) == Failed(message)
    ensures var outcome := ProcessOne(item, classify, generate);
      && outcome.result == Some(FileResult(item.file.name, [KeptImage(item.file, classify(item.file).content.value)], []))
      && outcome.tokens == TokensOf(classify(item.file))
      && outcome.steps == 3
  {
    var kept := KeptImage(item.file, classify(item.file).content.value);
    FilterMapSingle(ClassifyStep(classify), item.file);
    FilterMapSingle(GenerateStep(generate), kept);
    assert ClassifyTokens([item.file], classify) == TokensOf(classify(item.file)) + ClassifyTokens([], classify);
    assert GenerateTokens([kept], generate) == GenerateTokens([], generate);
  }

  /**
   * An image whose two calls both fail is still listed: the filter keeps it
   * with the fallback analysis and the generator skips it, so its entry has
   * no prompts, and the failed calls add no tokens.
   */
  lemma AllCallsFailedStillListed(item: QueueItem, classify: UploadedFile -> Reply<Analysis>,
                                  generate: UploadedFile -> Reply<PromptFields>)
    requires StartsWith(item.file.mediaType, "image/")
    requires classify(item.file).Failed? && generate(item.file).Failed?
    ensures ProcessOne(item, classify, generate)
         == FileOutcome(Some(FileResult(item.file.name, [KeptImage(item.file, FallbackAnalysis)], [])), 0, 3)
  {
    var kept := KeptImage(item.file, FallbackAnalysis);
    FilterMapSingle(ClassifyStep(classify), item.file);
    FilterMapSingle(GenerateStep(generate), kept);
    assert ClassifyTokens([item.file], classify) == TokensOf(classify(item.file)) + ClassifyTokens([], classify);
    assert GenerateTokens([kept], generate) == TokensOf(generate(item.file)) + GenerateTokens([], generate);
  }

  /** One image that qualifies and gets its prompts: one entry with one prompt, three steps, both calls' tokens. */
  lemma FullImage(item: QueueItem, classify: UploadedFile -> Reply<Analysis>,
                  generate: UploadedFile -> Reply<PromptFields>)
    requires StartsWith(item.file.mediaType, "image/")
    requires Parsed(classify(item.file)) && Qualifies(classify(item.file).content.value)
    requires Parsed(generate(item.file))
    ensures var analysis := classify(item.file).content.value;
      var outcome := ProcessOne(item, classify, generate);
      && outcome.result == Some(FileResult(item.file.name, [KeptImage(item.file, analysis)],
                                           [PromptRecord(item.file, analysis, generate(item.file).content.value)]))
      && outcome.tokens == TokensOf(classify(item.file)) + TokensOf(generate(item.file))
      && outcome.steps == 3
  {
    var kept := KeptImage(item.file, classify(item.file).content.value);
    FilterMapSingle(ClassifyStep(classify), item.file);
    FilterMapSingle(GenerateStep(generate), kept);
    assert ClassifyTokens([item.file], classify) == TokensOf(classify(item.file)) + ClassifyTokens([], classify);
    assert GenerateTokens([kept], generate) == TokensOf(generate(item.file)) + GenerateTokens([], generate);
  }

  /**
   * Two images that both qualify and both get prompts: two entries in queue
   * order with one prompt each, six steps, and every call's tokens counted.
   */
  lemma TwoImageRun(a: QueueItem, b: QueueItem, classify: UploadedFile -> Reply<Analysis>,
                    generate: UploadedFile -> Reply<PromptFields>)
    requires StartsWith(a.file.mediaType, "image/") && StartsWith(b.file.mediaType, "image/")
    requires Parsed(classify(a.file)) && Qualifies(classify(a.file).content.value) && Parsed(generate(a.file))
    requires Parsed(classify(b.file)) && Qualifies(classify(b.file).content.value) && Parsed(generate(b.file))
    ensures var results := RunResults([a, b], classify, generate);
      && |results| == 2 && results[0].fileName == a.file.name && results[1].fileName == b.file.name
      && |results[0].prompts| == 1 && |results[1].prompts| == 1 && PromptCount(results) == 2
    ensures RunSteps([a, b], classify, generate) == 6
    ensures RunTokens([a, b], classify, generate)
         == TokensOf(classify(a.file)) + TokensOf(generate(a.file)) + TokensOf(classify(b.file)) + TokensOf(generate(b.file))
  {
    FullImage(a, classify, generate);
    FullImage(b, classify, generate);
    assert [a, b][..1] == [a] && [a, b][..2] == [a, b];
    assert [a, b][..0] == [];
    RunSnoc([a, b], 0, classify, generate);
    RunSnoc([a, b], 1, classify, generate);
    var results := RunResults([a, b], classify, generate);
    assert PromptCount(results) == |results[0].prompts| + PromptCount(results[1..]);
    assert PromptCount(results[1..]) == |results[1].prompts| + PromptCount(results[2..]);
  }

  class App {
    var apiKey: string
    var apiKeyValid: Option<bool>     // `null` until the first check
    var files: seq<QueueItem>
    var processing: bool
    var progress: real
    var results: seq<FileResult>
    var totalCost: real
    var totalTokens: nat
    /** Every progress value the last run set, in order. */
    ghost var progressTrace: seq<real>

    /** The queue only holds admitted files as fresh pending items, under distinct ids. */
    ghost predicate Valid()
      reads this
    {
      QueueValid() && 0.0 <= progress <= 100.0
    }

    ghost predicate QueueValid()
      reads this`files
    {
      && Intake.IdsDistinct(files)
      && (forall k :: 0 <= k < |files| ==>
            Intake.Accepts(files[k].file) && files[k] == Intake.NewItem(files[k].file, files[k].id))
    }

    /** The component's initial state. */
    constructor ()
      ensures Valid()
      ensures apiKey == "" && apiKeyValid == None && files == [] && !processing
      ensures progress == 0.0 && results == [] && totalCost == 0.0 && totalTokens == 0
      ensures progressTrace == []
    {
      apiKey, apiKeyValid, files, processing := "", None, [], false;
      progress, results, totalCost, totalTokens := 0.0, [], 0.0, 0;
      progressTrace := [];
    }

    /** The key field's `onChange`: the earlier verdict is kept. */
    method SetApiKey(key: string)
      requires Valid()
      modifies this`apiKey
      ensures Valid()
      ensures apiKey == key
    {
      apiKey := key;
    }

    /**
     * `validateApiKey()`: the verdict and notice of `Credentials.CheckKey`;
     * `processing` is raised and lowered again only around an issued request.
     */
    method ValidateApiKey(response: ModelsResponse) returns (requested: bool, notice: Credentials.KeyNotice)
      requires Valid()
      modifies this`apiKeyValid, this`processing
      ensures Valid()
      ensures var check := Credentials.CheckKey(apiKey, response);
        apiKeyValid == Some(check.valid) && requested == check.requested && notice == check.notice
      ensures requested <==> Credentials.PassesLocalChecks(apiKey)
      ensures processing == if requested then false else old(processing)
    {
      var check := Credentials.CheckKey(apiKey, response);
      Credentials.LocalChecksShortCircuit(apiKey, response, response);
      apiKeyValid := Some(check.valid);
      requested, notice := check.requested, check.notice;
      if requested {
        processing := true;
        processing := false;
      }
    }

    /** `handleFiles(fileList)`, drawing fresh ids for the accepted files. */
    method HandleFiles(batch: seq<UploadedFile>, ids: nat -> Id)
      requires Valid()
      requires forall k, j :: 0 <= k < j < |batch| ==> ids(k) != ids(j)
      requires forall k, i :: 0 <= k < |batch| && 0 <= i < |files| ==> ids(k) != files[i].id
      modifies this`files
      ensures Valid()
      ensures files == Intake.HandleFiles(old(files), batch, ids)
    {
      Intake.HandleFilesAppends(files, batch, ids);
      Intake.HandleFilesKeepsIdsDistinct(files, batch, ids);
      files := Intake.HandleFiles(files, batch, ids);
    }

    /** `removeFile(id)` */
    method RemoveFile(id: Id)
      requires Valid()
      modifies this`files
      ensures Valid()
      ensures files == Intake.RemoveFile(old(files), id)
      ensures (exists k :: 0 <= k < |old(files)| && old(files)[k].id == id) ==> |files| == |old(files)| - 1
    {
      if k :| 0 <= k < |files| && files[k].id == id {
        Intake.RemovePresentId(files, id, k);
      }
      Intake.RemoveFileExact(files, id);
      Intake.RemoveFileKeepsIdsDistinct(files, id);
      files := Intake.RemoveFile(files, id);
    }

    /**
     * `processFiles()`. Nothing changes unless the key was validated, the
     * queue is non-empty and the user confirmed. A run resets the counters,
     * leaves the queue as it is, and ends with the results and tokens of
     * `RunResults`/`RunTokens`, progress 100 and `processing` lowered. The
     * progress values it sets are 0, then the value before each step taken,
     * then 100. The final cost is computed from `results` and `totalTokens`
     * as they were when the run started, not from this run's values.
     */
    method ProcessFiles(confirmed: bool, classify: UploadedFile -> Reply<Analysis>,
                        generate: UploadedFile -> Reply<PromptFields>) returns (started: bool)
      requires Valid()
      modifies this
      ensures Valid()
      ensures started <==> old(apiKeyValid) == Some(true) && old(files) != [] && confirmed
      ensures !started ==> unchanged(this)
      ensures started ==>
        && files == old(files) && apiKey == old(apiKey) && apiKeyValid == old(apiKeyValid)
        && results == RunResults(files, classify, generate)
        && totalTokens == RunTokens(files, classify, generate)
        && progress == 100.0 && !processing
        && totalCost == Cost.CalculateCost(PromptCount(old(results)) as real, old(totalTokens) as real)
        && progressTrace == [0.0] + ProgressMarks(RunSteps(files, classify, generate), 3 * |files|) + [100.0]
    {
      if apiKeyValid != Some(true) {
        return false;
      }
      if |files| == 0 {
        return false;
      }
      if !confirmed {
        return false;
      }
      started := true;
      Run(classify, generate);
    }

    /** A confirmed run of `processFiles` over the whole queue. */
    method Run(classify: UploadedFile -> Reply<Analysis>, generate: UploadedFile -> Reply<PromptFields>)
      requires Valid() && files != []
      modifies this`processing, this`progress, this`results, this`totalCost, this`totalTokens, this`progressTrace
      ensures Valid()
      ensures results == RunResults(files, classify, generate)
      ensures totalTokens == RunTokens(files, classify, generate)
      ensures progress == 100.0 && !processing
      ensures totalCost == Cost.CalculateCost(PromptCount(old(results)) as real, old(totalTokens) as real)
      ensures progressTrace == [0.0] + ProgressMarks(RunSteps(files, classify, generate), 3 * |files|) + [100.0]
    {
      // The handler reads `results` and `totalTokens` from the render it was created in.
      var staleResults, staleTokens := results, totalTokens;

      processing := true;
      progress := 0.0;
      results := [];
      totalCost := 0.0;
      totalTokens := 0;
      progressTrace := [0.0];

      var steps := ProcessQueue(classify, generate);

      totalCost := Cost.CalculateCost(PromptCount(staleResults) as real, staleTokens as real);
      progress := 100.0;
      progressTrace := progressTrace + [100.0];
      processing := false;
    }

    /** The `for` loop of `processFiles`, from the reset state to the last file. */
    method ProcessQueue(classify: UploadedFile -> Reply<Analysis>, generate: UploadedFile -> Reply<PromptFields>)
      returns (currentStep: nat)
      requires files != []
      requires results == [] && totalTokens == 0 && progressTrace == [0.0]
      modifies this`progress, this`progressTrace, this`results, this`totalTokens
      ensures results == RunResults(files, classify, generate)
      ensures totalTokens == RunTokens(files, classify, generate)
      ensures currentStep == RunSteps(files, classify, generate)
      ensures progressTrace == [0.0] + ProgressMarks(currentStep, 3 * |files|)
      ensures progress == ProgressAt(currentStep - 1, 3 * |files|)
    {
      var queue := files;
      var totalSteps := |queue| * 3;
      currentStep := 0;
      for i := 0 to |queue|
        invariant results == RunResults(queue[..i], classify, generate)
        invariant totalTokens == RunTokens(queue[..i], classify, generate)
        invariant currentStep == RunSteps(queue[..i], classify, generate) && currentStep <= 3 * i
        invariant progressTrace == [0.0] + ProgressMarks(currentStep, totalSteps)
        invariant i <= currentStep && (i > 0 ==> progress == ProgressAt(currentStep - 1, totalSteps))
      {
        RunSnoc(queue, i, classify, generate);
        var nextStep := ProcessItem(queue[i], currentStep, totalSteps, classify, generate);
        ProgressMarksPrefix(currentStep, nextStep, totalSteps);
        assert [0.0] + ProgressMarks(nextStep, totalSteps)
            == [0.0] + ProgressMarks(currentStep, totalSteps) + ProgressMarks(nextStep, totalSteps)[currentStep..];
        currentStep := nextStep;
      }
      assert queue[..|queue|] == queue;
    }

    /**
     * The body of the `processFiles` loop for one queue item: extract, then
     * filter if there were images, then generate if any image was kept,
     * setting the progress before each stage and counting each stage done.
     */
    method ProcessItem(fileItem: QueueItem, currentStep: nat, totalSteps: nat,
                       classify: UploadedFile -> Reply<Analysis>, generate: UploadedFile -> Reply<PromptFields>)
      returns (nextStep: nat)
      requires currentStep + 3 <= totalSteps
      modifies this`progress, this`progressTrace, this`results, this`totalTokens
      ensures currentStep < nextStep <= currentStep + 3
      ensures progress == ProgressAt(nextStep - 1, totalSteps)
      ensures var outcome := ProcessOne(fileItem, classify, generate);
        && results == old(results) + (match outcome.result case Some(r) => [r] case None => [])
        && totalTokens == old(totalTokens) + outcome.tokens
        && nextStep == currentStep + outcome.steps
        && progressTrace == old(progressTrace) + ProgressMarks(nextStep, totalSteps)[currentStep..]
    {
      // Step 1: extract images
      SetProgress(currentStep, totalSteps);
      var images := ExtractImages(fileItem.file);
      nextStep := currentStep + 1;
      if |images| == 0 {
        return;
      }

      // Step 2: keep the meaningful ones
      SetProgress(nextStep, totalSteps);
      var meaningfulImages, classifyTokens := FilterMeaningfulImages(images, classify);
      totalTokens := totalTokens + classifyTokens;
      nextStep := nextStep + 1;
      if |meaningfulImages| == 0 {
        return;
      }

      // Step 3: generate prompts
      SetProgress(nextStep, totalSteps);
      var prompts, generateTokens := GeneratePrompts(meaningfulImages, generate);
      totalTokens := totalTokens + generateTokens;
      nextStep := nextStep + 1;
      results := results + [FileResult(fileItem.file.name, meaningfulImages, prompts)];
    }

    /** `setProgress((currentStep / totalSteps) * 100)` */
    method SetProgress(currentStep: nat, totalSteps: nat)
      requires currentStep < totalSteps
      modifies this`progress, this`progressTrace
      ensures 0.0 <= progress <= 100.0
      ensures progress == ProgressAt(currentStep, totalSteps)
      ensures progressTrace == old(progressTrace) + [progress]
    {
      ProgressAtBounds(currentStep, currentStep, totalSteps);
      progress := ProgressAt(currentStep, totalSteps);
      progressTrace := progressTrace + [progress];
    }
  }
}
