/**
 * The three per-file stages of src/App.js: `extractImages`,
 * `filterMeaningfulImages` (fail-open) and `generatePrompts` (fail-skip).
 * Each remote call is an oracle from the image to how its call ends; the
 * tokens an ok answer reports are returned for the caller to add.
 */
module Stages {
  import opened Options
  import opened Seqs
  import opened Strings
  import opened Remote
  import opened Domain
  import Intake

  // ---------------------------------------------------------------- extraction

  /** `extractImages(fileItem)`: an image is its own single image; PDFs and anything else yield none. */
  function ExtractImages(file: UploadedFile): (images: seq<UploadedFile>)
    ensures |images| <= 1
    ensures images != [] <==> StartsWith(file.mediaType, "image/")
    ensures forall image :: image in images ==> image == file
  {
    if StartsWith(file.mediaType, "image/") then [file]
    else if file.mediaType == "application/pdf" then []
    else []
  }

  /** For a file intake accepted, extraction yields nothing exactly when it is a PDF. */
  lemma QueuedFileExtraction(file: UploadedFile)
    requires Intake.Accepts(file)
    ensures ExtractImages(file) == [] <==> file.mediaType == "application/pdf"
  {
    assert "image/jpeg"[..6] == "image/" && "image/png"[..6] == "image/";
    assert "image/gif"[..6] == "image/" && "image/webp"[..6] == "image/";
    assert "application/pdf"[0] == 'a';
  }

  // ---------------------------------------------------------------- filtering

  /** The strict confidence bound a classification must exceed. */
  const ConfidenceThreshold: real := 0.6

  /** The analysis attached to an image whose classification failed. */
  const FallbackAnalysis: Analysis := Analysis(true, "Analysis failed, included by default", 0.5, "unknown")

  /** `result.meaningful && result.confidence > 0.6` */
  predicate Qualifies(analysis: Analysis)
  {
    analysis.meaningful && analysis.confidence > ConfidenceThreshold
  }

  /** One iteration of `filterMeaningfulImages`: keep a qualifying image, skip the rest, keep on any error. */
  function ClassifyOne(image: UploadedFile, reply: Reply<Analysis>): (kept: Option<KeptImage>)
    ensures kept.Some? ==> kept.value.file == image
    ensures kept.None? <==> Parsed(reply) && !Qualifies(reply.content.value)
    ensures kept.Some? ==> Qualifies(kept.value.analysis) || kept.value.analysis == FallbackAnalysis
  {
    match reply
    case Answered(_, Some(analysis)) =>
      if Qualifies(analysis) then Some(KeptImage(image, analysis)) else None
    case _ => Some(KeptImage(image, FallbackAnalysis))
  }

  function ClassifyStep(classify: UploadedFile -> Reply<Analysis>): UploadedFile -> Option<KeptImage>
  {
    (image: UploadedFile) => ClassifyOne(image, classify(image))
  }

  /** What `filterMeaningfulImages(images)` returns. */
  function FilterSpec(images: seq<UploadedFile>, classify: UploadedFile -> Reply<Analysis>): (meaningfulImages: seq<KeptImage>)
    ensures |meaningfulImages| <= |images|
    ensures forall k :: 0 <= k < |meaningfulImages| ==>
      Qualifies(meaningfulImages[k].analysis) || meaningfulImages[k].analysis == FallbackAnalysis
  {
    FilterMapAll(ClassifyStep(classify), images,
                 (kept: KeptImage) => Qualifies(kept.analysis) || kept.analysis == FallbackAnalysis);
    FilterMap(ClassifyStep(classify), images)
  }

  /** The tokens its calls add: one call per image. */
  function ClassifyTokens(images: seq<UploadedFile>, classify: UploadedFile -> Reply<Analysis>): nat
  {
    Sum((image: UploadedFile) => TokensOf(classify(image)), images)
  }

  /** `filterMeaningfulImages(images)`, one classification call per image, in order. */
  method FilterMeaningfulImages(images: seq<UploadedFile>, classify: UploadedFile -> Reply<Analysis>)
    returns (meaningfulImages: seq<KeptImage>, tokens: nat)
    ensures meaningfulImages == FilterSpec(images, classify)
    ensures tokens == ClassifyTokens(images, classify)
  {
    meaningfulImages, tokens := [], 0;
    for i := 0 to |images|
      invariant meaningfulImages == FilterSpec(images[..i], classify)
      invariant tokens == ClassifyTokens(images[..i], classify)
    {
      var image := images[i];
      var reply := classify(image);
      tokens := tokens + TokensOf(reply);
      match reply {
        case Answered(_, Some(analysis)) =>
          if analysis.meaningful && analysis.confidence > ConfidenceThreshold {
            meaningfulImages := meaningfulImages + [KeptImage(image, analysis)];
          }
        case _ =>
          meaningfulImages := meaningfulImages + [KeptImage(image, FallbackAnalysis)];
      }
      assert images[..i + 1] == images[..i] + [image];
      FilterMapAppend(ClassifyStep(classify), images[..i], [image]);
      SumAppend((image: UploadedFile) => TokensOf(classify(image)), images[..i], [image]);
    }
    assert images[..|images|] == images;
  }

  /** The kept entries carry their images in input order, one entry at most per image. */
  lemma FilterKeepsOrder(images: seq<UploadedFile>, classify: UploadedFile -> Reply<Analysis>)
    ensures |FilterSpec(images, classify)| <= |images|
    ensures IsSubsequence(Map((kept: KeptImage) => kept.file, FilterSpec(images, classify)), images)
  {
    var identity := (image: UploadedFile) => image;
    FilterMapOrder(ClassifyStep(classify), images, (kept: KeptImage) => kept.file, identity);
    assert Map(identity, images) == images;
  }

  /**
   * The decision for one image: after a parsed classification it is kept
   * with that analysis iff the analysis is meaningful with confidence above
   * 0.6; after any failure it is kept with the fallback analysis.
   */
  lemma FilterDecision(image: UploadedFile, classify: UploadedFile -> Reply<Analysis>)
    ensures Parsed(classify(image)) ==>
      var analysis := classify(image).content.value;
      && (FilterSpec([image], classify) != [] <==> analysis.meaningful && analysis.confidence > 0.6)
      && (FilterSpec([image], classify) != [] ==> FilterSpec([image], classify) == [KeptImage(image, analysis)])
    ensures !Parsed(classify(image)) ==> FilterSpec([image], classify) == [KeptImage(image, FallbackAnalysis)]
  {
    FilterMapSingle(ClassifyStep(classify), image);
  }

  /** A confidence of exactly 0.6 is not enough. */
  lemma ThresholdIsStrict(image: UploadedFile, classify: UploadedFile -> Reply<Analysis>)
    requires Parsed(classify(image)) && classify(image).content.value.meaningful
    requires classify(image).content.value.confidence == 0.6
    ensures FilterSpec([image], classify) == []
  {
    FilterMapSingle(ClassifyStep(classify), image);
  }

  /**
   * Every kept entry is justified by its own call: its analysis is the
   * fallback exactly when that call failed, and otherwise it is the parsed,
   * qualifying reply.
   */
  lemma KeptEntriesJustified(images: seq<UploadedFile>, classify: UploadedFile -> Reply<Analysis>, kept: KeptImage)
    requires kept in FilterSpec(images, classify)
    ensures kept.file in images
    ensures kept.analysis == FallbackAnalysis <==> !Parsed(classify(kept.file))
    ensures Parsed(classify(kept.file)) ==>
      kept.analysis == classify(kept.file).content.value && Qualifies(kept.analysis)
  {
    FilterMapSource(ClassifyStep(classify), images, kept);
  }

  /**
   * Every image is kept unless its own parsed reply rejected it, whatever
   * happens to the other images: a failed call keeps it with the fallback
   * analysis, a qualifying reply keeps it with that analysis.
   */
  lemma FilterKeepsEach(images: seq<UploadedFile>, classify: UploadedFile -> Reply<Analysis>, k: nat)
    requires k < |images|
    ensures !Parsed(classify(images[k])) ==> KeptImage(images[k], FallbackAnalysis) in FilterSpec(images, classify)
    ensures Parsed(classify(images[k])) && Qualifies(classify(images[k]).content.value) ==>
      KeptImage(images[k], classify(images[k]).content.value) in FilterSpec(images, classify)
    ensures Parsed(classify(images[k])) && !Qualifies(classify(images[k]).content.value) ==>
      forall kept :: kept in FilterSpec(images, classify) ==> kept.file != images[k]
  {
    if ClassifyStep(classify)(images[k]).Some? {
      FilterMapComplete(ClassifyStep(classify), images, k);
    } else {
      forall kept | kept in FilterSpec(images, classify) ensures kept.file != images[k] {
        FilterMapSource(ClassifyStep(classify), images, kept);
      }
    }
  }

  /**
   * Fail-open: no image is lost unless a parsed reply rejected it. In
   * particular, when every call fails every image is kept, with the fallback
   * analysis.
   */
  lemma FilterFailOpen(images: seq<UploadedFile>, classify: UploadedFile -> Reply<Analysis>)
    ensures |FilterSpec(images, classify)| == |images|
        <==> forall k :: 0 <= k < |images| && Parsed(classify(images[k])) ==> Qualifies(classify(images[k]).content.value)
    ensures (forall k :: 0 <= k < |images| ==> !Parsed(classify(images[k]))) ==>
      FilterSpec(images, classify) == Map((image: UploadedFile) => KeptImage(image, FallbackAnalysis), images)
  {
    FilterMapLength(ClassifyStep(classify), images);
    if forall k :: 0 <= k < |images| ==> !Parsed(classify(images[k])) {
      AllFailedKeepsAll(images, classify);
    }
  }

  lemma {:induction false} AllFailedKeepsAll(images: seq<UploadedFile>, classify: UploadedFile -> Reply<Analysis>)
    requires forall k :: 0 <= k < |images| ==> !Parsed(classify(images[k]))
    ensures FilterSpec(images, classify) == Map((image: UploadedFile) => KeptImage(image, FallbackAnalysis), images)
  {
    if images != [] {
      AllFailedKeepsAll(images[1..], classify);
      assert !Parsed(classify(images[0]));
    }
  }

  /**
   * An ok answer is charged even when its content does not parse: the image
   * is then kept with the fallback analysis, and its tokens still count.
   */
  lemma ChargedEvenWhenUnparsed(image: UploadedFile, tokens: nat, classify: UploadedFile -> Reply<Analysis>)
    requires classify(image) == Answered(Some(tokens), None)
    ensures FilterSpec([image], classify) == [KeptImage(image, FallbackAnalysis)]
    ensures ClassifyTokens([image], classify) == tokens
  {
    FilterMapSingle(ClassifyStep(classify), image);
    assert ClassifyTokens([image], classify) == tokens + ClassifyTokens([], classify);
  }

  /** Calls that fail before an ok answer add no tokens. */
  lemma {:induction false} FailedCallsAreFree(images: seq<UploadedFile>, classify: UploadedFile -> Reply<Analysis>)
    requires forall k :: 0 <= k < |images| ==> classify(images[k]).Failed?
    ensures ClassifyTokens(images, classify) == 0
  {
    if images != [] {
      assert classify(images[0]).Failed?;
      FailedCallsAreFree(images[1..], classify);
    }
  }

  // ---------------------------------------------------------------- generation

  /** One iteration of `generatePrompts`: a parsed reply becomes a record; any error skips the image. */
  function GenerateOne(kept: KeptImage, reply: Reply<PromptFields>): (record: Option<PromptRecord>)
    ensures record.Some? <==> Parsed(reply)
    ensures record.Some? ==>
      record.value.image == kept.file && record.value.analysis == kept.analysis && record.value.fields == reply.content.value
  {
    match reply
    case Answered(_, Some(fields)) => Some(PromptRecord(kept.file, kept.analysis, fields))
    case _ => None
  }

  function GenerateStep(generate: UploadedFile -> Reply<PromptFields>): KeptImage -> Option<PromptRecord>
  {
    (kept: KeptImage) => GenerateOne(kept, generate(kept.file))
  }

  lemma GenerateStepFromReply(generate: UploadedFile -> Reply<PromptFields>)
    ensures forall kept :: GenerateStep(generate)(kept).Some? ==>
      var record := GenerateStep(generate)(kept).value;
      Parsed(generate(record.image)) && generate(record.image).content.value == record.fields
  {
    forall kept | GenerateStep(generate)(kept).Some?
      ensures var record := GenerateStep(generate)(kept).value;
        Parsed(generate(record.image)) && generate(record.image).content.value == record.fields
    {
      assert GenerateStep(generate)(kept) == GenerateOne(kept, generate(kept.file));
    }
  }

  /** What `generatePrompts(meaningfulImages)` returns. */
  function GenerateSpec(meaningfulImages: seq<KeptImage>, generate: UploadedFile -> Reply<PromptFields>): (prompts: seq<PromptRecord>)
    ensures |prompts| <= |meaningfulImages|
    ensures forall k :: 0 <= k < |prompts| ==>
      Parsed(generate(prompts[k].image)) && generate(prompts[k].image).content.value == prompts[k].fields
  {
    GenerateStepFromReply(generate);
    FilterMapAll(GenerateStep(generate), meaningfulImages,
                 (r: PromptRecord) => Parsed(generate(r.image)) && generate(r.image).content.value == r.fields);
    FilterMap(GenerateStep(generate), meaningfulImages)
  }

  /** The tokens its calls add: one call per kept image. */
  function GenerateTokens(meaningfulImages: seq<KeptImage>, generate: UploadedFile -> Reply<PromptFields>): nat
  {
    Sum((kept: KeptImage) => TokensOf(generate(kept.file)), meaningfulImages)
  }

  /** `generatePrompts(meaningfulImages)`, one generation call per kept image, in order. */
  method GeneratePrompts(meaningfulImages: seq<KeptImage>, generate: UploadedFile -> Reply<PromptFields>)
    returns (prompts: seq<PromptRecord>, tokens: nat)
    ensures prompts == GenerateSpec(meaningfulImages, generate)
    ensures tokens == GenerateTokens(meaningfulImages, generate)
  {
    prompts, tokens := [], 0;
    for i := 0 to |meaningfulImages|
      invariant prompts == GenerateSpec(meaningfulImages[..i], generate)
      invariant tokens == GenerateTokens(meaningfulImages[..i], generate)
    {
      var imageData := meaningfulImages[i];
      var reply := generate(imageData.file);
      tokens := tokens + TokensOf(reply);
      if reply.Answered? && reply.content.Some? {
        prompts := prompts + [PromptRecord(imageData.file, imageData.analysis, reply.content.value)];
      }
      assert meaningfulImages[..i + 1] == meaningfulImages[..i] + [imageData];
      FilterMapAppend(GenerateStep(generate), meaningfulImages[..i], [imageData]);
      SumAppend((kept: KeptImage) => TokensOf(generate(kept.file)), meaningfulImages[..i], [imageData]);
    }
    assert meaningfulImages[..|meaningfulImages|] == meaningfulImages;
  }

  /**
   * Fail-skip: each record keeps its source image and analysis, records
   * follow the input order, and nothing is padded, so there is one record
   * per input exactly when every call parsed.
   */
  lemma GenerateFailSkip(meaningfulImages: seq<KeptImage>, generate: UploadedFile -> Reply<PromptFields>)
    ensures IsSubsequence(Map((r: PromptRecord) => KeptImage(r.image, r.analysis), GenerateSpec(meaningfulImages, generate)),
                          meaningfulImages)
    ensures |GenerateSpec(meaningfulImages, generate)| <= |meaningfulImages|
    ensures |GenerateSpec(meaningfulImages, generate)| == |meaningfulImages|
        <==> forall k :: 0 <= k < |meaningfulImages| ==> Parsed(generate(meaningfulImages[k].file))
  {
    var identity := (kept: KeptImage) => kept;
    assert forall kept :: GenerateStep(generate)(kept).Some? ==>
      KeptImage(GenerateStep(generate)(kept).value.image, GenerateStep(generate)(kept).value.analysis) == identity(kept);
    FilterMapOrder(GenerateStep(generate), meaningfulImages, (r: PromptRecord) => KeptImage(r.image, r.analysis), identity);
    assert Map(identity, meaningfulImages) == meaningfulImages;
    FilterMapLength(GenerateStep(generate), meaningfulImages);
  }

  /** Every kept image whose generation call parsed gets its record, whatever the other calls did. */
  lemma GenerateKeepsParsed(meaningfulImages: seq<KeptImage>, generate: UploadedFile -> Reply<PromptFields>, k: nat)
    requires k < |meaningfulImages| && Parsed(generate(meaningfulImages[k].file))
    ensures PromptRecord(meaningfulImages[k].file, meaningfulImages[k].analysis, generate(meaningfulImages[k].file).content.value)
         in GenerateSpec(meaningfulImages, generate)
  {
    FilterMapComplete(GenerateStep(generate), meaningfulImages, k);
  }

  /** Every record holds the fields its own call returned. */
  lemma RecordsFromOwnReply(meaningfulImages: seq<KeptImage>, generate: UploadedFile -> Reply<PromptFields>, record: PromptRecord)
    requires record in GenerateSpec(meaningfulImages, generate)
    ensures KeptImage(record.image, record.analysis) in meaningfulImages
    ensures Parsed(generate(record.image)) && generate(record.image).content.value == record.fields
  {
    FilterMapSource(GenerateStep(generate), meaningfulImages, record);
    var k :| 0 <= k < |meaningfulImages| && GenerateStep(generate)(meaningfulImages[k]) == Some(record);
    assert GenerateOne(meaningfulImages[k], generate(meaningfulImages[k].file)) == Some(record);
    assert meaningfulImages[k] == KeptImage(record.image, record.analysis);
  }

  /** The same failure keeps an image at the filter and drops it at the generator. */
  lemma FailOpenVersusFailSkip(image: UploadedFile, analysis: Analysis, message: string,
                               classify: UploadedFile -> Reply<Analysis>, generate: UploadedFile -> Reply<PromptFields>)
    requires classify(image) == Failed(message) && generate(image) == Failed(message)
    ensures FilterSpec([image], classify) == [KeptImage(image, FallbackAnalysis)]
    ensures GenerateSpec([KeptImage(image, analysis)], generate) == []
  {
    FilterMapSingle(ClassifyStep(classify), image);
    FilterMapSingle(GenerateStep(generate), KeptImage(image, analysis));
  }
}
