/**
 * The HEIC conversion of `convertAndDisplayHeic` (script.js): a size guard,
 * three decoding strategies tried in a fixed order, the choice of the error
 * to raise when all of them fail, and the classification of that error into
 * the alert the user sees.
 *
 * The strategies themselves (two calls of the `heic2any` library, and the
 * browser's own decoder) are not modelled: each is an outcome given to the
 * chain.
 */
module HeicDecode {
  import opened Wrappers
  import opened Text
  import opened Media
  import Naming

  /** The size guard: 15 MiB. */
  const MaxHeicSize: nat := 15 * 1024 * 1024

  // The guard's error message. It is one string literal in the source; it
  // is written here as five literals, none longer than 26 characters, so that
  // the verifier can inspect each of them.
  const TooLargeOpening := "File too large. "
  const TooLargeSubject := "HEIC files larger than 15M"
  const TooLargeReason := "B are not supported."
  const TooLargeAdvice := " Please use a smaller "
  const TooLargeAdviceEnd := "image or convert manually."
  const TooLargeMessage := (TooLargeOpening + TooLargeSubject) + TooLargeReason + (TooLargeAdvice + TooLargeAdviceEnd)

  /** The message thrown when a library is not present on the page. */
  const LibraryMissingMessage := "Library not available"

  /** The marker error raised for an unsupported HEIC variant. */
  const FormatNotSupportedMessage := "HEIC_FORMAT_NOT_SUPPORTED"

  /** The message of the TypeError raised by reading `.type` of `undefined` (its V8 wording). */
  const EmptyResultMessage := EmptyResultStart + EmptyResultEnd
  const EmptyResultStart := "Cannot read properties "
  const EmptyResultEnd := "of undefined (reading 'type')"

  /** What a library call resolves to: one blob, or an array of blobs. */
  datatype Decoded = Single(blob: Blob) | Several(blobs: seq<Blob>)

  /** The outcome of a library strategy: a result, the library absent, or a thrown error. */
  datatype LibraryOutcome = Converted(result: Decoded) | NotLoaded | Threw(message: string)

  /** The outcome of `tryBrowserHeicDecoding`: a JPEG blob, or a rejection (decode error or timeout). */
  datatype BrowserOutcome = Loaded(blob: Blob) | Rejected(message: string)

  /** The outcomes the three strategies would have for the file at hand. */
  datatype Strategies = Strategies(alexcorvi: LibraryOutcome, original: LibraryOutcome, browser: BrowserOutcome)

  /** The strategies, by the `conversionMethod` name the source records. */
  datatype ConversionMethod = Alexcorvi | Original | Browser

  datatype ChainResult = ChainSucceeded(conversionMethod: ConversionMethod, result: Decoded) | ChainFailed(message: string)

  /** The position of a strategy in the chain. */
  function Rank(m: ConversionMethod): nat
  {
    match m
    case Alexcorvi => 1
    case Original => 2
    case Browser => 3
  }

  predicate Succeeds(s: Strategies, m: ConversionMethod)
  {
    match m
    case Alexcorvi => s.alexcorvi.Converted?
    case Original => s.original.Converted?
    case Browser => s.browser.Loaded?
  }

  /** What a strategy that succeeds hands on. */
  function Output(s: Strategies, m: ConversionMethod): Decoded
    requires Succeeds(s, m)
  {
    match m
    case Alexcorvi => s.alexcorvi.result
    case Original => s.original.result
    case Browser => Single(s.browser.blob)
  }

  /** The message of a failed library strategy; an absent library throws `Library not available`. */
  function ErrorMessage(o: LibraryOutcome): (message: string)
    requires !o.Converted?
    ensures o.Threw? ==> message == o.message
    ensures o.NotLoaded? ==> message == LibraryMissingMessage && |message| > 0
  {
    match o
    case NotLoaded => LibraryMissingMessage
    case Threw(message) => message
  }

  /**
   * The nested try/catch chain. The first strategy that succeeds wins and
   * those after it are not tried; when all three fail, the error raised is
   * the second strategy's own, or the marker error when its message
   * mentions `format not supported`.
   */
  function RunStrategies(s: Strategies): (r: ChainResult)
    ensures r.ChainSucceeded? <==> exists m :: Succeeds(s, m)
    ensures r.ChainSucceeded? ==> Succeeds(s, r.conversionMethod) && r.result == Output(s, r.conversionMethod)
    ensures r.ChainSucceeded? ==> forall m :: Rank(m) < Rank(r.conversionMethod) ==> !Succeeds(s, m)
    ensures r.ChainFailed? ==> !s.original.Converted?
    ensures r.ChainFailed? ==>
      r.message == if Contains(ErrorMessage(s.original), "format not supported")
                   then FormatNotSupportedMessage else ErrorMessage(s.original)
  {
    if s.alexcorvi.Converted? then
      assert Succeeds(s, Alexcorvi);
      ChainSucceeded(Alexcorvi, s.alexcorvi.result)
    else if s.original.Converted? then
      assert Succeeds(s, Original);
      ChainSucceeded(Original, s.original.result)
    else if s.browser.Loaded? then
      assert Succeeds(s, Browser);
      ChainSucceeded(Browser, Single(s.browser.blob))
    else
      var originalMessage := ErrorMessage(s.original);
      if |originalMessage| > 0 && Contains(originalMessage, "format not supported") then
        ChainFailed(FormatNotSupportedMessage)
      else
        ChainFailed(originalMessage)
  }

  /** `if (Array.isArray(convertedBlob)) convertedBlob = convertedBlob[0]`; an empty array leaves nothing. */
  function FirstBlob(d: Decoded): (first: Option<Blob>)
    ensures first.None? <==> d == Several([])
    ensures d.Single? ==> first == Some(d.blob)
    ensures d.Several? && |d.blobs| > 0 ==> first == Some(d.blobs[0])
  {
    match d
    case Single(b) => Some(b)
    case Several(bs) => if |bs| > 0 then Some(bs[0]) else None
  }

  /**
   * The conversion up to the new `File`: the size guard, the chain, the
   * array unwrapping and the rename. A failure carries the message of the
   * error that reaches the outer `catch`.
   */
  function Convert(file: File, s: Strategies): (r: Result<File, string>)
    // over the limit: refused before any strategy runs
    ensures file.size > MaxHeicSize ==> r == Failure(TooLargeMessage)
    // within the limit: the chain's error, when every strategy fails
    ensures file.size <= MaxHeicSize && RunStrategies(s).ChainFailed? ==> r == Failure(RunStrategies(s).message)
    // within the limit: the TypeError, when the winning strategy hands on an empty array
    ensures file.size <= MaxHeicSize && RunStrategies(s).ChainSucceeded? && FirstBlob(RunStrategies(s).result).None? ==>
      r == Failure(EmptyResultMessage)
    // within the limit: a file made from the winning strategy's (first) blob, otherwise
    ensures file.size <= MaxHeicSize && RunStrategies(s).ChainSucceeded? && FirstBlob(RunStrategies(s).result).Some? ==>
      r.Success? && Blob(r.value.mimeType, r.value.size) == FirstBlob(RunStrategies(s).result).value
    ensures r.Success? ==>
      && file.size <= MaxHeicSize
      && RunStrategies(s).ChainSucceeded?
      && FirstBlob(Output(s, RunStrategies(s).conversionMethod)) == Some(Blob(r.value.mimeType, r.value.size))
      && r.value.name == Naming.ConvertedName(file.name, r.value.mimeType)
  {
    if file.size > MaxHeicSize then
      Failure(TooLargeMessage)
    else
      match RunStrategies(s)
      case ChainFailed(message) => Failure(message)
      case ChainSucceeded(_, result) =>
        match FirstBlob(result)
        case None => Failure(EmptyResultMessage)
        case Some(blob) => Success(File(Naming.ConvertedName(file.name, blob.mimeType), blob.mimeType, blob.size))
  }

  /** The alerts of the outer `catch`, in the order they are tested. */
  datatype Alert =
    | FormatVariantUnsupported      // the remediation message
    | LibraryLoadFailure            // "library failed to load"
    | NetworkFailure                // "network error while loading resources"
    | TooLargeAlert(message: string)      // the error's own message
    | ConversionFailure(message: string)  // "Failed to convert HEIC file: <message> ..."

  /** The ordered checks on `error.message` in the outer `catch`. */
  function Classify(message: string): (a: Alert)
    ensures a == FormatVariantUnsupported <==> message == FormatNotSupportedMessage
    ensures a == LibraryLoadFailure <==> message != FormatNotSupportedMessage && Contains(message, "not loaded")
    ensures a == NetworkFailure <==>
      message != FormatNotSupportedMessage && !Contains(message, "not loaded") && Contains(message, "fetch")
    ensures a.TooLargeAlert? <==>
      message != FormatNotSupportedMessage && !Contains(message, "not loaded") && !Contains(message, "fetch")
      && Contains(message, "too large")
    ensures a.TooLargeAlert? || a.ConversionFailure? ==> a.message == message
  {
    if message == FormatNotSupportedMessage then FormatVariantUnsupported
    else if Contains(message, "not loaded") then LibraryLoadFailure
    else if Contains(message, "fetch") then NetworkFailure
    else if Contains(message, "too large") then TooLargeAlert(message)
    else ConversionFailure(message)
  }

  /** How a HEIC conversion ends: the converted file is shown, or an alert is raised (and the session reset). */
  datatype HeicOutcome = Shown(file: File) | Alerted(alert: Alert)

  /**
   * The whole of `convertAndDisplayHeic`: the converted file is shown exactly
   * when the file is within the limit and the winning strategy hands on a
   * blob; an oversized file raises the "too large" alert; a failed chain is
   * classified by its error.
   */
  function ConvertAndClassify(file: File, s: Strategies): (outcome: HeicOutcome)
    ensures outcome.Shown? <==>
      file.size <= MaxHeicSize && RunStrategies(s).ChainSucceeded? && FirstBlob(RunStrategies(s).result).Some?
    ensures file.size > MaxHeicSize ==> outcome == Alerted(TooLargeAlert(TooLargeMessage))
    ensures file.size <= MaxHeicSize && RunStrategies(s).ChainFailed? ==>
      outcome == Alerted(Classify(RunStrategies(s).message))
    // the file shown is the renamed file made from the winning strategy's first blob
    ensures outcome.Shown? ==>
      var blob := FirstBlob(RunStrategies(s).result).value;
      outcome.file == File(Naming.ConvertedName(file.name, blob.mimeType), blob.mimeType, blob.size)
    // an empty array from whichever strategy wins ends in the generic alert
    ensures file.size <= MaxHeicSize && RunStrategies(s).ChainSucceeded? && FirstBlob(RunStrategies(s).result).None? ==>
      outcome == Alerted(ConversionFailure(EmptyResultMessage))
  {
    TooLargeMessageIsClassifiedTooLarge();
    OtherMessagesAreClassifiedGeneric();
    match Convert(file, s)
    case Success(converted) => Shown(converted)
    case Failure(message) => Alerted(Classify(message))
  }

  /** The guard's message is classified as "too large": it mentions neither `not loaded` nor `fetch`. */
  lemma TooLargeMessageIsClassifiedTooLarge()
    ensures Classify(TooLargeMessage) == TooLargeAlert(TooLargeMessage)
  {
    assert TooLargeMessage[0] == TooLargeOpening[0] != FormatNotSupportedMessage[0];
    TooLargeMessageLacksNotLoaded();
    TooLargeMessageLacksFetch();
    TooLargeMessageMentionsTooLarge();
  }

  // "not loaded" needs a 'd', absent from the first and last parts, and an
  // 'l', absent from the reason; no occurrence can straddle a join.
  lemma TooLargeMessageLacksNotLoaded()
    ensures !Contains(TooLargeMessage, "not loaded")
  {
    var first := TooLargeOpening + TooLargeSubject;
    var last := TooLargeAdvice + TooLargeAdviceEnd;
    AbsentCharExcludes(first, "not loaded", 7);
    AbsentCharExcludes(TooLargeReason, "not loaded", 4);
    AbsentCharExcludes(last, "not loaded", 7);
    ContainsAcrossJoin(first, TooLargeReason, "not loaded");
    ContainsAcrossJoin(first + TooLargeReason, last, "not loaded");
  }

  // "fetch" needs a 'c', absent from the first part, and an 'f', absent from the rest.
  lemma TooLargeMessageLacksFetch()
    ensures !Contains(TooLargeMessage, "fetch")
  {
    var first := TooLargeOpening + TooLargeSubject;
    var last := TooLargeAdvice + TooLargeAdviceEnd;
    AbsentCharExcludes(first, "fetch", 3);
    AbsentCharExcludes(TooLargeReason, "fetch", 0);
    AbsentCharExcludes(last, "fetch", 0);
    ContainsAcrossJoin(first, TooLargeReason, "fetch");
    ContainsAcrossJoin(first + TooLargeReason, last, "fetch");
  }

  lemma TooLargeMessageMentionsTooLarge()
    ensures Contains(TooLargeMessage, "too large")
  {
    var first := TooLargeOpening + TooLargeSubject;
    assert OccursAt(TooLargeOpening, "too large", 5);
    ContainsInPrefix(TooLargeOpening, TooLargeSubject, "too large");
    ContainsInPrefix(first, TooLargeReason, "too large");
    ContainsInPrefix(first + TooLargeReason, TooLargeAdvice + TooLargeAdviceEnd, "too large");
  }

  /** Neither the missing-library message nor the empty-result TypeError matches a specific alert. */
  lemma OtherMessagesAreClassifiedGeneric()
    ensures Classify(LibraryMissingMessage) == ConversionFailure(LibraryMissingMessage)
    ensures Classify(EmptyResultMessage) == ConversionFailure(EmptyResultMessage)
  {
    assert LibraryMissingMessage[0] != FormatNotSupportedMessage[0];
    AbsentCharExcludes(LibraryMissingMessage, "not loaded", 7);
    AbsentCharExcludes(LibraryMissingMessage, "fetch", 0);
    AbsentCharExcludes(LibraryMissingMessage, "too large", 7);
    assert EmptyResultMessage[0] == EmptyResultStart[0] != FormatNotSupportedMessage[0];
    AbsentCharExcludes(EmptyResultMessage, "not loaded", 4);
    AbsentCharExcludes(EmptyResultMessage, "fetch", 4);
    AbsentCharExcludes(EmptyResultMessage, "too large", 4);
  }

  /**
   * A file over 15 MiB is refused before any strategy is consulted: the
   * outcome does not depend on the strategies, and the user sees the
   * "too large" alert.
   */
  lemma OversizedFileSkipsStrategies(file: File, s: Strategies, s': Strategies)
    requires file.size > MaxHeicSize
    ensures Convert(file, s) == Convert(file, s') == Failure(TooLargeMessage)
    ensures ConvertAndClassify(file, s) == Alerted(TooLargeAlert(TooLargeMessage))
  {
    TooLargeMessageIsClassifiedTooLarge();
  }

  /**
   * A file of exactly 15 MiB passes the guard: whatever the strategies do,
   * it is treated like an empty file of the same name, and it is shown
   * whenever the winning strategy hands on a blob.
   */
  lemma ExactLimitPassesGuard(file: File, s: Strategies)
    requires file.size == MaxHeicSize
    ensures Convert(file, s) == Convert(File(file.name, file.mimeType, 0), s)
    ensures RunStrategies(s).ChainSucceeded? && FirstBlob(RunStrategies(s).result).Some? ==>
      ConvertAndClassify(file, s)
      == Shown(File(Naming.ConvertedName(file.name, FirstBlob(RunStrategies(s).result).value.mimeType),
                    FirstBlob(RunStrategies(s).result).value.mimeType, FirstBlob(RunStrategies(s).result).value.size))
  {
  }

  /** Once a strategy succeeds, the strategies after it have no influence on the result. */
  lemma LaterStrategiesNotConsulted(s: Strategies, s': Strategies)
    requires
      || (s.alexcorvi.Converted? && s'.alexcorvi == s.alexcorvi)
      || (!s.alexcorvi.Converted? && !s'.alexcorvi.Converted? && s.original.Converted? && s'.original == s.original)
    ensures RunStrategies(s) == RunStrategies(s')
  {
  }

  /** When every strategy fails, only the second strategy's error matters; the first and third are discarded. */
  lemma OnlySecondErrorMatters(s: Strategies, s': Strategies)
    requires forall m :: !Succeeds(s, m) && !Succeeds(s', m)
    requires s.original == s'.original
    ensures RunStrategies(s) == RunStrategies(s')
  {
    assert !Succeeds(s, Alexcorvi) && !Succeeds(s, Original) && !Succeeds(s, Browser);
    assert !Succeeds(s', Alexcorvi) && !Succeeds(s', Original) && !Succeeds(s', Browser);
  }

  /**
   * Strategy 1 throws, strategy 2's error mentions an unsupported format
   * and the browser fails or times out: the remediation message is shown.
   */
  lemma UnsupportedVariantScenario(file: File, firstMessage: string, secondMessage: string, browserMessage: string)
    requires file.size <= MaxHeicSize && Contains(secondMessage, "format not supported")
    ensures ConvertAndClassify(file, Strategies(Threw(firstMessage), Threw(secondMessage), Rejected(browserMessage)))
         == Alerted(FormatVariantUnsupported)
  {
  }

  /**
   * With neither library on the page and the browser unable to decode, the
   * raised error is `Library not available`, which the classification
   * reports as a generic conversion failure, not as a library that failed
   * to load.
   */
  lemma MissingLibrariesGiveGenericAlert(file: File, browserMessage: string)
    requires file.size <= MaxHeicSize
    ensures ConvertAndClassify(file, Strategies(NotLoaded, NotLoaded, Rejected(browserMessage)))
         == Alerted(ConversionFailure(LibraryMissingMessage))
  {
    OtherMessagesAreClassifiedGeneric();
    AbsentCharExcludes(LibraryMissingMessage, "format not supported", 0);
  }

  /** A library that resolves to an empty array ends in a generic conversion failure. */
  lemma EmptyArrayGivesGenericAlert(file: File, s: Strategies)
    requires file.size <= MaxHeicSize && s.alexcorvi == Converted(Several([]))
    ensures ConvertAndClassify(file, s) == Alerted(ConversionFailure(EmptyResultMessage))
  {
    OtherMessagesAreClassifiedGeneric();
  }
}
