/**
 * The `SquareFrameProcessor` object of script.js, reduced to the state the
 * core reads and writes: the current file and the size of the output canvas.
 * The page elements, event wiring and alerts' wording are not modelled; the
 * outcomes the methods return name the alert or the display step instead.
 */
module Processor {
  import opened Wrappers
  import opened Text
  import opened Media
  import opened Geometry
  import Naming
  import opened Acceptance
  import opened HeicDecode

  /** What selecting a file leads to. */
  datatype SelectOutcome =
    | NoFile                           // alert "Please select a valid file"
    | NotAnImage                       // alert "Please select a valid image file ..."
    | Displayed(file: File)            // `displayOriginalImage(file)`
    | HeicHandled(outcome: HeicOutcome)  // `convertAndDisplayHeic(file)`

  class SquareFrameProcessor {
    var currentFile: Option<File>
    var canvasWidth: int
    var canvasHeight: int

    /** The canvas element's size on the page is given; no file is current. */
    constructor (initialCanvasWidth: int, initialCanvasHeight: int)
      ensures currentFile == None
      ensures canvasWidth == initialCanvasWidth && canvasHeight == initialCanvasHeight
    {
      canvasWidth := initialCanvasWidth;
      canvasHeight := initialCanvasHeight;
      currentFile := None;
    }

    /**
     * `handleFileSelect`: a missing or non-image file is refused and the
     * current file kept; an accepted file becomes current and is displayed,
     * or converted first when it is HEIC.
     */
    method HandleFileSelect(file: Option<File>, strategies: Strategies) returns (outcome: SelectOutcome)
      modifies this`currentFile
      ensures file.None? ==> outcome == NoFile && currentFile == old(currentFile)
      ensures file.Some? && !SelectAccepts(file.value) ==> outcome == NotAnImage && currentFile == old(currentFile)
      ensures file.Some? && SelectAccepts(file.value) && !IsHeic(file.value) ==>
        outcome == Displayed(file.value) && currentFile == file
      ensures file.Some? && IsHeic(file.value) ==>
        && outcome == HeicHandled(ConvertAndClassify(file.value, strategies))
        && currentFile == (if outcome.outcome.Shown? then Some(outcome.outcome.file) else None)
    {
      if file.None? {
        outcome := NoFile;
        return;
      }
      var f := file.value;
      var isHeic := IsHeic(f);
      if !isHeic && !StartsWith(f.mimeType, "image/") {
        outcome := NotAnImage;
        return;
      }
      currentFile := file;
      if isHeic {
        var converted := ConvertAndDisplayHeic(f, strategies);
        outcome := HeicHandled(converted);
      } else {
        outcome := Displayed(f);
      }
    }

    /**
     * The drop handler: a dropped file that fails the image test is ignored
     * without an alert; one that passes goes to `handleFileSelect`.
     */
    method HandleDrop(file: Option<File>, strategies: Strategies) returns (outcome: Option<SelectOutcome>)
      modifies this`currentFile
      ensures file.None? || !DropAccepts(file.value) ==> outcome == None && currentFile == old(currentFile)
      ensures file.Some? && DropAccepts(file.value) && !IsHeic(file.value) ==>
        outcome == Some(Displayed(file.value)) && currentFile == file
      ensures file.Some? && IsHeic(file.value) ==>
        && outcome == Some(HeicHandled(ConvertAndClassify(file.value, strategies)))
        && currentFile == (if outcome.value.outcome.Shown? then Some(outcome.value.outcome.file) else None)
    {
      outcome := None;
      if file.Some? {
        var f := file.value;
        var isHeic := IsHeic(f);
        if StartsWith(f.mimeType, "image/") || isHeic {
          var selected := HandleFileSelect(file, strategies);
          outcome := Some(selected);
        }
      }
    }

    /**
     * `convertAndDisplayHeic`: the size guard, the three strategies in
     * order, the array unwrapping and the rename; on success the converted
     * file becomes current, on failure the error is classified and the
     * session reset.
     */
    method ConvertAndDisplayHeic(file: File, strategies: Strategies) returns (outcome: HeicOutcome)
      modifies this`currentFile
      ensures outcome == ConvertAndClassify(file, strategies)
      ensures outcome.Shown? ==> currentFile == Some(outcome.file)
      ensures outcome.Alerted? ==> currentFile == None
    {
      var error: Option<string> := None;
      var convertedBlob: Decoded := Several([]);
      var conversionMethod: ConversionMethod := Alexcorvi;
      if file.size > MaxHeicSize {
        error := Some(TooLargeMessage);
      } else if strategies.alexcorvi.Converted? {
        convertedBlob, conversionMethod := strategies.alexcorvi.result, Alexcorvi;
      } else if strategies.original.Converted? {
        convertedBlob, conversionMethod := strategies.original.result, Original;
      } else if strategies.browser.Loaded? {
        convertedBlob, conversionMethod := Single(strategies.browser.blob), Browser;
      } else {
        var originalMessage := ErrorMessage(strategies.original);
        if |originalMessage| > 0 && Contains(originalMessage, "format not supported") {
          error := Some(FormatNotSupportedMessage);
        } else {
          error := Some(originalMessage);
        }
      }

      var blob: Blob := Blob("", 0);
      if error.None? {
        match convertedBlob
        case Single(b) =>
          blob := b;
        case Several(bs) =>
          if |bs| > 0 {
            blob := bs[0];
          } else {
            error := Some(EmptyResultMessage);
          }
      }

      if error.None? {
        var convertedFile := File(Naming.ConvertedName(file.name, blob.mimeType), blob.mimeType, blob.size);
        currentFile := Some(convertedFile);
        outcome := Shown(convertedFile);
      } else {
        outcome := Alerted(Classify(error.value));
        ResetApp();
      }
    }

    /**
     * `performImageProcessing`: computes the layout for the image and the
     * entered percentage and sizes the canvas to its square.
     */
    method PerformImageProcessing(width: nat, height: nat, input: BorderInput) returns (layout: Layout)
      modifies this`canvasWidth, this`canvasHeight
      ensures layout == FrameForInput(width, height, input)
      ensures canvasWidth == canvasHeight == layout.squareDimension
    {
      layout := FrameForInput(width, height, input);
      canvasWidth := layout.squareDimension;
      canvasHeight := layout.squareDimension;
    }

    /**
     * `downloadProcessedImage`: the file name, the format and the quality
     * the canvas is encoded with. The source reads `currentFile.name`, so a
     * file must be current.
     */
    method DownloadProcessedImage() returns (filename: string, format: string, quality: real)
      requires currentFile.Some?
      ensures filename == Naming.DownloadFileName(currentFile.value.name, currentFile.value.mimeType)
      ensures format == PngType <==> currentFile.value.mimeType == PngType
      ensures format == PngType || format == JpegType
      ensures quality == if currentFile.value.mimeType == PngType then 1.0 else 0.9
    {
      var originalName := Naming.BaseName(currentFile.value.name);
      var extension := Naming.GetOutputExtension(currentFile.value.mimeType);
      filename := originalName + "_square_framed" + extension;
      format := Naming.GetOutputFormat(currentFile.value.mimeType);
      quality := Naming.Quality(format);
    }

    /** `resetApp`: no file is current; the canvas keeps its size (it is only cleared). */
    method ResetApp()
      modifies this`currentFile
      ensures currentFile == None
    {
      currentFile := None;
    }
  }
}
