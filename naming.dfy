/**
 * Output format, extension and quality (`getOutputFormat`,
 * `getOutputExtension`, the quality choice), the download file name, and the
 * rename of a converted HEIC file (script.js).
 */
module Naming {
  import opened Text
  import opened Media

  /** `getOutputFormat`: keep PNG, encode everything else (JPEG, HEIC conversions, WebP, ...) as JPEG. */
  function GetOutputFormat(fileType: string): (format: string)
    ensures format == PngType <==> fileType == PngType
    ensures format == PngType || format == JpegType
  {
    if fileType == PngType then PngType
    else if fileType == JpegType then JpegType
    else JpegType
  }

  /** `getOutputExtension`: the extension that matches the output format. */
  function GetOutputExtension(fileType: string): (ext: string)
    ensures ext == ".png" <==> fileType == PngType
    ensures ext == ".jpg" <==> fileType != PngType
  {
    var format := GetOutputFormat(fileType);
    if format == PngType then ".png" else ".jpg"
  }

  /** The encoder quality passed to `toBlob` for an output format. */
  function Quality(format: string): (q: real)
    ensures q == 0.9 <==> format == JpegType
    ensures q == 1.0 <==> format != JpegType
  {
    if format == JpegType then 0.9 else 1.0
  }

  /** The quality of the output for a file type: 0.9 (JPEG) unless the file is a PNG. */
  lemma OutputQuality(fileType: string)
    ensures Quality(GetOutputFormat(fileType)) == if fileType == PngType then 1.0 else 0.9
  {
  }

  /** `name.split('.')[0]`: the text before the first dot, or the whole name if it has none. */
  function BaseName(name: string): (base: string)
    ensures |base| <= |name| && base == name[..|base|]
    ensures '.' !in base
    ensures |base| == |name| || name[|base|] == '.'
  {
    if name == [] || name[0] == '.' then []
    else [name[0]] + BaseName(name[1..])
  }

  /** `${originalName}_square_framed${extension}` in `downloadProcessedImage`. */
  function DownloadFileName(name: string, fileType: string): (download: string)
    ensures |download| == |BaseName(name)| + |"_square_framed"| + 4
    ensures download[..|BaseName(name)|] == BaseName(name)
    ensures EndsWith(download, if fileType == PngType then ".png" else ".jpg")
  {
    BaseName(name) + "_square_framed" + GetOutputExtension(fileType)
  }

  /**
   * The download name is the text before the first dot of the file name,
   * then `_square_framed`, then `.png` for a PNG file and `.jpg` otherwise.
   */
  lemma DownloadFileNameParts(name: string, fileType: string)
    ensures exists k :: (
      && 0 <= k <= |name| && '.' !in name[..k] && (k == |name| || name[k] == '.')
      && DownloadFileName(name, fileType) == name[..k] + "_square_framed" + (if fileType == PngType then ".png" else ".jpg"))
  {
    var k := |BaseName(name)|;
    assert '.' !in name[..k];
  }

  /** The five-character tail the regular expression `/\.(heic|heif)$/i` matches. */
  predicate HasHeicExtension(name: string): (matches: bool)
    ensures matches <==>
      && |name| >= 5
      && name[|name| - 5] == '.'
      && LowerChar(name[|name| - 4]) == 'h'
      && LowerChar(name[|name| - 3]) == 'e'
      && LowerChar(name[|name| - 2]) == 'i'
      && (LowerChar(name[|name| - 1]) == 'c' || LowerChar(name[|name| - 1]) == 'f')
  {
    |name| >= 5 && (Lower(name[|name| - 5..]) == ".heic" || Lower(name[|name| - 5..]) == ".heif")
  }

  /** The extension given to a converted HEIC file, by the type of the converted blob. */
  function ConvertedExtension(blobType: string): string
  {
    if blobType == PngType then ".png" else ".jpg"
  }

  /** `file.name.replace(/\.(heic|heif)$/i, fileExtension)`. */
  function ConvertedName(name: string, blobType: string): (renamed: string)
    ensures renamed == name <==> !HasHeicExtension(name)
    ensures renamed != name ==> |renamed| == |name| - 1 && EndsWith(renamed, ConvertedExtension(blobType))
  {
    if HasHeicExtension(name) then name[..|name| - 5] + ConvertedExtension(blobType) else name
  }

  /**
   * Renaming replaces a trailing `.heic`/`.heif` in any letter case by the
   * extension of the blob type and keeps the rest of the name; a name without
   * that tail is kept whole. Either way the new name has no HEIC tail.
   */
  lemma ConvertedNameReplacesTail(name: string, blobType: string)
    ensures HasHeicExtension(name) ==>
      && |ConvertedName(name, blobType)| == |name| - 1
      && ConvertedName(name, blobType)[..|name| - 5] == name[..|name| - 5]
      && EndsWith(ConvertedName(name, blobType), if blobType == PngType then ".png" else ".jpg")
    ensures !HasHeicExtension(name) ==> ConvertedName(name, blobType) == name
    ensures !HasHeicExtension(ConvertedName(name, blobType))
  {
    var r := ConvertedName(name, blobType);
    if HasHeicExtension(name) && |name| >= 6 {
      var ext := ConvertedExtension(blobType);
      assert r[|r| - 5..] == [name[|name| - 6]] + ext;
      assert Lower(r[|r| - 5..])[4] == LowerChar(ext[3]);
    }
  }
}
