/**
 * Which files the processor takes: the HEIC test and the image test of
 * `handleFileSelect`, and the same filter repeated in the drop handler
 * (script.js).
 */
module Acceptance {
  import opened Text
  import opened Media
  import Naming

  /** `isHeic`: a HEIC/HEIF MIME type, or a name ending in `.heic`/`.heif` once lower-cased. */
  predicate IsHeic(file: File): (heic: bool)
    // the name test is the same as the rename's regular expression
    ensures heic <==> file.mimeType == HeicType || file.mimeType == HeifType || Naming.HasHeicExtension(file.name)
  {
    HeicNameTestMatchesRename(file.name);
    || file.mimeType == HeicType
    || file.mimeType == HeifType
    || EndsWith(Lower(file.name), ".heic")
    || EndsWith(Lower(file.name), ".heif")
  }

  /** The test `handleFileSelect` applies: reject when neither HEIC nor an `image/` type. */
  predicate SelectAccepts(file: File): (accepted: bool)
    ensures accepted <==> IsHeic(file) || StartsWith(file.mimeType, "image/")
  {
    !(!IsHeic(file) && !StartsWith(file.mimeType, "image/"))
  }

  /** The test the drop handler applies before calling `handleFileSelect`. */
  predicate DropAccepts(file: File): (accepted: bool)
    // it forwards exactly the files the select handler accepts
    ensures accepted <==> SelectAccepts(file)
  {
    StartsWith(file.mimeType, "image/") || IsHeic(file)
  }

  /**
   * The drop filter and the select filter accept the same files, and a
   * file is accepted exactly when it is HEIC by name or type or has an
   * `image/` MIME type.
   */
  lemma DropAndSelectAgree(file: File)
    ensures DropAccepts(file) <==> SelectAccepts(file)
    ensures SelectAccepts(file) <==>
      (|| file.mimeType == HeicType || file.mimeType == HeifType
       || EndsWith(Lower(file.name), ".heic") || EndsWith(Lower(file.name), ".heif")
       || StartsWith(file.mimeType, "image/"))
  {
  }

  /**
   * The name test of `isHeic` and the tail the converter's rename removes
   * agree: a name ends in `.heic`/`.heif` after lower-casing exactly when
   * `/\.(heic|heif)$/i` matches it.
   */
  lemma {:induction false} HeicNameTestMatchesRename(name: string)
    ensures EndsWith(Lower(name), ".heic") || EndsWith(Lower(name), ".heif") <==> Naming.HasHeicExtension(name)
  {
    if |name| >= 5 {
      LowerSuffix(name, |name| - 5);
    }
  }

  /**
   * A converted file, named by the rename and typed by a blob that is not
   * itself HEIC, is not HEIC: selecting it again would display it rather
   * than convert it again.
   */
  lemma {:induction false} ConvertedFileIsNotHeic(name: string, blob: Blob)
    requires blob.mimeType != HeicType && blob.mimeType != HeifType
    ensures !IsHeic(File(Naming.ConvertedName(name, blob.mimeType), blob.mimeType, blob.size))
  {
    var renamed := Naming.ConvertedName(name, blob.mimeType);
    Naming.ConvertedNameReplacesTail(name, blob.mimeType);
    HeicNameTestMatchesRename(renamed);
  }
}
