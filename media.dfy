/** The browser objects the processor handles, reduced to the attributes it reads. */
module Media {

  /** A Blob: the declared MIME type and the size in bytes. Pixel contents are not modelled. */
  datatype Blob = Blob(mimeType: string, size: nat)

  /** A File: a Blob with a name (`file.name`, `file.type`, `file.size`). */
  datatype File = File(name: string, mimeType: string, size: nat)

  const PngType := "image/png"
  const JpegType := "image/jpeg"
  const HeicType := "image/heic"
  const HeifType := "image/heif"
}
