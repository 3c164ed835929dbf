/**
  ImageService as seen by the two front ends: reading EXIF data and producing a
  resized JPEG are library calls, given here as functions that return a
  value or the exception they throw.
*/
module Images {
  import opened Wrappers
  import opened Errors
  import opened Models

  /** `Statics.ImageWidth` and `Statics.ImageHeight`. */
  const ImageWidth := 640
  const ImageHeight := 480

  datatype ImageService = ImageService(
    /** `ExtractImageMetadata(filePath)`. */
    extractImageMetadata: string -> Result<ImageMetaData, Error>,
    /** `ResizeImage(path, width, height)`. */
    resizeImage: (string, int, int) -> Result<Bytes, Error>)
}
