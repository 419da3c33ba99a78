/** The decoded image a placeable item shows (a plain record). */
module FileDetailsRecord {

  newtype byte = x: int | 0 <= x < 256

  /** Name, MIME type, raw bytes and pixel size of one image. */
  datatype FileDetails = FileDetails(
    name: string,
    fileType: string,
    data: seq<byte>,
    width: int,
    height: int)

  /** Side of the square assumed for an image whose size cannot be probed. */
  const FallbackImageSide: int := 100

  /** The (width, height) an image-size probe reports. */
  datatype Size = Size(width: int, height: int)
}
