/** Pixel buffers and small value types shared by the capture engine and its view. */
module Media {

  /** An 8-bit pixel sample. */
  newtype Byte = x: int | 0 <= x < 256

  datatype Option<T> = None | Some(value: T)

  /** A widget or pixmap size in pixels. */
  datatype Size = Size(width: int, height: int)

  /** One frame as the capture device delivers it: its size, its channel count, and
      its luminance plane, i.e. what OpenCV's contrast/brightness mapping followed by
      its RGB-to-grey conversion yields for this frame (that arithmetic is not modelled). */
  datatype Frame = Frame(cols: nat, rows: nat, channels: nat, luma: seq<Byte>)

  /** A QImage, by pixel format. Only the grey formats carry their pixels; the
      content of colour and indexed images is not modelled. An image with no
      columns or no rows is null, as a QImage of zero width or height is. */
  datatype Image =
    | NullImage
    | Grayscale8(cols: nat, rows: nat, pixels: seq<Byte>)
    | Rgb888(cols: nat, rows: nat)
    | Indexed8(cols: nat, rows: nat)
  {
    /** QImage::isNull */
    predicate IsNull() { NullImage? || cols == 0 || rows == 0 }

    /** QImage::width, which is 0 for a null image */
    function Width(): nat { if IsNull() then 0 else cols }

    /** QImage::height, which is 0 for a null image */
    function Height(): nat { if IsNull() then 0 else rows }
  }
}
