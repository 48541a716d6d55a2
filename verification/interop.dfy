/** Types shared by the host engine and the native plugin: nullable handles, the C `int`,
    and the texture description the host passes to render event 0. */
module Interop {

  /** A nullable pointer or handle: `None` is NULL / nullptr. */
  datatype Option<+T> = None | Some(value: T)

  const Int32Max: int := 0x7fff_ffff

  /** An unsigned byte: C's `UCHAR`, C++'s `std::byte`. */
  newtype byte = x: int | 0 <= x < 256

  /** The C and C++ `int` of the plugin (32 bits on every platform the plugin targets). */
  newtype int32 = x: int | -0x8000_0000 <= x <= 0x7fff_ffff

  /** The interop structure `{ int width, height; }` that the host fills in. */
  datatype TextureDescription = TextureDescription(width: int32, height: int32)

  /** The description the image generator can handle: non-negative sizes whose byte count
      `width * height * 4` is still an `int`, so that no signed arithmetic overflows. */
  predicate ImageFits(d: TextureDescription)
  {
    0 <= d.width && 0 <= d.height && d.width as int * d.height as int * 4 <= Int32Max
  }

  /** The description render event 0 can handle: the image fits, and so does the row
      length `width * 4` (which the image size bounds only when the height is not 0). */
  predicate WellFormed(d: TextureDescription)
  {
    ImageFits(d) && d.width as int * 4 <= Int32Max
  }
}
