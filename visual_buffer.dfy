/**
 * The pixel buffer a gate's script draws into, and the texture shown on
 * the canvas. The buffer is a fixed number of RGBA pixels laid out row by
 * row, addressed by `y * width + x` in 32-bit unsigned arithmetic, with a
 * flag recording that it was drawn into.
 */
module VisualBuffers {
  import opened Results

  newtype u8 = x: int | 0 <= x < 0x100
  newtype u32 = x: int | 0 <= x < 0x1_0000_0000

  /** One pixel as the script hands it over: red, green, blue and alpha. */
  datatype Rgba = Rgba(r: u8, g: u8, b: u8, a: u8)

  /** A texture colour, built from a non-premultiplied RGBA pixel. */
  datatype Color32 = FromRgbaUnmultiplied(r: u8, g: u8, b: u8, a: u8)

  /** An image for the canvas: its width and height and its pixels, row by row. */
  datatype ColorImage = ColorImage(size: (nat, nat), pixels: seq<Color32>)

  const Transparent := Rgba(0, 0, 0, 0)

  /**
   * The buffer position of pixel (x, y): `y * width + x` computed in
   * 32-bit unsigned arithmetic, so it wraps around past 2^32 - 1.
   */
  function PixelIndex(x: u32, y: u32, width: u32): (i: nat)
    ensures i < 0x1_0000_0000
    ensures y as int * width as int + x as int < 0x1_0000_0000 ==> i == y as int * width as int + x as int
  {
    (y as int * width as int + x as int) % 0x1_0000_0000
  }

  function ToColor32(c: Rgba): Color32
  {
    FromRgbaUnmultiplied(c.r, c.g, c.b, c.a)
  }

  /**
   * Row-major addressing inside a width-by-height buffer: a pixel inside
   * the rectangle lands inside the buffer, and two different pixels land
   * on different positions.
   */
  lemma {:induction false} RowMajor(x: u32, y: u32, x': u32, y': u32, width: u32, height: u32)
    requires x < width && x' < width && y < height && y' < height
    requires width as int * height as int < 0x1_0000_0000
    ensures PixelIndex(x, y, width) < width as int * height as int
    ensures PixelIndex(x, y, width) == PixelIndex(x', y', width) <==> x == x' && y == y'
  {
    var w, h := width as int, height as int;
    InsideRectangle(x as int, y as int, w, h);
    InsideRectangle(x' as int, y' as int, w, h);
    if PixelIndex(x, y, width) == PixelIndex(x', y', width) {
      SameRow(x as int, y as int, x' as int, y' as int, w);
    }
  }

  lemma InsideRectangle(x: int, y: int, w: int, h: int)
    requires 0 <= x < w && 0 <= y < h
    ensures y * w + x < w * h
  {
    assert y * w <= (h - 1) * w;
  }

  lemma SameRow(x: int, y: int, x': int, y': int, w: int)
    requires 0 <= x < w && 0 <= x' < w && 0 <= y && 0 <= y'
    requires y * w + x == y' * w + x'
    ensures x == x' && y == y'
  {
    if y < y' {
      RowStep(y, y', w);
    } else if y' < y {
      RowStep(y', y, w);
    }
  }

  lemma RowStep(y: int, y': int, w: int)
    requires 0 <= y < y' && 0 <= w
    ensures y * w + w <= y' * w
  {
    var d := y' - y;
    assert y' * w == y * w + d * w;
    AtLeastOneRow(d, w);
  }

  lemma {:induction false} AtLeastOneRow(d: int, w: int)
    requires 1 <= d && 0 <= w
    ensures w <= d * w
    decreases d
  {
    if d > 1 {
      AtLeastOneRow(d - 1, w);
      assert d * w == (d - 1) * w + w;
    }
  }

  class VisualBuffer {
    const buffer: array<Rgba>
    var size: (u32, u32)
    var changed: bool

    /**
     * The buffer a drawn gate starts with: `width * height` transparent
     * pixels, flagged as changed so that the first frame shows it.
     */
    constructor (width: u32, height: u32)
      ensures size == (width, height) && changed
      ensures fresh(buffer) && buffer.Length == width as int * height as int
      ensures forall i :: 0 <= i < buffer.Length ==> buffer[i] == Transparent
    {
      buffer := new Rgba[width as int * height as int](_ => Transparent);
      size := (width, height);
      changed := true;
    }

    /** `get_size`: the width and height the buffer was created with. */
    function GetSize(): (s: (u32, u32))
      reads this
      ensures s == size
    {
      size
    }

    /**
     * `get_pixel`: the pixel at row-major position (x, y). Reading outside
     * the buffer is a panic in the source, so the position must be inside.
     */
    function GetPixel(x: u32, y: u32): (c: Rgba)
      reads this, buffer
      requires PixelIndex(x, y, size.0) < buffer.Length
      ensures c == buffer[PixelIndex(x, y, size.0)]
    {
      buffer[PixelIndex(x, y, size.0)]
    }

    /**
     * `set_pixel`: writes the pixel at row-major position (x, y) when that
     * position is inside the buffer and ignores the write otherwise; either
     * way the buffer is marked changed and no other pixel moves.
     */
    method SetPixel(x: u32, y: u32, c: Rgba)
      modifies this, buffer
      ensures size == old(size) && changed
      ensures PixelIndex(x, y, size.0) < buffer.Length ==>
        buffer[..] == old(buffer[..])[PixelIndex(x, y, size.0) := c]
      ensures PixelIndex(x, y, size.0) >= buffer.Length ==> buffer[..] == old(buffer[..])
    {
      var index := PixelIndex(x, y, size.0);
      if index < buffer.Length {
        buffer[index] := c;
      }
      changed := true;
    }

    /** `set_all`: paints every pixel with one colour and marks the buffer changed. */
    method SetAll(c: Rgba)
      modifies this, buffer
      ensures size == old(size) && changed
      ensures forall i :: 0 <= i < buffer.Length ==> buffer[i] == c
      ensures AsTexture().pixels == seq(buffer.Length, _ => ToColor32(c))
    {
      for i := 0 to buffer.Length
        invariant size == old(size)
        invariant forall j :: 0 <= j < i ==> buffer[j] == c
      {
        buffer[i] := c;
      }
      changed := true;
    }

    /**
     * `as_texture`: the image of the buffer, of the buffer's width and
     * height, with one colour per buffer pixel in the same order.
     */
    function AsTexture(): (img: ColorImage)
      reads this, buffer
      ensures img.size == (size.0 as nat, size.1 as nat)
      ensures |img.pixels| == buffer.Length
      ensures forall i :: 0 <= i < buffer.Length ==> img.pixels[i] == ToColor32(buffer[i])
    {
      ColorImage((size.0 as nat, size.1 as nat), seq(buffer.Length, i reads buffer requires 0 <= i < buffer.Length => ToColor32(buffer[i])))
    }
  }

  /**
   * The texture shown for a gate: the last image taken from its buffer and
   * the handle of its upload to the graphics card, if it was uploaded.
   */
  class ImageTexture {
    var colorImage: ColorImage
    var textureId: Option<nat>

    /** `ImageTexture::new`: an image that still has to be uploaded. */
    constructor (image: ColorImage)
      ensures colorImage == image && textureId == None
    {
      colorImage := image;
      textureId := None;
    }

    /**
     * `update_image_from_buffer`: when the buffer was drawn into, takes a
     * new image of it and forgets the upload; otherwise keeps both. The
     * buffer, its flag included, is left as it was.
     */
    method UpdateImageFromBuffer(visual: VisualBuffer)
      modifies this
      ensures visual.changed ==> colorImage == visual.AsTexture() && textureId == None
      ensures !visual.changed ==> colorImage == old(colorImage) && textureId == old(textureId)
    {
      if visual.changed {
        colorImage := visual.AsTexture();
        textureId := None;
      }
    }
  }
}
