/**
 * The in-memory RGB565 image: two bytes per pixel, row after row, the
 * pixel at the rectangle's minimum corner first.
 */
module Images {
  import opened GoTypes
  import opened Colors

  const BytesPerPixel: nat := 2

  /** Go's image.Rectangle: the minimum corner is inside, the maximum corner outside. */
  datatype Rectangle = Rectangle(minX: int, minY: int, maxX: int, maxY: int)
  {
    function Dx(): int { maxX - minX }
    function Dy(): int { maxY - minY }

    /** The point lies in the rectangle. */
    predicate Contains(x: int, y: int)
    {
      minX <= x < maxX && minY <= y < maxY
    }
  }

  /**
   * The byte offset of pixel (x, y) in an image of rectangle `r` with
   * `stride` bytes per row; with the stride of a new image it is twice the
   * pixel's row-major position.
   */
  function PixOffset(r: Rectangle, stride: int, x: int, y: int): (off: int)
    ensures stride == r.Dx() * BytesPerPixel ==> off == BytesPerPixel * Index(r, x, y)
  {
    var row := y - r.minY;
    assert row * (r.Dx() * 2) == 2 * (row * r.Dx());
    row * stride + (x - r.minX) * BytesPerPixel
  }

  /** The colour stored in the two bytes at `off`. */
  function ColorAt(pix: seq<bv8>, off: int): TinyColor
    requires 0 <= off && off + BytesPerPixel <= |pix|
  {
    TinyColor(pix[off], pix[off + 1])
  }

  /** The bytes with colour `c` stored at `off`, high byte first. */
  function Put(pix: seq<bv8>, off: int, c: TinyColor): (r: seq<bv8>)
    requires 0 <= off && off + BytesPerPixel <= |pix|
    ensures |r| == |pix|
  {
    pix[off := c.hb][off + 1 := c.lb]
  }

  /** A colour stored at an offset is read back there, and every other byte is as it was. */
  lemma GetPut(pix: seq<bv8>, off: int, c: TinyColor)
    requires 0 <= off && off + BytesPerPixel <= |pix|
    ensures ColorAt(Put(pix, off, c), off) == c
    ensures forall k :: 0 <= k < |pix| && k != off && k != off + 1 ==> Put(pix, off, c)[k] == pix[k]
  {
  }

  /** Storing a colour leaves the colour of any pixel whose bytes do not overlap. */
  lemma PutElsewhere(pix: seq<bv8>, off: int, c: TinyColor, other: int)
    requires 0 <= off && off + BytesPerPixel <= |pix|
    requires 0 <= other && other + BytesPerPixel <= |pix|
    requires other + BytesPerPixel <= off || off + BytesPerPixel <= other
    ensures ColorAt(Put(pix, off, c), other) == ColorAt(pix, other)
  {
  }

  /** The position of pixel (x, y) in row-major order. */
  function Index(r: Rectangle, x: int, y: int): int
  {
    (y - r.minY) * r.Dx() + (x - r.minX)
  }

  /** Pixels inside the rectangle have row-major positions from 0 below the pixel count, and distinct pixels distinct positions. */
  lemma IndexInRange(r: Rectangle, x: int, y: int, x2: int, y2: int)
    requires r.Contains(x, y) && r.Contains(x2, y2)
    ensures 0 <= Index(r, x, y) < r.Dx() * r.Dy()
    ensures Index(r, x, y) == Index(r, x2, y2) ==> x == x2 && y == y2
  {
    var row, col, dx := y - r.minY, x - r.minX, r.Dx();
    RowBound(row, col, dx, r.Dy());
    if y != y2 {
      RowsApart(row, col, y2 - r.minY, x2 - r.minX, dx);
    }
  }

  lemma RowBound(row: nat, col: nat, dx: nat, dy: nat)
    requires row < dy && col < dx
    ensures 0 <= row * dx + col < dx * dy
  {
    MultiplyMonotone(row + 1, dy, dx);
  }

  lemma RowsApart(row: nat, col: nat, row2: nat, col2: nat, dx: nat)
    requires row != row2 && col < dx && col2 < dx
    ensures row * dx + col != row2 * dx + col2
  {
    if row < row2 {
      MultiplyMonotone(row + 1, row2, dx);
    } else {
      MultiplyMonotone(row2 + 1, row, dx);
    }
  }

  /** Go's TinyImage: a byte buffer, its row length in bytes and the rectangle it covers. */
  class TinyImage {
    var Pix: array<bv8>
    const Stride: int
    const Rect: Rectangle

    /** The buffer holds two bytes for each pixel of the rectangle, row after row. */
    ghost predicate Valid()
      reads this
    {
      Stride == Rect.Dx() * BytesPerPixel && Pix.Length == Rect.Dx() * Rect.Dy() * BytesPerPixel
    }

    /** NewTinyImage: a zeroed buffer for the rectangle; a negative byte count would make Go panic. */
    constructor (r: Rectangle)
      requires 0 <= r.Dx() * r.Dy()
      ensures Valid() && Rect == r && fresh(Pix)
      ensures forall k :: 0 <= k < Pix.Length ==> Pix[k] == 0
    {
      Rect := r;
      Stride := r.Dx() * BytesPerPixel;
      Pix := new bv8[r.Dx() * r.Dy() * BytesPerPixel](_ => 0);
    }

    /** pixOffset. */
    function Offset(x: int, y: int): int
    {
      PixOffset(Rect, Stride, x, y)
    }

    /**
     * TinyColorAt: the colour stored at the pixel's offset, as ColorAt reads
     * it from the buffer; Go panics when the bytes lie outside the buffer.
     */
    function TinyColorAt(x: int, y: int): (c: TinyColor)
      reads this, Pix
      requires 0 <= Offset(x, y) && Offset(x, y) + BytesPerPixel <= Pix.Length
      ensures c == ColorAt(Pix[..], Offset(x, y))
    {
      var idx := Offset(x, y);
      TinyColor(Pix[idx], Pix[idx + 1])
    }

    /** Every pixel inside the rectangle has its two bytes in the buffer, the minimum corner at offset 0. */
    lemma InBounds(x: int, y: int)
      requires Valid() && Rect.Contains(x, y)
      ensures 0 <= Offset(x, y) && Offset(x, y) + BytesPerPixel <= Pix.Length
      ensures Offset(Rect.minX, Rect.minY) == 0
    {
      IndexInRange(Rect, x, y, x, y);
    }

    /** Distinct pixels inside the rectangle own disjoint byte pairs. */
    lemma Disjoint(x: int, y: int, x2: int, y2: int)
      requires Valid() && Rect.Contains(x, y) && Rect.Contains(x2, y2) && (x, y) != (x2, y2)
      ensures Offset(x, y) + BytesPerPixel <= Offset(x2, y2) || Offset(x2, y2) + BytesPerPixel <= Offset(x, y)
    {
      IndexInRange(Rect, x, y, x2, y2);
    }

    /** SetTinyColor: the two bytes at the pixel's offset become the colour, high byte first. */
    method SetTinyColor(x: int, y: int, c: TinyColor)
      requires 0 <= Offset(x, y) && Offset(x, y) + BytesPerPixel <= Pix.Length
      modifies Pix
      ensures Pix[..] == Put(old(Pix[..]), Offset(x, y), c)
      ensures TinyColorAt(x, y) == c
    {
      var idx := Offset(x, y);
      Pix[idx] := c.hb;
      Pix[idx + 1] := c.lb;
    }

    /** Set: any colour is converted by the TinyColor model and stored. */
    method Set(x: int, y: int, c: AnyColor)
      requires 0 <= Offset(x, y) && Offset(x, y) + BytesPerPixel <= Pix.Length
      modifies Pix
      ensures Pix[..] == Put(old(Pix[..]), Offset(x, y), TinyModel(c))
    {
      var idx := Offset(x, y);
      var c1 := TinyModel(c);
      Pix[idx] := c1.hb;
      Pix[idx + 1] := c1.lb;
    }
  }
}
