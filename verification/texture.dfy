/** `SetTextureData` of the OpenGL backend: the rows of a sprite's pixels,
    each held separately by the host, are packed one after another into a
    single buffer that is handed to the GPU upload. */
module Texture {

  /** Bytes per pixel; `SetTextureData` fixes it at four (blue, green, red, alpha). */
  const Bpp := 4

  /** The largest C `int`. The buffer size `width * height * 4` and the row
      offsets `pitch * y` are computed in `int`, so a larger buffer overflows,
      which is undefined behaviour. */
  const IntMax := 0x7FFF_FFFF

  /** Every row holds at least `pitch` bytes. */
  predicate LongRows(rows: seq<seq<bv8>>, pitch: nat)
  {
    forall y | 0 <= y < |rows| :: |rows[y]| >= pitch
  }

  /** The first `pitch` bytes of every row, concatenated in row order: the
      buffer the packing loop is meant to produce. */
  function PackRows(rows: seq<seq<bv8>>, pitch: nat): (r: seq<bv8>)
    requires LongRows(rows, pitch)
    ensures |r| == pitch * |rows|
  {
    if |rows| == 0 then [] else rows[0][..pitch] + PackRows(rows[1..], pitch)
  }

  lemma MulStep(pitch: nat, y: nat)
    ensures pitch * (y + 1) == pitch * y + pitch
  {
  }

  /** Byte `k` of row `y` lands at offset `pitch * y + k` of the packed buffer. */
  lemma {:induction false} PackRowsAt(rows: seq<seq<bv8>>, pitch: nat, y: nat, k: nat)
    requires LongRows(rows, pitch)
    requires y < |rows| && k < pitch
    ensures pitch * y + k < pitch * |rows|
    ensures PackRows(rows, pitch)[pitch * y + k] == rows[y][k]
  {
    var packed := PackRows(rows, pitch);
    assert packed == rows[0][..pitch] + PackRows(rows[1..], pitch);
    if y == 0 {
      assert pitch * y + k == k;
    } else {
      var rest := PackRows(rows[1..], pitch);
      PackRowsAt(rows[1..], pitch, y - 1, k);
      MulStep(pitch, y - 1);
      MulStep(pitch, |rows| - 1);
      assert pitch * y + k == pitch + (pitch * (y - 1) + k);
      assert packed[pitch * y + k] == rest[pitch * (y - 1) + k];
    }
  }

  /** Packing one more row appends that row's first `pitch` bytes. */
  lemma {:induction false} PackRowsSnoc(rows: seq<seq<bv8>>, row: seq<bv8>, pitch: nat)
    requires LongRows(rows, pitch)
    requires |row| >= pitch
    ensures LongRows(rows + [row], pitch)
    ensures PackRows(rows + [row], pitch) == PackRows(rows, pitch) + row[..pitch]
  {
    if |rows| > 0 {
      assert (rows + [row])[1..] == rows[1..] + [row];
      PackRowsSnoc(rows[1..], row, pitch);
    } else {
      assert rows + [row] == [row];
    }
  }

  lemma SizeOfPacked(width: nat, height: nat)
    ensures (Bpp * width) * height == Bpp * width * height
  {
  }

  /** `SetTextureData(texture, data, width, height)`: the packed pixel buffer
      passed to the upload, and the function's result. It reads
      `width * 4` bytes from each of the first `height` rows, so those rows
      must exist and be long enough, and the buffer size must fit in an `int`. */
  method SetTextureData(data: seq<seq<bv8>>, width: nat, height: nat) returns (pixels: seq<bv8>, ok: bool)
    requires Bpp * width * height <= IntMax
    requires height <= |data|
    requires forall y | 0 <= y < height :: |data[y]| >= Bpp * width
    ensures ok
    ensures |pixels| == Bpp * width * height
    ensures forall y, k | 0 <= y < height && 0 <= k < Bpp * width ::
      Bpp * width * y + k < |pixels| && pixels[Bpp * width * y + k] == data[y][k]
    ensures LongRows(data[..height], Bpp * width) && pixels == PackRows(data[..height], Bpp * width)
  {
    var pitch := Bpp * width;
    var input := [];
    for y := 0 to height
      invariant LongRows(data[..y], pitch)
      invariant input == PackRows(data[..y], pitch)
    {
      var rows := data[..y];
      assert data[..y + 1] == rows + [data[y]];
      PackRowsSnoc(rows, data[y], pitch);
      input := input + data[y][..pitch];
    }
    PackedLayout(data, width, height);
    pixels := input;
    ok := true;
  }

  /** The layout of the packed buffer in the terms `SetTextureData` uses. */
  lemma PackedLayout(data: seq<seq<bv8>>, width: nat, height: nat)
    requires height <= |data|
    requires LongRows(data[..height], Bpp * width)
    ensures |PackRows(data[..height], Bpp * width)| == Bpp * width * height
    ensures forall y, k | 0 <= y < height && 0 <= k < Bpp * width ::
      Bpp * width * y + k < |PackRows(data[..height], Bpp * width)| &&
      PackRows(data[..height], Bpp * width)[Bpp * width * y + k] == data[y][k]
  {
    var pitch := Bpp * width;
    SizeOfPacked(width, height);
    forall y, k | 0 <= y < height && 0 <= k < pitch
      ensures pitch * y + k < |PackRows(data[..height], pitch)|
      ensures PackRows(data[..height], pitch)[pitch * y + k] == data[y][k]
    {
      PackRowsAt(data[..height], pitch, y, k);
    }
  }
}
