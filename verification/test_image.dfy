/** The test image the plugin uploads: an RGBA8 image, rows stored one after the other,
    four bytes per pixel. The pixel at column x, row y holds (x mod 256, y mod 256, 1, 0). */
module TestImage {
  import opened Interop

  /** The four bytes of pixel (x, y): red and green are the coordinates truncated to a byte,
      blue is 1 and alpha is 0. */
  function Pixel(x: nat, y: nat): (p: seq<byte>)
    ensures |p| == 4
  {
    [(x % 256) as byte, (y % 256) as byte, 1, 0]
  }

  /** The first w pixels of row y, left to right. */
  function Row(w: nat, y: nat): (r: seq<byte>)
    ensures |r| == 4 * w
  {
    if w == 0 then [] else Row(w - 1, y) + Pixel(w - 1, y)
  }

  /** The first h rows of a w pixels wide image, top to bottom. */
  function Image(w: nat, h: nat): (r: seq<byte>)
    ensures r == [] <==> w == 0 || h == 0
  {
    if h == 0 then [] else Image(w, h - 1) + Row(w, h - 1)
  }

  /** A w by h image is w * h * 4 bytes long. */
  lemma {:induction false} ImageLength(w: nat, h: nat)
    ensures |Image(w, h)| == h * w * 4
  {
    if h > 0 {
      ImageLength(w, h - 1);
      assert h * w * 4 == (h - 1) * w * 4 + 4 * w;
    }
  }

  /** Pixel x of a row is the run of four bytes starting at byte 4 * x. */
  lemma {:induction false} RowPixels(w: nat, y: nat, x: nat)
    requires x < w
    ensures Row(w, y)[4 * x..4 * x + 4] == Pixel(x, y)
  {
    if x < w - 1 {
      RowPixels(w - 1, y, x);
      SliceOfPrefix(Row(w - 1, y), Pixel(w - 1, y), 4 * x, 4 * x + 4);
    }
  }

  /** The image y rows high is the beginning of every taller image of the same width. */
  lemma {:induction false} ImagePrefix(w: nat, y: nat, h: nat)
    requires y <= h
    ensures |Image(w, y)| <= |Image(w, h)| && Image(w, h)[..|Image(w, y)|] == Image(w, y)
  {
    if y < h {
      ImagePrefix(w, y, h - 1);
      SliceOfPrefix(Image(w, h - 1), Row(w, h - 1), 0, |Image(w, y)|);
    }
  }

  /** Pixel (x, y) comes right after the y full rows above it and the x pixels to its left. */
  lemma PixelAfterPrefix(w: nat, h: nat, x: nat, y: nat)
    requires x < w && y < h
    ensures var o := |Image(w, y)| + 4 * x;
      o + 4 <= |Image(w, h)| && Image(w, h)[o..o + 4] == Pixel(x, y)
  {
    var above, row := Image(w, y), Row(w, y);
    ImagePrefix(w, y + 1, h);
    assert Image(w, y + 1) == above + row;
    RowPixels(w, y, x);
    SliceAfterPrefix(Image(w, h), above, row, 4 * x, 4 * x + 4);
  }

  /** The same, byte by byte: where the generator's running offset stands when it reaches
      pixel (x, y), the image holds x mod 256, y mod 256, 1 and 0. */
  lemma PixelBytes(w: nat, h: nat, x: nat, y: nat)
    requires x < w && y < h
    ensures var o := |Image(w, y)| + 4 * x;
      && o + 4 <= |Image(w, h)|
      && Image(w, h)[o] == (x % 256) as byte && Image(w, h)[o + 1] == (y % 256) as byte
      && Image(w, h)[o + 2] == 1 && Image(w, h)[o + 3] == 0
  {
    var o := |Image(w, y)| + 4 * x;
    PixelAfterPrefix(w, h, x, y);
    assert Image(w, h)[o] == Image(w, h)[o..o + 4][0];
    assert Image(w, h)[o + 1] == Image(w, h)[o..o + 4][1];
    assert Image(w, h)[o + 2] == Image(w, h)[o..o + 4][2];
    assert Image(w, h)[o + 3] == Image(w, h)[o..o + 4][3];
  }

  /** Channel k of pixel (x, y) of a w by h image sits at byte 4 * (y * w + x) + k. */
  lemma ImageAt(w: nat, h: nat, x: nat, y: nat, k: nat)
    requires x < w && y < h && k < 4
    ensures 4 * (y * w + x) + k < |Image(w, h)|
    ensures Image(w, h)[4 * (y * w + x) + k] == Pixel(x, y)[k]
  {
    var o := |Image(w, y)| + 4 * x;
    assert o + k == 4 * (y * w + x) + k by {
      ImageLength(w, y);
    }
    PixelAfterPrefix(w, h, x, y);
    assert Image(w, h)[o + k] == Image(w, h)[o..o + 4][k];
  }

  /** Row y of the image is the run of 4 * w bytes starting at byte y * (4 * w). */
  lemma {:induction false} ImageRows(w: nat, h: nat, y: nat)
    requires y < h
    ensures var r := w * 4; 0 <= y * r && y * r + r <= |Image(w, h)|
    ensures var r := w * 4; Image(w, h)[y * r .. y * r + r] == Row(w, y)
  {
    var r := w * 4;
    var prefix, last := Image(w, h - 1), Row(w, h - 1);
    assert |prefix| == (h - 1) * r by {
      ImageLength(w, h - 1);
      Assoc(h - 1, w);
    }
    assert Image(w, h) == prefix + last;
    if y < h - 1 {
      ImageRows(w, h - 1, y);
      SliceOfPrefix(prefix, last, y * r, y * r + r);
    } else {
      assert y * r == |prefix|;
    }
  }

  /** Every byte offset of a w pixels wide image belongs to some pixel (x, y) and channel k. */
  function ByteOwner(w: nat, i: nat): (o: (nat, nat, nat))
    requires w > 0
    ensures o.0 < w && o.2 < 4
    ensures 4 * (o.1 * w + o.0) + o.2 == i
  {
    var q := i / 4;
    (q % w, q / w, i % 4)
  }

  /** ... and to only one: distinct (pixel, channel) pairs have distinct byte offsets. */
  lemma OffsetInjective(w: nat, x: nat, y: nat, k: nat, x': nat, y': nat, k': nat)
    requires x < w && x' < w && k < 4 && k' < 4
    requires 4 * (y * w + x) + k == 4 * (y' * w + x') + k'
    ensures x == x' && y == y' && k == k'
  {
    assert k == k' && y * w + x == y' * w + x';
    if y < y' {
      MulLeq(y + 1, y', w);
      assert false;
    } else if y' < y {
      MulLeq(y' + 1, y, w);
      assert false;
    }
  }

  /** Every byte of the image is the matching channel of the pixel that owns it. */
  lemma ImageByte(w: nat, h: nat, i: nat)
    requires i < |Image(w, h)|
    ensures w > 0 && ByteOwner(w, i).1 < h
    ensures Image(w, h)[i] == Pixel(ByteOwner(w, i).0, ByteOwner(w, i).1)[ByteOwner(w, i).2]
  {
    var (x, y, k) := ByteOwner(w, i);
    ImageLength(w, h);
    if h <= y {
      MulLeq(h, y, w);
      assert false;
    }
    ImageAt(w, h, x, y, k);
  }

  /** Multiplying by the same factor keeps the order. */
  lemma MulLeq(a: nat, b: nat, c: nat)
    requires a <= b
    ensures a * c <= b * c
  {
    if a < b {
      MulLeq(a, b - 1, c);
    }
  }

  /** Rearrangements of the byte-count product the pitches and the allocation use. */
  lemma Assoc(a: nat, b: nat)
    ensures a * b == b * a
    ensures a * b * 4 == a * (b * 4) == (b * 4) * a
  {
  }

  /** A slice of the second part of a concatenation that begins a longer sequence. */
  lemma SliceAfterPrefix(s: seq<byte>, a: seq<byte>, b: seq<byte>, i: nat, j: nat)
    requires |a| + |b| <= |s| && s[..|a| + |b|] == a + b && i <= j <= |b|
    ensures s[|a| + i..|a| + j] == b[i..j]
  {
    forall n | 0 <= n < j - i
      ensures s[|a| + i..|a| + j][n] == b[i..j][n]
    {
      assert s[|a| + i + n] == s[..|a| + |b|][|a| + i + n] == (a + b)[|a| + i + n];
    }
  }

  /** A slice inside the first part of a concatenation. */
  lemma SliceOfPrefix(a: seq<byte>, b: seq<byte>, i: nat, j: nat)
    requires i <= j <= |a|
    ensures (a + b)[i..j] == a[i..j]
  {
  }
}
