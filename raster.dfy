/** Float RGBA rasters cooked from a compositing node, the in-place vertical
    flip that adapts the host's row order to the renderer's, and the
    reinterpretation of the pixel buffer as a list of 32-bit words. */
module Raster {

  /** The bit pattern of one 32-bit float component. No arithmetic is ever
      done on pixel values, so only the bits matter. */
  type Word = bv32

  /** One pixel of a PACK_RGBA / PXL_FLOAT32 raster: four float components. */
  datatype Pixel = Pixel(r: Word, g: Word, b: Word, a: Word)

  // ---------------------------------------------------------------------
  // Rows of a row-major buffer

  /** A slice of `ab == a + b` that lies inside `a`. */
  lemma SliceLeft<T>(ab: seq<T>, a: seq<T>, b: seq<T>, lo: nat, hi: nat)
    requires ab == a + b && lo <= hi <= |a|
    ensures hi <= |ab| && ab[lo .. hi] == a[lo .. hi]
  {
  }

  /** A slice of `ab == a + b` that lies inside `b`, at `loB .. hiB` there. */
  lemma SliceRight<T>(ab: seq<T>, a: seq<T>, b: seq<T>, lo: nat, hi: nat, loB: nat, hiB: nat)
    requires ab == a + b && loB <= hiB <= |b| && lo == loB + |a| && hi == hiB + |a|
    ensures lo <= hi <= |ab| && ab[lo .. hi] == b[loB .. hiB]
  {
  }

  /** The first `|a|` elements of `ab == a + b` are `a`. */
  lemma TakeLeft<T>(ab: seq<T>, a: seq<T>, b: seq<T>, n: nat)
    requires ab == a + b && n == |a|
    ensures n <= |ab| && ab[0 .. n] == a
  {
  }

  /** The slice from the start to the end is the whole sequence. */
  lemma SliceWhole<T>(a: seq<T>)
    ensures a[0 .. |a|] == a
  {
  }

  /** What follows `a` in `ab == a + b` is `b`. */
  lemma DropLeft<T>(ab: seq<T>, a: seq<T>, b: seq<T>, n: nat)
    requires ab == a + b && n == |a|
    ensures ab[n ..] == b
  {
  }

  /** The offset `r * w` of the first pixel of row `r`, built by repeated
      addition so that reasoning about rows stays linear. */
  function RowStart(w: nat, r: nat): nat {
    if r == 0 then 0 else RowStart(w, r - 1) + w
  }

  /** The row offset is the product of row and width. */
  lemma {:induction false} RowStartIsProduct(w: nat, r: nat)
    ensures RowStart(w, r) == r * w
  {
    if r > 0 {
      RowStartIsProduct(w, r - 1);
      assert (r - 1) * w + w == r * w;
    }
  }

  /** The end of row `r` lies within the first `h` rows. */
  lemma {:induction false} RowEndWithin(w: nat, r: nat, h: nat)
    requires r < h
    ensures RowStart(w, r) + w <= RowStart(w, h)
  {
    if r + 1 < h {
      RowEndWithin(w, r, h - 1);
    }
  }

  /** The position `r * w + c` of pixel (row r, column c) in a buffer of
      rows `w` pixels wide (see RowStartIsProduct). */
  function Index(w: nat, r: nat, c: nat): nat {
    RowStart(w, r) + c
  }

  /** Row `r` of a buffer holding (at least) `h` rows of `w` pixels each. */
  function RowOf(s: seq<Pixel>, w: nat, h: nat, r: nat): (row: seq<Pixel>)
    requires r < h && RowStart(w, h) <= |s|
    ensures |row| == w
  {
    RowEndWithin(w, r, h);
    s[RowStart(w, r) .. RowStart(w, r) + w]
  }

  /** `d` with the elements from `off` on overwritten by `piece`. */
  function Spliced(d: seq<Pixel>, off: nat, piece: seq<Pixel>): (t: seq<Pixel>)
    requires off + |piece| <= |d|
    ensures |t| == |d|
  {
    seq(|d|, k requires 0 <= k < |d| => if off <= k < off + |piece| then piece[k - off] else d[k])
  }

  /** Overwriting a whole sequence leaves only the new piece. */
  lemma SplicedWhole(d: seq<Pixel>, piece: seq<Pixel>)
    requires |piece| == |d|
    ensures Spliced(d, 0, piece) == piece
  {
  }

  /** `s` with row `j` replaced by `row`. */
  function SetRow(s: seq<Pixel>, w: nat, h: nat, j: nat, row: seq<Pixel>): (t: seq<Pixel>)
    requires j < h && RowStart(w, h) <= |s| && |row| == w
    ensures |t| == |s|
  {
    RowEndWithin(w, j, h);
    Spliced(s, RowStart(w, j), row)
  }

  /** Replacing a row leaves the pixels after the first `h` rows as they were. */
  lemma SetRowTail(s: seq<Pixel>, w: nat, h: nat, j: nat, row: seq<Pixel>)
    requires j < h && RowStart(w, h) <= |s| && |row| == w
    ensures SetRow(s, w, h, j, row)[RowStart(w, h) ..] == s[RowStart(w, h) ..]
  {
    RowEndWithin(w, j, h);
    var t := SetRow(s, w, h, j, row);
    assert forall k :: RowStart(w, h) <= k < |s| ==> t[k] == s[k];
  }

  /** Replacing one row leaves every other row as it was. */
  lemma {:induction false} RowOfSetRow(s: seq<Pixel>, w: nat, h: nat, j: nat, row: seq<Pixel>, r: nat)
    requires j < h && r < h && RowStart(w, h) <= |s| && |row| == w
    ensures RowOf(SetRow(s, w, h, j, row), w, h, r) == if r == j then row else RowOf(s, w, h, r)
  {
    RowEndWithin(w, j, h);
    RowEndWithin(w, r, h);
    var t := SetRow(s, w, h, j, row);
    if r < j {
      RowEndWithin(w, r, j);
      assert t[.. RowStart(w, j)] == s[.. RowStart(w, j)];
    } else if j < r {
      RowEndWithin(w, j, r);
      assert t[RowStart(w, j) + w ..] == s[RowStart(w, j) + w ..];
    }
  }

  /** Two buffers of one length that agree on the first `h` rows agree on
      their first `k` rows taken as one block. */
  lemma {:induction false} PrefixOfRows(s: seq<Pixel>, t: seq<Pixel>, w: nat, h: nat, k: nat)
    requires |s| == |t| && RowStart(w, h) <= |s| && k <= h
    requires forall r :: 0 <= r < h ==> RowOf(s, w, h, r) == RowOf(t, w, h, r)
    ensures RowStart(w, k) <= |s| && s[.. RowStart(w, k)] == t[.. RowStart(w, k)]
  {
    if k == 0 {
    } else {
      PrefixOfRows(s, t, w, h, k - 1);
      RowEndWithin(w, k - 1, h);
      assert s[.. RowStart(w, k)] == s[.. RowStart(w, k - 1)] + RowOf(s, w, h, k - 1);
      assert t[.. RowStart(w, k)] == t[.. RowStart(w, k - 1)] + RowOf(t, w, h, k - 1);
    }
  }

  /** A buffer is determined by its first `h` rows and what follows them. */
  lemma {:induction false} RowsDetermine(s: seq<Pixel>, t: seq<Pixel>, w: nat, h: nat)
    requires |s| == |t| && RowStart(w, h) <= |s|
    requires forall r :: 0 <= r < h ==> RowOf(s, w, h, r) == RowOf(t, w, h, r)
    requires s[RowStart(w, h) ..] == t[RowStart(w, h) ..]
    ensures s == t
  {
    PrefixOfRows(s, t, w, h, h);
    assert s == s[.. RowStart(w, h)] + s[RowStart(w, h) ..];
    assert t == t[.. RowStart(w, h)] + t[RowStart(w, h) ..];
  }

  // ---------------------------------------------------------------------
  // Specification of the vertical flip

  /** Rows `k - 1`, `k - 2`, ..., `0` of `s`, concatenated in that order. */
  function ReversedRows(s: seq<Pixel>, w: nat, k: nat): (t: seq<Pixel>)
    requires RowStart(w, k) <= |s|
    ensures |t| == RowStart(w, k)
    decreases k
  {
    if k == 0 then []
    else RowOf(s, w, k, k - 1) + ReversedRows(s, w, k - 1)
  }

  /** The first `h` rows of `s` in reverse order; the pixels after them are kept. */
  function FlippedV(s: seq<Pixel>, w: nat, h: nat): (t: seq<Pixel>)
    requires h * w <= |s|
    ensures |t| == |s|
  {
    RowStartIsProduct(w, h);
    ReversedRows(s, w, h) + s[h * w ..]
  }

  /** The flip keeps every pixel after the first `h` rows where it was. */
  lemma FlippedTail(s: seq<Pixel>, w: nat, h: nat)
    requires h * w <= |s|
    ensures RowStart(w, h) == h * w
    ensures FlippedV(s, w, h)[h * w ..] == s[h * w ..]
  {
    RowStartIsProduct(w, h);
    DropLeft(FlippedV(s, w, h), ReversedRows(s, w, h), s[h * w ..], h * w);
  }

  /** The first block of the reversed rows is the last of the `k` rows. */
  lemma ReversedRowsFirst(s: seq<Pixel>, w: nat, h: nat, k: nat, m: nat)
    requires m + 1 == k <= h && RowStart(w, h) <= |s|
    ensures RowStart(w, k) <= |s| && RowStart(w, 0) + w <= RowStart(w, k)
    ensures ReversedRows(s, w, k)[RowStart(w, 0) .. RowStart(w, 0) + w] == RowOf(s, w, h, m)
  {
    RowEndWithin(w, m, h);
    TakeLeft(ReversedRows(s, w, k), RowOf(s, w, h, m), ReversedRows(s, w, m), w);
  }

  /** Block `r` of `k` reversed rows is block `r - 1` of the first `k - 1`. */
  lemma ReversedRowsNext(s: seq<Pixel>, w: nat, h: nat, k: nat, r: nat)
    requires 0 < r < k <= h && RowStart(w, h) <= |s|
    ensures RowStart(w, k) <= |s| && RowStart(w, r) + w <= RowStart(w, k)
    ensures RowStart(w, r - 1) + w <= RowStart(w, k - 1)
    ensures ReversedRows(s, w, k)[RowStart(w, r) .. RowStart(w, r) + w]
         == ReversedRows(s, w, k - 1)[RowStart(w, r - 1) .. RowStart(w, r - 1) + w]
  {
    RowEndWithin(w, k - 1, h);
    RowEndWithin(w, r - 1, k - 1);
    SliceRight(ReversedRows(s, w, k), RowOf(s, w, k, k - 1), ReversedRows(s, w, k - 1),
      RowStart(w, r), RowStart(w, r) + w, RowStart(w, r - 1), RowStart(w, r - 1) + w);
  }

  /** Block `r` of `k` reversed rows is row `m` of the input, where `r` and
      `m` face each other (`r + m == k - 1`). */
  lemma {:induction false} ReversedRowsRow(s: seq<Pixel>, w: nat, h: nat, k: nat, r: nat, m: nat)
    requires k <= h && RowStart(w, h) <= |s| && r + m + 1 == k
    ensures RowStart(w, k) <= |s| && RowStart(w, r) + w <= RowStart(w, k)
    ensures ReversedRows(s, w, k)[RowStart(w, r) .. RowStart(w, r) + w] == RowOf(s, w, h, m)
  {
    if r == 0 {
      ReversedRowsFirst(s, w, h, k, m);
    } else {
      ReversedRowsRow(s, w, h, k - 1, r - 1, m);
      ReversedRowsNext(s, w, h, k, r);
    }
  }

  /** Row `r` of the flipped buffer is row `m` of the original whenever the
      two face each other across the middle (`r + m == h - 1`). */
  lemma FlippedRow(s: seq<Pixel>, w: nat, h: nat, r: nat, m: nat)
    requires h * w <= |s| && r + m + 1 == h
    ensures RowStart(w, h) <= |s|
    ensures RowOf(FlippedV(s, w, h), w, h, r) == RowOf(s, w, h, m)
  {
    RowStartIsProduct(w, h);
    ReversedRowsRow(s, w, h, h, r, m);
    SliceLeft(FlippedV(s, w, h), ReversedRows(s, w, h), s[h * w ..], RowStart(w, r), RowStart(w, r) + w);
  }

  /** A pixel of a row, addressed from the start of the buffer. */
  lemma PixelOfRow(s: seq<Pixel>, w: nat, h: nat, r: nat, c: nat)
    requires r < h && RowStart(w, h) <= |s| && c < w
    ensures RowStart(w, r) + c < |s| && RowOf(s, w, h, r)[c] == s[RowStart(w, r) + c]
  {
    RowEndWithin(w, r, h);
  }

  /** Pixel (row r, column c) of the flipped buffer is the original pixel
      (row h - 1 - r, column c): only the order of rows changes. */
  lemma FlippedAt(s: seq<Pixel>, w: nat, h: nat, r: nat, c: nat)
    requires h * w <= |s| && r < h && c < w
    ensures Index(w, r, c) < |s| && Index(w, h - 1 - r, c) < |s|
    ensures FlippedV(s, w, h)[Index(w, r, c)] == s[Index(w, h - 1 - r, c)]
  {
    FlippedRow(s, w, h, r, h - 1 - r);
    PixelOfRow(FlippedV(s, w, h), w, h, r, c);
    PixelOfRow(s, w, h, h - 1 - r, c);
  }

  /** For an odd height the middle row is a fixed point of the flip. */
  lemma MiddleRowFixed(s: seq<Pixel>, w: nat, h: nat)
    requires h * w <= |s| && h % 2 == 1
    ensures RowStart(w, h) <= |s|
    ensures RowOf(FlippedV(s, w, h), w, h, (h - 1) / 2) == RowOf(s, w, h, (h - 1) / 2)
  {
    FlippedRow(s, w, h, (h - 1) / 2, (h - 1) / 2);
  }

  /** Row `r` of the twice-flipped buffer is row `r` of the original. */
  lemma FlipTwiceRow(s: seq<Pixel>, w: nat, h: nat, r: nat)
    requires h * w <= |s| && r < h
    ensures RowStart(w, h) <= |s|
    ensures RowOf(FlippedV(FlippedV(s, w, h), w, h), w, h, r) == RowOf(s, w, h, r)
  {
    var m := h - 1 - r;
    FlippedRow(FlippedV(s, w, h), w, h, r, m);
    FlippedRow(s, w, h, m, r);
  }

  /** Flipping twice restores the original buffer. */
  lemma FlipTwice(s: seq<Pixel>, w: nat, h: nat)
    requires h * w <= |s|
    ensures FlippedV(FlippedV(s, w, h), w, h) == s
  {
    RowStartIsProduct(w, h);
    forall r | 0 <= r < h
      ensures RowOf(FlippedV(FlippedV(s, w, h), w, h), w, h, r) == RowOf(s, w, h, r)
    {
      FlipTwiceRow(s, w, h, r);
    }
    RowsDetermine(FlippedV(FlippedV(s, w, h), w, h), s, w, h);
  }

  // ---------------------------------------------------------------------
  // The in-place flip

  /** Copies `n` pixels from `src[srcOff..]` to `dst[dstOff..]`, as a memcpy
      whose source and destination ranges do not partly overlap. */
  method CopyPixels(dst: array<Pixel>, dstOff: nat, src: array<Pixel>, srcOff: nat, n: nat)
    requires dstOff + n <= dst.Length && srcOff + n <= src.Length
    requires src != dst || dstOff == srcOff || dstOff + n <= srcOff || srcOff + n <= dstOff
    modifies dst
    ensures dst[..] == Spliced(old(dst[..]), dstOff, old(src[srcOff .. srcOff + n]))
    ensures src != dst ==> src[..] == old(src[..])
  {
    forall k | 0 <= k < n {
      dst[dstOff + k] := src[srcOff + k];
    }
  }

  /** What row `r` holds once the outer `i` rows at each end have been
      swapped with the rows they face across the middle. */
  function PartlyFlippedRow(orig: seq<Pixel>, w: nat, h: nat, i: nat, r: nat): seq<Pixel>
    requires r < h && RowStart(w, h) <= |orig|
  {
    if r < i || h - i <= r then RowOf(orig, w, h, h - 1 - r) else RowOf(orig, w, h, r)
  }

  /** `cur` is `orig` with its outer `i` rows at each end swapped. */
  ghost predicate FlippedUpTo(cur: seq<Pixel>, orig: seq<Pixel>, w: nat, h: nat, i: nat)
    requires RowStart(w, h) <= |orig|
  {
    |cur| == |orig| && cur[RowStart(w, h) ..] == orig[RowStart(w, h) ..] &&
    forall r {:trigger RowOf(cur, w, h, r)} :: 0 <= r < h ==>
      RowOf(cur, w, h, r) == PartlyFlippedRow(orig, w, h, i, r)
  }

  /** The buffer after rows `i` and `h - 1 - i` trade places. */
  function SwapRows(s: seq<Pixel>, w: nat, h: nat, i: nat): (t: seq<Pixel>)
    requires i < h && RowStart(w, h) <= |s|
    ensures |t| == |s|
  {
    SetRow(SetRow(s, w, h, i, RowOf(s, w, h, h - 1 - i)), w, h, h - 1 - i, RowOf(s, w, h, i))
  }

  /** After the swap of rows `i` and `h - 1 - i`, row `r` holds what the
      flipped part one row larger says it should. */
  lemma SwapStepRow(cur: seq<Pixel>, orig: seq<Pixel>, w: nat, h: nat, i: nat, r: nat)
    requires RowStart(w, h) <= |orig| && |cur| == |orig| && i <= h - 1 - i && r < h
    requires RowOf(cur, w, h, i) == RowOf(orig, w, h, i)
    requires RowOf(cur, w, h, h - 1 - i) == RowOf(orig, w, h, h - 1 - i)
    requires RowOf(cur, w, h, r) == PartlyFlippedRow(orig, w, h, i, r)
    ensures RowOf(SwapRows(cur, w, h, i), w, h, r) == PartlyFlippedRow(orig, w, h, i + 1, r)
  {
    var j := h - 1 - i;
    var mid := SetRow(cur, w, h, i, RowOf(cur, w, h, j));
    RowOfSetRow(mid, w, h, j, RowOf(cur, w, h, i), r);
    RowOfSetRow(cur, w, h, i, RowOf(cur, w, h, j), r);
    if r == j {
      assert h - 1 - r == i;
    } else if r == i {
      assert h - 1 - r == j;
    } else {
      assert (r < i + 1 || h - (i + 1) <= r) == (r < i || h - i <= r);
    }
  }

  /** One swap of facing rows extends the flipped part by one row at each end. */
  lemma SwapStep(cur: seq<Pixel>, orig: seq<Pixel>, w: nat, h: nat, i: nat)
    requires RowStart(w, h) <= |orig| && i <= h - 1 - i
    requires FlippedUpTo(cur, orig, w, h, i)
    ensures FlippedUpTo(SwapRows(cur, w, h, i), orig, w, h, i + 1)
  {
    var mid := SetRow(cur, w, h, i, RowOf(cur, w, h, h - 1 - i));
    SetRowTail(cur, w, h, i, RowOf(cur, w, h, h - 1 - i));
    SetRowTail(mid, w, h, h - 1 - i, RowOf(cur, w, h, i));
    assert RowOf(cur, w, h, i) == PartlyFlippedRow(orig, w, h, i, i);
    assert RowOf(cur, w, h, h - 1 - i) == PartlyFlippedRow(orig, w, h, i, h - 1 - i);
    forall r | 0 <= r < h
      ensures RowOf(SwapRows(cur, w, h, i), w, h, r) == PartlyFlippedRow(orig, w, h, i + 1, r)
    {
      assert RowOf(cur, w, h, r) == PartlyFlippedRow(orig, w, h, i, r);
      SwapStepRow(cur, orig, w, h, i, r);
    }
  }

  /** Once the outer ceil(h / 2) rows at each end are swapped, every row
      faces its original position. */
  lemma HalfSwappedRow(orig: seq<Pixel>, w: nat, h: nat, r: nat)
    requires RowStart(w, h) <= |orig| && r < h
    ensures PartlyFlippedRow(orig, w, h, (h + 1) / 2, r) == RowOf(orig, w, h, h - 1 - r)
  {
    var half := (h + 1) / 2;
    assert r < half || h - half <= r;
  }

  /** Once the outer ceil(h / 2) rows at each end are swapped, each of
      the first `h` rows is that row of the flipped buffer. */
  lemma HalfSwappedRows(cur: seq<Pixel>, orig: seq<Pixel>, w: nat, h: nat)
    requires h * w <= |orig|
    requires RowStart(w, h) <= |orig| && FlippedUpTo(cur, orig, w, h, (h + 1) / 2)
    ensures forall r :: 0 <= r < h ==> RowOf(cur, w, h, r) == RowOf(FlippedV(orig, w, h), w, h, r)
  {
    forall r | 0 <= r < h
      ensures RowOf(cur, w, h, r) == RowOf(FlippedV(orig, w, h), w, h, r)
    {
      FlippedRow(orig, w, h, r, h - 1 - r);
      HalfSwappedRow(orig, w, h, r);
      assert RowOf(cur, w, h, r) == PartlyFlippedRow(orig, w, h, (h + 1) / 2, r);
    }
  }

  /** Once the outer ceil(h / 2) rows at each end are swapped, the buffer is flipped. */
  lemma FlippedUpToHalf(cur: seq<Pixel>, orig: seq<Pixel>, w: nat, h: nat)
    requires h * w <= |orig|
    requires RowStart(w, h) <= |orig| && FlippedUpTo(cur, orig, w, h, (h + 1) / 2)
    ensures cur == FlippedV(orig, w, h)
  {
    FlippedTail(orig, w, h);
    HalfSwappedRows(cur, orig, w, h);
    RowsDetermine(cur, FlippedV(orig, w, h), w, h);
  }

  /** Reverses the order of the first `h` rows of a buffer of rows `w` pixels
      wide, in place, swapping rows `i` and `h - 1 - i` for each of the
      ceil(h / 2) upper rows through one scratch row. */
  method FlipRasterU(pixels: array<Pixel>, w: nat, h: nat)
    requires h * w <= pixels.Length
    modifies pixels
    ensures pixels[..] == FlippedV(old(pixels[..]), w, h)
  {
    ghost var orig := pixels[..];
    RowStartIsProduct(w, h);
    var halfH := (h + 1) / 2;
    var rowBuf := new Pixel[w];
    var i := 0;
    while i < halfH
      invariant 0 <= i <= halfH
      invariant FlippedUpTo(pixels[..], orig, w, h, i)
    {
      ghost var before := pixels[..];
      SwapFacingRows(pixels, rowBuf, w, h, i);
      SwapStep(before, orig, w, h, i);
      i := i + 1;
    }
    FlippedUpToHalf(pixels[..], orig, w, h);
  }

  /** One step of the flip: rows `i` and `h - 1 - i` trade places through
      the scratch row `rowBuf`. */
  method SwapFacingRows(pixels: array<Pixel>, rowBuf: array<Pixel>, w: nat, h: nat, i: nat)
    requires pixels != rowBuf && rowBuf.Length == w
    requires RowStart(w, h) <= pixels.Length && i < (h + 1) / 2
    modifies pixels, rowBuf
    ensures pixels[..] == SwapRows(old(pixels[..]), w, h, i)
  {
    var toRow := i * w;
    var fromRow := (h - 1 - i) * w;
    RowStartIsProduct(w, i);
    RowStartIsProduct(w, h - 1 - i);
    FlipStepBounds(w, h, i);
    ghost var before := pixels[..];
    CopyPixels(rowBuf, 0, pixels, toRow, w);
    ghost var saved := RowOf(before, w, h, i);
    SplicedWhole(old(rowBuf[..]), saved);
    CopyPixels(pixels, toRow, pixels, fromRow, w);
    assert rowBuf[..] == saved;
    assert pixels[..] == SetRow(before, w, h, i, RowOf(before, w, h, h - 1 - i));
    CopyPixels(pixels, fromRow, rowBuf, 0, w);
    SliceWhole(saved);
  }

  /** In step `i` of the flip both rows lie within the first `h` rows, and
      the upper one ends before the lower one starts unless they coincide. */
  lemma FlipStepBounds(w: nat, h: nat, i: nat)
    requires i < (h + 1) / 2
    ensures RowStart(w, i) + w <= RowStart(w, h)
    ensures RowStart(w, h - 1 - i) + w <= RowStart(w, h)
    ensures i == h - 1 - i || RowStart(w, i) + w <= RowStart(w, h - 1 - i)
  {
    RowEndWithin(w, i, h);
    RowEndWithin(w, h - 1 - i, h);
    if i < h - 1 - i {
      RowEndWithin(w, i, h - 1 - i);
    }
  }

  // ---------------------------------------------------------------------
  // Pixels as machine words

  /** The buffer reinterpreted as 32-bit words, four per pixel in r, g, b, a order. */
  function PixelWords(ps: seq<Pixel>): (ws: seq<Word>)
    ensures |ws| == 4 * |ps|
  {
    if ps == [] then [] else [ps[0].r, ps[0].g, ps[0].b, ps[0].a] + PixelWords(ps[1..])
  }

  /** Words `4 * i` to `4 * i + 3` are the components of pixel `i`. */
  lemma {:induction false} PixelWordsAt(ps: seq<Pixel>, i: nat)
    requires i < |ps|
    ensures PixelWords(ps)[4 * i .. 4 * i + 4] == [ps[i].r, ps[i].g, ps[i].b, ps[i].a]
  {
    if i > 0 {
      PixelWordsAt(ps[1..], i - 1);
      var head := [ps[0].r, ps[0].g, ps[0].b, ps[0].a];
      assert PixelWords(ps) == head + PixelWords(ps[1..]);
      assert (head + PixelWords(ps[1..]))[4 * i .. 4 * i + 4] == PixelWords(ps[1..])[4 * (i - 1) .. 4 * (i - 1) + 4];
    }
  }

  /** The words of pixel (row r, column c) of the flipped buffer are the
      components of the original pixel (row h - 1 - r, column c). */
  lemma FlippedWordsAt(s: seq<Pixel>, w: nat, h: nat, r: nat, c: nat)
    requires h * w <= |s| && r < h && c < w
    ensures Index(w, h - 1 - r, c) < |s| && 4 * Index(w, r, c) + 4 <= |PixelWords(FlippedV(s, w, h))|
    ensures
      var p := s[Index(w, h - 1 - r, c)];
      PixelWords(FlippedV(s, w, h))[4 * Index(w, r, c) .. 4 * Index(w, r, c) + 4] == [p.r, p.g, p.b, p.a]
  {
    FlippedAt(s, w, h, r, c);
    PixelWordsAt(FlippedV(s, w, h), Index(w, r, c));
  }

  /** Groups a word list back into pixels, four words per pixel. */
  function WordPixels(ws: seq<Word>): (ps: seq<Pixel>)
    requires |ws| % 4 == 0
    ensures 4 * |ps| == |ws|
    decreases |ws|
  {
    if ws == [] then [] else [Pixel(ws[0], ws[1], ws[2], ws[3])] + WordPixels(ws[4..])
  }

  /** Reading the words back as pixels gives the original pixels: the
      reinterpretation loses nothing. */
  lemma {:induction false} WordsRoundTrip(ps: seq<Pixel>)
    ensures |PixelWords(ps)| % 4 == 0 && WordPixels(PixelWords(ps)) == ps
  {
    if ps != [] {
      WordsRoundTrip(ps[1..]);
      var ws := PixelWords(ps);
      assert ws[4..] == PixelWords(ps[1..]);
    }
  }
}
