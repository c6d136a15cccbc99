/**
 * The frame loader of SpeFile._read: the numpy element type that the header's
 * datatype code selects, how many items np.fromfile reads, the reshape to
 * (NumFrames, ydim, xdim), np.rollaxis to (NumFrames, xdim, ydim) and the
 * conditional reversal of axis 1. numpy's operations are modelled by their
 * index maps over sequences.
 */
module Frames {
  import opened Wrappers
  import opened Bytes
  import opened Sequences

  // ----- Element types ---------------------------------------------------------

  /** The numpy element types of `_datatype_map`. */
  datatype DType = Float32 | Int32 | Int16 | UInt16

  /** The header datatype code that selects d. */
  function Code(d: DType): nat
  {
    match d
    case Float32 => 0
    case Int32 => 1
    case Int16 => 2
    case UInt16 => 3
  }

  /**
   * `SpeFile._datatype_map[code]`: None is the KeyError that indexing the
   * dictionary with any other code raises.
   */
  function DatatypeMap(code: int): (d: Option<DType>)
    ensures d.Some? <==> 0 <= code <= 3
  {
    if code == 0 then Some(Float32)
    else if code == 1 then Some(Int32)
    else if code == 2 then Some(Int16)
    else if code == 3 then Some(UInt16)
    else None
  }

  /** The map and Code are inverse: code c selects d exactly when d's code is c. */
  lemma DatatypeMapInverse(c: int, d: DType)
    ensures DatatypeMap(c) == Some(d) <==> c == Code(d)
  {
  }

  /** The item size of each element type in bytes. */
  function ItemSize(d: DType): (n: nat)
    ensures n == 2 || n == 4
    ensures n == 4 <==> d == Float32 || d == Int32
  {
    match d
    case Float32 => 4
    case Int32 => 4
    case Int16 => 2
    case UInt16 => 2
  }

  /**
   * One pixel value as numpy holds it: an integer for the integer types and,
   * for float32, the four bytes of the IEEE 754 single.
   */
  datatype Sample = Int(v: int) | Float32Bits(bits: seq<Byte>)

  /** The value numpy reads from one little-endian item of type d. */
  function DecodeItem(d: DType, b: seq<Byte>): (s: Sample)
    requires |b| == ItemSize(d)
    ensures s.Float32Bits? <==> d == Float32
    ensures d == Int32 ==> -0x8000_0000 <= s.v < 0x8000_0000
    ensures d == Int16 ==> -0x8000 <= s.v < 0x8000
    ensures d == UInt16 ==> 0 <= s.v < 0x1_0000
  {
    match d
    case Float32 => Float32Bits(b)
    case Int32 => Int(LeSigned(b))
    case Int16 => Int(LeSigned(b))
    case UInt16 => Int(LeUnsigned(b))
  }

  /** s is a value an item of type d can hold. */
  predicate Holds(d: DType, s: Sample)
  {
    match d
    case Float32 => s.Float32Bits? && |s.bits| == 4
    case Int32 => s.Int? && -0x8000_0000 <= s.v < 0x8000_0000
    case Int16 => s.Int? && -0x8000 <= s.v < 0x8000
    case UInt16 => s.Int? && 0 <= s.v < 0x1_0000
  }

  /** The bytes that store s as an item of type d. */
  function EncodeItem(d: DType, s: Sample): (b: seq<Byte>)
    requires Holds(d, s)
    ensures |b| == ItemSize(d)
  {
    match d
    case Float32 => s.bits
    case Int32 => SignedEncode(s.v, 4)
    case Int16 => SignedEncode(s.v, 2)
    case UInt16 => LeEncode(s.v, 2)
  }

  lemma ItemBytesRoundTrip(d: DType, b: seq<Byte>)
    requires |b| == ItemSize(d)
    ensures Holds(d, DecodeItem(d, b)) && EncodeItem(d, DecodeItem(d, b)) == b
  {
    match d
    case Float32 =>
    case Int32 => SignedEncodeDecode(b);
    case Int16 => SignedEncodeDecode(b);
    case UInt16 => LeEncodeDecode(b);
  }

  lemma ItemValueRoundTrip(d: DType, s: Sample)
    requires Holds(d, s)
    ensures DecodeItem(d, EncodeItem(d, s)) == s
  {
    match d
    case Float32 =>
    case Int32 => SignedDecodeEncode(s.v, 4);
    case Int16 => SignedDecodeEncode(s.v, 2);
    case UInt16 => LeDecodeEncode(s.v, 2);
  }

  // ----- np.fromfile -----------------------------------------------------------

  /**
   * The items `np.fromfile(f, dtype, count)` reads one after another from the
   * payload after the header: a negative count reads every whole item, any
   * other count at most that many; a short payload gives fewer items, without
   * an error. A partial item at the end is not read.
   */
  function FromFile(payload: seq<Byte>, d: DType, count: int): (items: seq<Sample>)
    ensures |items| * ItemSize(d) <= |payload|
    ensures count >= 0 ==> |items| <= count
    ensures |items| == count || |payload| - |items| * ItemSize(d) < ItemSize(d)
    ensures forall k :: 0 <= k < |items| ==>
      (k + 1) * ItemSize(d) <= |payload| &&
      items[k] == DecodeItem(d, payload[k * ItemSize(d)..(k + 1) * ItemSize(d)])
    decreases |payload|
  {
    var w := ItemSize(d);
    if count == 0 || |payload| < w then []
    else
      var rest := FromFile(payload[w..], d, if count < 0 then count else count - 1);
      FromFileStep(payload, d, rest);
      [DecodeItem(d, payload[..w])] + rest
  }

  /** Item j of what follows the first item is item j + 1 of the payload. */
  lemma FromFileStep(payload: seq<Byte>, d: DType, rest: seq<Sample>)
    requires |payload| >= ItemSize(d)
    requires |rest| * ItemSize(d) <= |payload| - ItemSize(d)
    requires forall k :: 0 <= k < |rest| ==>
      (k + 1) * ItemSize(d) <= |payload| - ItemSize(d) &&
      rest[k] == DecodeItem(d, payload[ItemSize(d)..][k * ItemSize(d)..(k + 1) * ItemSize(d)])
    ensures (|rest| + 1) * ItemSize(d) == |rest| * ItemSize(d) + ItemSize(d)
    ensures forall j :: 0 <= j < |rest| ==>
      (j + 2) * ItemSize(d) <= |payload| &&
      rest[j] == DecodeItem(d, payload[(j + 1) * ItemSize(d)..(j + 2) * ItemSize(d)])
  {
    var w := ItemSize(d);
    forall j | 0 <= j < |rest|
      ensures (j + 2) * w <= |payload|
      ensures rest[j] == DecodeItem(d, payload[(j + 1) * w..(j + 2) * w])
    {
      assert (j + 1) * w == j * w + w && (j + 2) * w == (j + 1) * w + w;
      assert payload[w..][j * w..(j + 1) * w] == payload[(j + 1) * w..(j + 2) * w];
    }
  }

  /** A payload with room for count items gives exactly count of them. */
  lemma FromFileFull(payload: seq<Byte>, d: DType, count: nat)
    requires count * ItemSize(d) <= |payload|
    ensures |FromFile(payload, d, count)| == count
  {
    var n := |FromFile(payload, d, count)|;
    if n < count {
      ChunkBound(count, ItemSize(d), n);
    }
  }

  /** With a negative count, np.fromfile reads every whole item of the payload. */
  lemma FromFileAll(payload: seq<Byte>, d: DType, count: int)
    requires count < 0
    ensures |FromFile(payload, d, count)| == |payload| / ItemSize(d)
  {
    var n := |FromFile(payload, d, count)|;
    DivUnique(|payload|, ItemSize(d), n);
  }

  /**
   * The item count np.fromfile settles on when it is asked for a negative
   * count: the bytes from the read position to the end of the file, divided by
   * the item size with C's division, which truncates toward zero. A position at
   * least one item past the end gives a negative count, which numpy refuses as
   * a negative dimension (ValueError); a position less than one item past the
   * end gives no items.
   */
  function RemainingItems(fileLength: nat, pos: nat, d: DType): (n: int)
    ensures n < 0 <==> fileLength + ItemSize(d) <= pos
    ensures pos <= fileLength ==> n == (fileLength - pos) / ItemSize(d)
    ensures fileLength < pos < fileLength + ItemSize(d) ==> n == 0
  {
    var bytes := fileLength - pos;
    if bytes >= 0 then bytes / ItemSize(d) else -((-bytes) / ItemSize(d))
  }

  /** q is n / w when q * w <= n < q * w + w. */
  lemma DivUnique(n: nat, w: nat, q: nat)
    requires w > 0 && q * w <= n < q * w + w
    ensures n / w == q
  {
    var p := n / w;
    assert p * w + n % w == n && 0 <= n % w < w;
    if p > q {
      ChunkBound(p, w, q);
    } else if p < q {
      ChunkBound(q, w, p);
    }
  }

  /** a <= b gives a * c <= b * c. */
  lemma {:induction false} MulMono(a: nat, b: nat, c: nat)
    requires a <= b
    ensures a * c <= b * c
  {
    if c > 0 {
      MulMono(a, b, c - 1);
      assert a * c == a * (c - 1) + a && b * c == b * (c - 1) + b;
    }
  }

  // ----- reshape, rollaxis and the flip -----------------------------------------

  /** The shape (frames, rows, columns) of a three-dimensional array. */
  datatype Shape = Shape(frames: nat, rows: nat, cols: nat)

  function Volume(s: Shape): nat
  {
    s.frames * s.rows * s.cols
  }

  /**
   * The shape `reshape((f, rows, cols))` gives an array of n items: a negative
   * f is numpy's unknown dimension, which takes the size that makes the
   * product n. None is the ValueError numpy raises when no such shape exists.
   * rows and cols are ydim and xdim, which are unsigned.
   */
  function ReshapeShape(n: nat, f: int, rows: nat, cols: nat): (s: Option<Shape>)
    ensures s.Some? ==> Volume(s.value) == n && s.value.rows == rows && s.value.cols == cols
    ensures f >= 0 ==> (s.Some? <==> f * rows * cols == n)
    ensures f >= 0 && s.Some? ==> s.value.frames == f
    ensures f < 0 ==> (s.Some? <==> rows * cols > 0 && n % (rows * cols) == 0)
  {
    if f >= 0 then
      if f * rows * cols == n then Some(Shape(f, rows, cols)) else None
    else
      var known := rows * cols;
      if known == 0 || n % known != 0 then None
      else
        assert n / known * rows * cols == n / known * known;
        Some(Shape(n / known, rows, cols))
  }

  /** Frame f of n items laid out in frames of size items each. */
  function Chunks<T>(flat: seq<T>, n: nat, size: nat): (cs: seq<seq<T>>)
    requires |flat| == n * size
    ensures |cs| == n && forall i :: 0 <= i < n ==> |cs[i]| == size
  {
    seq(n, i requires 0 <= i < n => Chunk(flat, n, size, i))
  }

  /** Frame i: the size items from i * size on. */
  function Chunk<T>(flat: seq<T>, n: nat, size: nat, i: nat): (c: seq<T>)
    requires |flat| == n * size && i < n
    ensures |c| == size && i * size + size <= |flat|
    ensures forall k :: 0 <= k < size ==> c[k] == flat[i * size + k]
  {
    ChunkBound(n, size, i);
    flat[i * size..i * size + size]
  }

  lemma ChunkBound(n: nat, size: nat, i: nat)
    requires i < n
    ensures i * size + size == (i + 1) * size <= n * size
  {
    MulMono(i + 1, n, size);
  }

  /** `flat.reshape(s)`: the items in C order, frames of rows of columns. */
  function Reshape<T>(flat: seq<T>, s: Shape): (a: seq<seq<seq<T>>>)
    requires |flat| == Volume(s)
    ensures HasShape(a, s)
  {
    var frames := Chunks(flat, s.frames, s.rows * s.cols);
    seq(s.frames, f requires 0 <= f < s.frames => Chunks(frames[f], s.rows, s.cols))
  }

  /** a has shape s: a[f][i][j] exists for f < s.frames, i < s.rows, j < s.cols. */
  predicate HasShape<T>(a: seq<seq<seq<T>>>, s: Shape)
  {
    |a| == s.frames &&
    (forall f :: 0 <= f < |a| ==> |a[f]| == s.rows) &&
    (forall f, i :: 0 <= f < |a| && 0 <= i < |a[f]| ==> |a[f][i]| == s.cols)
  }

  /** The position of item (f, i, j) in C order. */
  function FlatIndex(s: Shape, f: nat, i: nat, j: nat): nat
  {
    (f * s.rows + i) * s.cols + j
  }

  /** Item (f, i, j) of the reshaped array is item (f * rows + i) * cols + j of the flat one. */
  lemma ReshapeAt<T>(flat: seq<T>, s: Shape, f: nat, i: nat, j: nat)
    requires |flat| == Volume(s) && f < s.frames && i < s.rows && j < s.cols
    ensures FlatIndex(s, f, i, j) < |flat|
    ensures Reshape(flat, s)[f][i][j] == flat[FlatIndex(s, f, i, j)]
  {
    var rc := s.rows * s.cols;
    IndexSplit(s, f, i, j);
    VolumeSplit(s);
    var frame := Chunks(flat, s.frames, rc)[f];
    assert Reshape(flat, s)[f] == Chunks(frame, s.rows, s.cols);
    ChunksAt(frame, s.rows, s.cols, i, j);
    ChunksAt(flat, s.frames, rc, f, i * s.cols + j);
  }

  /** Entry k of chunk i is item i * size + k. */
  lemma ChunksAt<T>(flat: seq<T>, n: nat, size: nat, i: nat, k: nat)
    requires |flat| == n * size && i < n && k < size
    ensures i * size + k < |flat|
    ensures Chunks(flat, n, size)[i][k] == flat[i * size + k]
  {
    assert Chunks(flat, n, size)[i] == Chunk(flat, n, size, i);
  }

  /** The position of (f, i, j) is that of frame f plus that of (i, j) inside it. */
  lemma IndexSplit(s: Shape, f: nat, i: nat, j: nat)
    requires i < s.rows && j < s.cols
    ensures FlatIndex(s, f, i, j) == f * (s.rows * s.cols) + (i * s.cols + j)
    ensures i * s.cols + j < s.rows * s.cols
  {
    assert (f * s.rows + i) * s.cols == f * s.rows * s.cols + i * s.cols;
    assert f * s.rows * s.cols == f * (s.rows * s.cols);
    ChunkBound(s.rows, s.cols, i);
  }

  lemma VolumeSplit(s: Shape)
    ensures Volume(s) == s.frames * (s.rows * s.cols)
  {
  }

  /** The shape after swapping rows and columns. */
  function Swapped(s: Shape): Shape
  {
    Shape(s.frames, s.cols, s.rows)
  }

  /**
   * `np.rollaxis(a, 2, 1)` on an array of shape s: axis 2 moves in front of
   * axis 1, so every frame is transposed.
   */
  function RollAxis<T>(a: seq<seq<seq<T>>>, s: Shape): (r: seq<seq<seq<T>>>)
    requires HasShape(a, s)
    ensures HasShape(r, Swapped(s))
    ensures forall f, j, i :: 0 <= f < s.frames && 0 <= j < s.cols && 0 <= i < s.rows ==>
      r[f][j][i] == a[f][i][j]
  {
    seq(s.frames, f requires 0 <= f < s.frames =>
      seq(s.cols, j requires 0 <= j < s.cols =>
        seq(s.rows, i requires 0 <= i < s.rows => a[f][i][j])))
  }

  /** Rolling the axes twice gives the array back. */
  lemma {:induction false} RollAxisTwice<T>(a: seq<seq<seq<T>>>, s: Shape)
    requires HasShape(a, s)
    ensures RollAxis(RollAxis(a, s), Swapped(s)) == a
  {
    var b := RollAxis(RollAxis(a, s), Swapped(s));
    assert |b| == |a|;
    forall f | 0 <= f < s.frames
      ensures b[f] == a[f]
    {
      assert |b[f]| == |a[f]|;
      forall i | 0 <= i < s.rows
        ensures b[f][i] == a[f][i]
      {
        assert |b[f][i]| == |a[f][i]|;
      }
    }
  }

  /** `a[:, ::-1, :]`: every frame with the order of its axis-1 entries reversed. */
  function FlipAxis1<T>(a: seq<seq<seq<T>>>): (r: seq<seq<seq<T>>>)
    ensures |r| == |a|
  {
    seq(|a|, f requires 0 <= f < |a| => Reverse(a[f]))
  }

  /** The flip keeps the shape. */
  lemma FlipShape<T>(a: seq<seq<seq<T>>>, s: Shape)
    requires HasShape(a, s)
    ensures HasShape(FlipAxis1(a), s)
  {
    forall f, k | 0 <= f < s.frames && 0 <= k < s.rows
      ensures |FlipAxis1(a)[f][k]| == s.cols
    {
      ReverseAt(a[f], k);
    }
  }

  /** The flip sends entry (f, i, j) to (f, rows - 1 - i, j). */
  lemma FlipAxis1At<T>(a: seq<seq<seq<T>>>, s: Shape, f: nat, i: nat, j: nat)
    requires HasShape(a, s) && f < s.frames && i < s.rows && j < s.cols
    ensures HasShape(FlipAxis1(a), s)
    ensures FlipAxis1(a)[f][i][j] == a[f][s.rows - 1 - i][j]
  {
    FlipShape(a, s);
    ReverseAt(a[f], i);
  }

  /** Flipping twice gives the array back. */
  lemma FlipAxis1Twice<T>(a: seq<seq<seq<T>>>)
    ensures FlipAxis1(FlipAxis1(a)) == a
  {
    forall f | 0 <= f < |a|
      ensures FlipAxis1(FlipAxis1(a))[f] == a[f]
    {
      ReverseTwice(a[f]);
    }
  }

  // ----- Orientation ------------------------------------------------------------

  /**
   * The flip test of _read as written: no flip when both `reversed` and
   * `adc == '100 KHz'` hold, a flip when either one does, none otherwise.
   */
  function FlipWanted(reversed: bool, adc: string): bool
  {
    if reversed && adc == "100 KHz" then false
    else if reversed || adc == "100 KHz" then true
    else false
  }

  /** The test flips exactly when one of the two conditions holds and the other does not. */
  lemma FlipWantedXor(reversed: bool, adc: string)
    ensures FlipWanted(reversed, adc) <==> (reversed != (adc == "100 KHz"))
  {
  }

  /**
   * The array _read returns for the flat items and their shape s, which is
   * (NumFrames, ydim, xdim): reshaped, axes rolled to (NumFrames, xdim, ydim),
   * then flipped along x if flip holds.
   */
  function Orient<T>(flat: seq<T>, s: Shape, flip: bool): (a: seq<seq<seq<T>>>)
    requires |flat| == Volume(s)
    ensures HasShape(a, Swapped(s))
  {
    var rolled := RollAxis(Reshape(flat, s), s);
    if flip then
      FlipShape(rolled, Swapped(s));
      FlipAxis1(rolled)
    else rolled
  }

  /**
   * Entry [f][x][y] of the loaded array is raw item (f * ydim + y) * xdim + x,
   * with x counted from the other end when the array is flipped.
   */
  lemma OrientAt<T>(flat: seq<T>, s: Shape, flip: bool, f: nat, x: nat, y: nat)
    requires |flat| == Volume(s) && f < s.frames && x < s.cols && y < s.rows
    ensures FlatIndex(s, f, y, if flip then s.cols - 1 - x else x) < |flat|
    ensures Orient(flat, s, flip)[f][x][y] == flat[FlatIndex(s, f, y, if flip then s.cols - 1 - x else x)]
  {
    var rolled := RollAxis(Reshape(flat, s), s);
    var x' := if flip then s.cols - 1 - x else x;
    if flip {
      FlipAxis1At(rolled, Swapped(s), f, x, y);
    }
    ReshapeAt(flat, s, f, y, x');
  }
}
