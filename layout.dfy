/**
 * The memory layout of a ctypes `Structure` declared with `_pack_ = 1`:
 * an ordered table of (name, type) fields, each field's offset the sum of
 * the widths before it (no padding), and field-by-field decoding of a byte
 * buffer laid out that way (little-endian, as on the x86 machines that
 * write SPE files).
 */
module Layout {
  import opened Bytes

  /** The ctypes scalars: c_ubyte, c_ushort, c_uint, c_char, c_short, c_int, c_float, c_double. */
  datatype Prim = UByte | UShort | UInt | Char | Short | Int | Float | Double

  /** A ctypes type: a scalar, `elem * count`, or a packed Structure given by its field table. */
  datatype CType =
    | Scalar(prim: Prim)
    | ArrayOf(elem: CType, count: nat)
    | Struct(sname: string, fields: seq<Field>)

  datatype Field = Field(name: string, ctype: CType)

  function PrimWidth(p: Prim): nat
  {
    match p
    case UByte => 1
    case Char => 1
    case UShort => 2
    case Short => 2
    case UInt => 4
    case Int => 4
    case Float => 4
    case Double => 8
  }

  /** sizeof(t). A packed structure is exactly as wide as its fields together. */
  function Width(t: CType): nat
    decreases t
  {
    match t
    case Scalar(p) => PrimWidth(p)
    case ArrayOf(e, n) => n * Width(e)
    case Struct(_, fs) => Offset(fs, |fs|)
  }

  /** The offset of field i under `_pack_ = 1`: the sum of the widths of fields 0..i-1. */
  function Offset(fs: seq<Field>, i: nat): nat
    requires i <= |fs|
    decreases fs, i
  {
    if i == 0 then 0 else Offset(fs, i - 1) + Width(fs[i - 1].ctype)
  }

  /** sizeof of a packed structure with field table fs. */
  function Size(fs: seq<Field>): nat
  {
    Offset(fs, |fs|)
  }

  /** Offsets never decrease along the table, and every field ends within the structure. */
  lemma OffsetMonotone(fs: seq<Field>, i: nat, j: nat)
    requires i <= j <= |fs|
    ensures Offset(fs, i) <= Offset(fs, j) <= Size(fs)
  {
    OffsetGrows(fs, i, j);
    OffsetGrows(fs, j, |fs|);
  }

  lemma {:induction false} OffsetGrows(fs: seq<Field>, i: nat, j: nat)
    requires i <= j <= |fs|
    ensures Offset(fs, i) <= Offset(fs, j)
    decreases j - i
  {
    if i < j {
      OffsetGrows(fs, i, j - 1);
    }
  }

  /** A field's offset depends only on the fields before it. */
  lemma {:induction false} OffsetOfPrefix(fs: seq<Field>, k: nat, i: nat)
    requires i <= k <= |fs|
    ensures Offset(fs[..k], i) == Offset(fs, i)
  {
    if i > 0 {
      OffsetOfPrefix(fs, k, i - 1);
      assert fs[..k][i - 1] == fs[i - 1];
    }
  }

  /** Offsets in a table that extends a: those in a are unchanged. */
  lemma {:induction false} OffsetPrefix(a: seq<Field>, b: seq<Field>, i: nat)
    requires i <= |a|
    ensures Offset(a + b, i) == Offset(a, i)
  {
    if i > 0 {
      OffsetPrefix(a, b, i - 1);
      assert (a + b)[i - 1] == a[i - 1];
    }
  }

  /** Offsets in the second half of a + b are shifted by the size of a. */
  lemma {:induction false} OffsetAppend(a: seq<Field>, b: seq<Field>, i: nat)
    requires |a| <= i <= |a| + |b|
    ensures Offset(a + b, i) == Size(a) + Offset(b, i - |a|)
  {
    if i == |a| {
      OffsetPrefix(a, b, i);
    } else {
      OffsetAppend(a, b, i - 1);
      assert (a + b)[i - 1] == b[i - 1 - |a|];
    }
  }

  // ----- Field values ---------------------------------------------------

  /**
   * A decoded field: the integer kinds give their number; characters,
   * floating-point values, arrays and nested structures are kept as the
   * bytes that hold them.
   */
  datatype Value = Num(v: int) | Raw(bytes: seq<Byte>)

  predicate IsUnsigned(t: CType)
  {
    t == Scalar(UByte) || t == Scalar(UShort) || t == Scalar(UInt)
  }

  predicate IsSigned(t: CType)
  {
    t == Scalar(Short) || t == Scalar(Int)
  }

  /**
   * The value of field type t held in bytes b: integers little-endian, every
   * other type as all of its bytes, a char array included.
   */
  function DecodeField(t: CType, b: seq<Byte>): (v: Value)
    requires |b| == Width(t)
    ensures v.Num? <==> IsUnsigned(t) || IsSigned(t)
    ensures IsUnsigned(t) ==> 0 <= v.v < Pow256(Width(t))
    ensures IsSigned(t) ==> -Half(Width(t)) <= v.v < Half(Width(t))
    ensures v.Raw? ==> v.bytes == b
  {
    if IsUnsigned(t) then Num(LeUnsigned(b))
    else if IsSigned(t) then Num(LeSigned(b))
    else Raw(b)
  }

  /** v is a value that a field of type t can hold. */
  predicate Fits(t: CType, v: Value)
  {
    if IsUnsigned(t) then v.Num? && 0 <= v.v < Pow256(Width(t))
    else if IsSigned(t) then v.Num? && -Half(Width(t)) <= v.v < Half(Width(t))
    else v.Raw? && |v.bytes| == Width(t)
  }

  /** The bytes that store v in a field of type t. */
  function EncodeField(t: CType, v: Value): (b: seq<Byte>)
    requires Fits(t, v)
    ensures |b| == Width(t)
  {
    if IsUnsigned(t) then LeEncode(v.v, Width(t))
    else if IsSigned(t) then SignedEncode(v.v, Width(t))
    else v.bytes
  }

  lemma FieldBytesRoundTrip(t: CType, b: seq<Byte>)
    requires |b| == Width(t)
    ensures Fits(t, DecodeField(t, b)) && EncodeField(t, DecodeField(t, b)) == b
  {
    if IsUnsigned(t) {
      LeEncodeDecode(b);
    } else if IsSigned(t) {
      SignedEncodeDecode(b);
    }
  }

  lemma FieldValueRoundTrip(t: CType, v: Value)
    requires Fits(t, v)
    ensures DecodeField(t, EncodeField(t, v)) == v
  {
    if IsUnsigned(t) {
      LeDecodeEncode(v.v, Width(t));
    } else if IsSigned(t) {
      SignedDecodeEncode(v.v, Width(t));
    }
  }

  // ----- Whole structures -----------------------------------------------

  /** The bytes of field i in a buffer laid out by fs. */
  function Slice(fs: seq<Field>, buf: seq<Byte>, i: nat): (b: seq<Byte>)
    requires i < |fs| && |buf| == Size(fs)
    ensures |b| == Width(fs[i].ctype)
  {
    OffsetMonotone(fs, i + 1, |fs|);
    buf[Offset(fs, i)..Offset(fs, i + 1)]
  }

  /** Field i of a buffer laid out by fs, as the structure's attribute access returns it. */
  function FieldAt(fs: seq<Field>, buf: seq<Byte>, i: nat): Value
    requires i < |fs| && |buf| == Size(fs)
  {
    DecodeField(fs[i].ctype, Slice(fs, buf, i))
  }

  /** A field of type t and width w at byte off is read from the w bytes from off on. */
  lemma FieldAtOffset(fs: seq<Field>, buf: seq<Byte>, i: nat, t: CType, off: nat, w: nat)
    requires |buf| == Size(fs) && i < |fs| && fs[i].ctype == t && Offset(fs, i) == off
    requires Width(t) == w
    ensures off + w <= |buf|
    ensures FieldAt(fs, buf, i) == DecodeField(t, buf[off..off + w])
  {
    OffsetMonotone(fs, i + 1, |fs|);
  }

  /** Every field of buf decoded, in table order. */
  function Decode(fs: seq<Field>, buf: seq<Byte>): (vs: seq<Value>)
    requires |buf| == Size(fs)
    ensures |vs| == |fs|
    decreases |fs|
  {
    if fs == [] then []
    else
      var n := |fs| - 1;
      OffsetOfPrefix(fs, n, n);
      Decode(fs[..n], buf[..Offset(fs, n)]) + [DecodeField(fs[n].ctype, buf[Offset(fs, n)..])]
  }

  /** Every value stored at its field's offset, in table order. */
  function Encode(fs: seq<Field>, vs: seq<Value>): (buf: seq<Byte>)
    requires |vs| == |fs|
    requires forall i :: 0 <= i < |fs| ==> Fits(fs[i].ctype, vs[i])
    ensures |buf| == Size(fs)
    decreases |fs|
  {
    if fs == [] then []
    else
      var n := |fs| - 1;
      OffsetOfPrefix(fs, n, n);
      Encode(fs[..n], vs[..n]) + EncodeField(fs[n].ctype, vs[n])
  }

  /** Decode reads every field at its own offset with its own type. */
  lemma {:induction false} DecodeAt(fs: seq<Field>, buf: seq<Byte>, i: nat)
    requires |buf| == Size(fs) && i < |fs|
    ensures Decode(fs, buf)[i] == FieldAt(fs, buf, i)
    decreases |fs|
  {
    var n := |fs| - 1;
    OffsetOfPrefix(fs, n, n);
    var pre, head := fs[..n], buf[..Offset(fs, n)];
    assert Decode(fs, buf) == Decode(pre, head) + [DecodeField(fs[n].ctype, buf[Offset(fs, n)..])];
    if i < n {
      DecodeAt(pre, head, i);
      SliceOfPrefix(fs, buf, n, i);
      assert pre[i] == fs[i];
    } else {
      assert Slice(fs, buf, n) == buf[Offset(fs, n)..];
    }
  }

  /** A field's bytes are the same whether read from the whole buffer or from the prefix that holds it. */
  lemma SliceOfPrefix(fs: seq<Field>, buf: seq<Byte>, n: nat, i: nat)
    requires |buf| == Size(fs) && i < n <= |fs|
    ensures Size(fs[..n]) == Offset(fs, n) <= |buf|
    ensures Slice(fs[..n], buf[..Offset(fs, n)], i) == Slice(fs, buf, i)
  {
    OffsetOfPrefix(fs, n, n);
    OffsetOfPrefix(fs, n, i);
    OffsetOfPrefix(fs, n, i + 1);
    OffsetMonotone(fs, i + 1, n);
    var a, b, c := Offset(fs, i), Offset(fs, i + 1), Offset(fs, n);
    var head := buf[..c];
    assert fs[..n][i] == fs[i];
    assert Slice(fs[..n], head, i) == head[a..b];
    assert head[a..b] == buf[a..b];
  }

  /** Decoding a buffer and storing every field back reproduces it byte for byte. */
  lemma {:induction false} EncodeDecode(fs: seq<Field>, buf: seq<Byte>)
    requires |buf| == Size(fs)
    ensures var vs := Decode(fs, buf);
      (forall i :: 0 <= i < |fs| ==> Fits(fs[i].ctype, vs[i])) && Encode(fs, vs) == buf
    decreases |fs|
  {
    if fs != [] {
      var n := |fs| - 1;
      OffsetOfPrefix(fs, n, n);
      var vs := Decode(fs, buf);
      var pre, head, tail := fs[..n], buf[..Offset(fs, n)], buf[Offset(fs, n)..];
      EncodeDecode(pre, head);
      FieldBytesRoundTrip(fs[n].ctype, tail);
      assert vs[..n] == Decode(pre, head);
      assert buf == head + tail;
    }
  }

  /** Storing well-typed values and decoding the buffer gives them back. */
  lemma {:induction false} DecodeEncode(fs: seq<Field>, vs: seq<Value>)
    requires |vs| == |fs|
    requires forall i :: 0 <= i < |fs| ==> Fits(fs[i].ctype, vs[i])
    ensures Decode(fs, Encode(fs, vs)) == vs
    decreases |fs|
  {
    if fs != [] {
      var n := |fs| - 1;
      OffsetOfPrefix(fs, n, n);
      var buf := Encode(fs, vs);
      EncodeSplit(fs, vs);
      DecodeEncode(fs[..n], vs[..n]);
      FieldValueRoundTrip(fs[n].ctype, vs[n]);
      assert Decode(fs, buf) == Decode(fs[..n], buf[..Offset(fs, n)]) + [DecodeField(fs[n].ctype, buf[Offset(fs, n)..])];
      assert vs == vs[..n] + [vs[n]];
    }
  }

  /** The last field's bytes follow the bytes of the fields before it. */
  lemma EncodeSplit(fs: seq<Field>, vs: seq<Value>)
    requires |vs| == |fs| && fs != []
    requires forall i :: 0 <= i < |fs| ==> Fits(fs[i].ctype, vs[i])
    ensures Offset(fs, |fs| - 1) <= |Encode(fs, vs)|
    ensures Encode(fs, vs)[..Offset(fs, |fs| - 1)] == Encode(fs[..|fs| - 1], vs[..|fs| - 1])
    ensures Encode(fs, vs)[Offset(fs, |fs| - 1)..] == EncodeField(fs[|fs| - 1].ctype, vs[|fs| - 1])
  {
    OffsetOfPrefix(fs, |fs| - 1, |fs| - 1);
  }
}
