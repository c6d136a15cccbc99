/**
 * The header fields SpeFile reads, taken from the 4100-byte header buffer as
 * ctypes reads them on a little-endian host. Each accessor decodes the bytes at the field's
 * offset; the lemma beside it shows that this is what reading the field of
 * that name from the Header table gives.
 */
module HeaderValues {
  import opened Bytes
  import opened Layout
  import opened SpeHeader

  /** sizeof(Header): the data segment starts at this offset. */
  const HeaderLength: nat := 4100

  /**
   * The header buffer after `f.readinto(header)`: ctypes fills the zeroed
   * structure with the first 4100 bytes of the file, or with all of a shorter
   * file, leaving the rest zero; the count it returns is not looked at.
   */
  function ReadInto(file: seq<Byte>): (h: seq<Byte>)
    ensures |h| == HeaderLength
    ensures forall i :: 0 <= i < |h| ==> h[i] == if i < |file| then file[i] else 0
  {
    if |file| >= HeaderLength then file[..HeaderLength]
    else file + seq(HeaderLength - |file|, _ => 0)
  }

  /** A file at least as long as the header fills the buffer with exactly its first 4100 bytes. */
  lemma ReadIntoPrefix(file: seq<Byte>)
    requires |file| >= HeaderLength
    ensures ReadInto(file) == file[..HeaderLength]
  {
  }

  /** A short file is not reported: the buffer is the file followed by zeros. */
  lemma ReadIntoShort(file: seq<Byte>)
    requires |file| < HeaderLength
    ensures ReadInto(file)[..|file|] == file
    ensures forall i :: |file| <= i < HeaderLength ==> ReadInto(file)[i] == 0
  {
  }

  /**
   * Decoding every Header field of the buffer and encoding the values again
   * gives back the buffer: the table accounts for every byte.
   */
  lemma HeaderRoundTrip(h: seq<Byte>)
    requires |h| == HeaderLength
    ensures |HeaderFields| == 152 && |h| == Size(HeaderFields)
    ensures var vs := Decode(HeaderFields, h);
      (forall i :: 0 <= i < |HeaderFields| ==> Fits(HeaderFields[i].ctype, vs[i])) &&
      Encode(HeaderFields, vs) == h
  {
    HeaderSize();
    EncodeDecode(HeaderFields, h);
  }

  /** xdim, the number of pixels along x: a WORD at byte 42. */
  function Xdim(h: seq<Byte>): (x: nat)
    requires |h| == HeaderLength
    ensures x < 0x1_0000
  {
    LeUnsigned(h[42..44])
  }

  /** Xdim reads the Header field named "xdim" (field 15 of the table). */
  lemma XdimRead(h: seq<Byte>)
    requires |h| == HeaderLength
    ensures |HeaderFields| == 152 && |h| == Size(HeaderFields)
    ensures HeaderFields[15].name == "xdim" && FieldAt(HeaderFields, h, 15) == Num(Xdim(h))
  {
    XdimField();
    HeaderSize();
    FieldAtOffset(HeaderFields, h, 15, SpeWord(), 42, 2);
  }

  /** ydim, the number of pixels along y: a WORD at byte 656. */
  function Ydim(h: seq<Byte>): (x: nat)
    requires |h| == HeaderLength
    ensures x < 0x1_0000
  {
    LeUnsigned(h[656..658])
  }

  /** Ydim reads the Header field named "ydim" (field 83 of the table). */
  lemma YdimRead(h: seq<Byte>)
    requires |h| == HeaderLength
    ensures |HeaderFields| == 152 && |h| == Size(HeaderFields)
    ensures HeaderFields[83].name == "ydim" && FieldAt(HeaderFields, h, 83) == Num(Ydim(h))
  {
    YdimField();
    HeaderSize();
    FieldAtOffset(HeaderFields, h, 83, SpeWord(), 656, 2);
  }

  /** NumFrames, the number of frames: a c_int (the 4-byte "long" of the manual) at byte 1446. */
  function NumFrames(h: seq<Byte>): (x: int)
    requires |h| == HeaderLength
    ensures -Half(4) <= x < Half(4)
  {
    LeSigned(h[1446..1450])
  }

  /** NumFrames reads the Header field named "NumFrames" (field 111 of the table). */
  lemma NumFramesRead(h: seq<Byte>)
    requires |h| == HeaderLength
    ensures |HeaderFields| == 152 && |h| == Size(HeaderFields)
    ensures HeaderFields[111].name == "NumFrames" && FieldAt(HeaderFields, h, 111) == Num(NumFrames(h))
  {
    NumFramesField();
    HeaderSize();
    FieldAtOffset(HeaderFields, h, 111, SpeLong(), 1446, 4);
  }

  /** datatype, the pixel type code: a c_short at byte 108. */
  function Datatype(h: seq<Byte>): (x: int)
    requires |h| == HeaderLength
    ensures -Half(2) <= x < Half(2)
  {
    LeSigned(h[108..110])
  }

  /** Datatype reads the Header field named "datatype" (field 40 of the table). */
  lemma DatatypeRead(h: seq<Byte>)
    requires |h| == HeaderLength
    ensures |HeaderFields| == 152 && |h| == Size(HeaderFields)
    ensures HeaderFields[40].name == "datatype" && FieldAt(HeaderFields, h, 40) == Num(Datatype(h))
  {
    DatatypeField();
    HeaderSize();
    FieldAtOffset(HeaderFields, h, 40, SpeShort(), 108, 2);
  }

  /** ADCrate, the ADC conversion rate code: a WORD at byte 190. */
  function AdcRate(h: seq<Byte>): (x: nat)
    requires |h| == HeaderLength
    ensures x < 0x1_0000
  {
    LeUnsigned(h[190..192])
  }

  /** AdcRate reads the Header field named "ADCrate" (field 65 of the table). */
  lemma AdcRateRead(h: seq<Byte>)
    requires |h| == HeaderLength
    ensures |HeaderFields| == 152 && |h| == Size(HeaderFields)
    ensures HeaderFields[65].name == "ADCrate" && FieldAt(HeaderFields, h, 65) == Num(AdcRate(h))
  {
    AdcRateField();
    HeaderSize();
    FieldAtOffset(HeaderFields, h, 65, SpeWord(), 190, 2);
  }

  /** ADCtype, the ADC type code: a WORD at byte 192. */
  function AdcType(h: seq<Byte>): (x: nat)
    requires |h| == HeaderLength
    ensures x < 0x1_0000
  {
    LeUnsigned(h[192..194])
  }

  /** AdcType reads the Header field named "ADCtype" (field 66 of the table). */
  lemma AdcTypeRead(h: seq<Byte>)
    requires |h| == HeaderLength
    ensures |HeaderFields| == 152 && |h| == Size(HeaderFields)
    ensures HeaderFields[66].name == "ADCtype" && FieldAt(HeaderFields, h, 66) == Num(AdcType(h))
  {
    AdcTypeField();
    HeaderSize();
    FieldAtOffset(HeaderFields, h, 66, SpeWord(), 192, 2);
  }

  /** gain: a WORD at byte 198. */
  function Gain(h: seq<Byte>): (x: nat)
    requires |h| == HeaderLength
    ensures x < 0x1_0000
  {
    LeUnsigned(h[198..200])
  }

  /** Gain reads the Header field named "gain" (field 69 of the table). */
  lemma GainRead(h: seq<Byte>)
    requires |h| == HeaderLength
    ensures |HeaderFields| == 152 && |h| == Size(HeaderFields)
    ensures HeaderFields[69].name == "gain" && FieldAt(HeaderFields, h, 69) == Num(Gain(h))
  {
    GainField();
    HeaderSize();
    FieldAtOffset(HeaderFields, h, 69, SpeWord(), 198, 2);
  }

  /** geometric, the geometric operation flags: a WORD at byte 600. */
  function Geometric(h: seq<Byte>): (x: nat)
    requires |h| == HeaderLength
    ensures x < 0x1_0000
  {
    LeUnsigned(h[600..602])
  }

  /** Geometric reads the Header field named "geometric" (field 71 of the table). */
  lemma GeometricRead(h: seq<Byte>)
    requires |h| == HeaderLength
    ensures |HeaderFields| == 152 && |h| == Size(HeaderFields)
    ensures HeaderFields[71].name == "geometric" && FieldAt(HeaderFields, h, 71) == Num(Geometric(h))
  {
    GeometricField();
    HeaderSize();
    FieldAtOffset(HeaderFields, h, 71, SpeWord(), 600, 2);
  }

  /** ReadoutTime: a c_float at byte 672, kept as its four bytes. */
  function ReadoutTime(h: seq<Byte>): (x: seq<Byte>)
    requires |h| == HeaderLength
    ensures |x| == 4
  {
    h[672..676]
  }

  /** ReadoutTime reads the Header field named "ReadoutTime" (field 89 of the table). */
  lemma ReadoutTimeRead(h: seq<Byte>)
    requires |h| == HeaderLength
    ensures |HeaderFields| == 152 && |h| == Size(HeaderFields)
    ensures HeaderFields[89].name == "ReadoutTime" && FieldAt(HeaderFields, h, 89) == Raw(ReadoutTime(h))
  {
    ReadoutTimeField();
    HeaderSize();
    FieldAtOffset(HeaderFields, h, 89, SpeFloat(), 672, 4);
  }

  /** xcalibration: the AxisCalibration of the x axis, 489 bytes from byte 3000. */
  function XCalibration(h: seq<Byte>): (x: seq<Byte>)
    requires |h| == HeaderLength
    ensures |x| == 489
  {
    h[3000..3489]
  }

  /** XCalibration reads the Header field named "xcalibration" (field 133 of the table). */
  lemma XCalibrationRead(h: seq<Byte>)
    requires |h| == HeaderLength
    ensures |HeaderFields| == 152 && |h| == Size(HeaderFields)
    ensures HeaderFields[133].name == "xcalibration" && FieldAt(HeaderFields, h, 133) == Raw(XCalibration(h))
  {
    AxisCalibrationSize();
    XCalibrationField();
    HeaderSize();
    FieldAtOffset(HeaderFields, h, 133, AxisCalibration(), 3000, 489);
  }

  /** ycalibration: the AxisCalibration of the y axis, 489 bytes from byte 3489. */
  function YCalibration(h: seq<Byte>): (x: seq<Byte>)
    requires |h| == HeaderLength
    ensures |x| == 489
  {
    h[3489..3978]
  }

  /** YCalibration reads the Header field named "ycalibration" (field 134 of the table). */
  lemma YCalibrationRead(h: seq<Byte>)
    requires |h| == HeaderLength
    ensures |HeaderFields| == 152 && |h| == Size(HeaderFields)
    ensures HeaderFields[134].name == "ycalibration" && FieldAt(HeaderFields, h, 134) == Raw(YCalibration(h))
  {
    AxisCalibrationSize();
    YCalibrationField();
    HeaderSize();
    FieldAtOffset(HeaderFields, h, 134, AxisCalibration(), 3489, 489);
  }
}
