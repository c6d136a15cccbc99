/**
 * SpeFile: an SPE file opened for reading. The constructor reads the header
 * and derives the settings; `Read` (the `data` property) loads the frames once
 * and caches them; `MakeAxes`, `XAxis` and `YAxis` build and cache the two
 * calibrated axes. The file's contents are passed in as bytes, once when the
 * file is opened and again when the frames are read, because the source opens
 * the file by name both times.
 */
module SpeFiles {
  import opened Wrappers
  import opened Bytes
  import opened HeaderValues
  import opened Frames
  import opened Calibration

  // ----- Derived settings ------------------------------------------------------

  /** The `adc` label of an ADCtype code. */
  function AdcLabel(adcType: nat): (s: string)
    ensures s == "Low Noise" <==> adcType == 8
    ensures s == "High Capacity" <==> adcType == 9
    ensures s == "Unknown" <==> adcType != 8 && adcType != 9
  {
    if adcType == 8 then "Low Noise"
    else if adcType == 9 then "High Capacity"
    else "Unknown"
  }

  /** The `adc_rate` label of an ADCrate code. */
  function AdcRateLabel(adcRate: nat): (s: string)
    ensures s == "2 MHz" <==> adcRate == 12
    ensures s == "100 KHz" <==> adcRate == 6
    ensures s == "Unknown" <==> adcRate != 12 && adcRate != 6
  {
    if adcRate == 12 then "2 MHz"
    else if adcRate == 6 then "100 KHz"
    else "Unknown"
  }

  /**
   * The flip test compares the ADC type label with a rate label that it can
   * never equal, so as written the frames are flipped exactly when the file is
   * marked reversed.
   */
  lemma FlipAsWritten(reversed: bool, adcType: nat)
    ensures AdcLabel(adcType) != "100 KHz"
    ensures FlipWanted(reversed, AdcLabel(adcType)) <==> reversed
  {
    FlipWantedXor(reversed, AdcLabel(adcType));
  }

  // ----- Loading the frames ------------------------------------------------------

  /** What `data` holds: the flat items, or the oriented frames. */
  datatype DataArray = Flat(items: seq<Sample>) | Cube(frames: seq<seq<seq<Sample>>>)

  /**
   * The exceptions _read raises: the KeyError of an unknown datatype code, the
   * ValueError np.fromfile raises for a negative item count, and the ValueError
   * of a reshape that does not fit the number of items read.
   */
  datatype ReadError =
    | KeyError(code: int)
    | NegativeDimensions(count: int)
    | ReshapeError(items: nat, frames: int, ydim: nat, xdim: nat)

  /** The cache after _read and what it returns or raises. */
  datatype Outcome = Outcome(cache: Option<DataArray>, result: Result<DataArray, ReadError>)

  /** The bytes after `f.seek(4100)`: nothing when the file is not longer than the header. */
  function Payload(file: seq<Byte>): (p: seq<Byte>)
    ensures |file| >= HeaderLength ==> file == file[..HeaderLength] + p
    ensures |file| < HeaderLength ==> p == []
  {
    if |file| >= HeaderLength then file[HeaderLength..] else []
  }

  /** `_count`: xdim * ydim * NumFrames items are asked for. */
  function RequestedItems(h: seq<Byte>): int
    requires |h| == HeaderLength
  {
    Xdim(h) * Ydim(h) * NumFrames(h)
  }

  /** The flat items np.fromfile reads for element type d. */
  function FlatItems(file: seq<Byte>, h: seq<Byte>, d: DType): seq<Sample>
    requires |h| == HeaderLength
  {
    FromFile(Payload(file), d, RequestedItems(h))
  }

  /**
   * np.fromfile refuses the read: the count asked for is negative, so numpy
   * counts the items left after the header, and the file ends at least one
   * item before the header does.
   */
  predicate NegativeRead(file: seq<Byte>, h: seq<Byte>, d: DType)
    requires |h| == HeaderLength
  {
    RequestedItems(h) < 0 && RemainingItems(|file|, HeaderLength, d) < 0
  }

  /**
   * What _read does with an empty cache, for a file whose header is h and whose
   * settings are reversed and adc: the datatype lookup, np.fromfile, which is
   * cached at once, then the reshape, the roll and the flip, whose result
   * replaces the cache. The cache stays empty when the lookup or np.fromfile
   * raises.
   */
  function Load(file: seq<Byte>, h: seq<Byte>, reversed: bool, adc: string): (o: Outcome)
    requires |h| == HeaderLength
    ensures o.result.Err? && o.result.error.KeyError? <==> DatatypeMap(Datatype(h)).None?
    ensures o.result.Err? && o.result.error.NegativeDimensions? <==>
      DatatypeMap(Datatype(h)).Some? && RequestedItems(h) < 0 &&
      |file| + ItemSize(DatatypeMap(Datatype(h)).value) <= HeaderLength
    ensures o.cache.None? <==> o.result.Err? && !o.result.error.ReshapeError?
    ensures o.result.Ok? ==> o.cache == Some(o.result.value) && o.result.value.Cube?
    ensures o.result.Err? && o.result.error.ReshapeError? <==>
      DatatypeMap(Datatype(h)).Some? && !NegativeRead(file, h, DatatypeMap(Datatype(h)).value) &&
      ReshapeShape(|FlatItems(file, h, DatatypeMap(Datatype(h)).value)|, NumFrames(h), Ydim(h), Xdim(h)).None?
    ensures o.result.Err? && o.result.error.ReshapeError? ==>
      o.cache == Some(Flat(FlatItems(file, h, DatatypeMap(Datatype(h)).value)))
  {
    match DatatypeMap(Datatype(h))
    case None => Outcome(None, Err(KeyError(Datatype(h))))
    case Some(d) =>
      if NegativeRead(file, h, d) then
        Outcome(None, Err(NegativeDimensions(RemainingItems(|file|, HeaderLength, d))))
      else
        var flat := FlatItems(file, h, d);
        match ReshapeShape(|flat|, NumFrames(h), Ydim(h), Xdim(h))
        case None => Outcome(Some(Flat(flat)), Err(ReshapeError(|flat|, NumFrames(h), Ydim(h), Xdim(h))))
        case Some(s) =>
          var a := Cube(Orient(flat, s, FlipWanted(reversed, adc)));
          Outcome(Some(a), Ok(a))
  }

  /**
   * When the datatype is known and the payload holds all xdim * ydim * NumFrames
   * items of a non-negative frame count, the load succeeds with NumFrames frames
   * of xdim by ydim.
   */
  lemma LoadFull(file: seq<Byte>, h: seq<Byte>, reversed: bool, adc: string, d: DType)
    requires |h| == HeaderLength && DatatypeMap(Datatype(h)) == Some(d) && NumFrames(h) >= 0
    requires RequestedItems(h) * ItemSize(d) <= |Payload(file)|
    ensures Load(file, h, reversed, adc).result.Ok?
    ensures HasShape(Load(file, h, reversed, adc).result.value.frames, Shape(NumFrames(h), Xdim(h), Ydim(h)))
  {
    var flat := FlatItems(file, h, d);
    FullCount(file, h, d);
    var s := Shape(NumFrames(h), Ydim(h), Xdim(h));
    assert ReshapeShape(|flat|, NumFrames(h), Ydim(h), Xdim(h)) == Some(s);
    assert Load(file, h, reversed, adc).result == Ok(Cube(Orient(flat, s, FlipWanted(reversed, adc))));
  }

  /** A payload long enough gives all the requested items, in NumFrames frames of ydim rows of xdim. */
  lemma FullCount(file: seq<Byte>, h: seq<Byte>, d: DType)
    requires |h| == HeaderLength && NumFrames(h) >= 0
    requires RequestedItems(h) * ItemSize(d) <= |Payload(file)|
    ensures |FlatItems(file, h, d)| == NumFrames(h) * Ydim(h) * Xdim(h)
  {
    var x, y, f := Xdim(h), Ydim(h), NumFrames(h);
    ProductOrder(x, y, f);
    var count: nat := x * y * f;
    assert RequestedItems(h) == count;
    FromFileFull(Payload(file), d, count);
  }

  /**
   * A payload too short for the requested items makes the reshape fail, and the
   * shorter flat array stays in the cache.
   */
  lemma LoadTruncated(file: seq<Byte>, h: seq<Byte>, reversed: bool, adc: string, d: DType)
    requires |h| == HeaderLength && DatatypeMap(Datatype(h)) == Some(d) && NumFrames(h) >= 0
    requires |Payload(file)| < RequestedItems(h) * ItemSize(d)
    ensures |FlatItems(file, h, d)| < RequestedItems(h)
    ensures Load(file, h, reversed, adc) ==
      Outcome(Some(Flat(FlatItems(file, h, d))),
              Err(ReshapeError(|FlatItems(file, h, d)|, NumFrames(h), Ydim(h), Xdim(h))))
  {
    ProductOrder(Xdim(h), Ydim(h), NumFrames(h));
  }

  /**
   * A negative frame count in a file that ends at least one item before the
   * header does makes np.fromfile raise, and nothing is cached.
   */
  lemma LoadNegativeShort(file: seq<Byte>, h: seq<Byte>, reversed: bool, adc: string, d: DType)
    requires |h| == HeaderLength && DatatypeMap(Datatype(h)) == Some(d)
    requires NumFrames(h) < 0 && Xdim(h) > 0 && Ydim(h) > 0
    requires |file| + ItemSize(d) <= HeaderLength
    ensures Load(file, h, reversed, adc) ==
      Outcome(None, Err(NegativeDimensions(RemainingItems(|file|, HeaderLength, d))))
  {
    ProductSign(Xdim(h), Ydim(h), NumFrames(h));
  }

  /**
   * With a negative frame count and a file that does not end before the read
   * can start, np.fromfile reads every whole item after the header.
   */
  lemma LoadNegativeCount(file: seq<Byte>, h: seq<Byte>, d: DType)
    requires |h| == HeaderLength && RequestedItems(h) < 0
    requires RemainingItems(|file|, HeaderLength, d) >= 0
    ensures |FlatItems(file, h, d)| == RemainingItems(|file|, HeaderLength, d)
  {
    FromFileAll(Payload(file), d, RequestedItems(h));
  }

  /** A product of two positive numbers and a negative one is negative. */
  lemma ProductSign(x: nat, y: nat, f: int)
    requires x > 0 && y > 0 && f < 0
    ensures x * y * f < 0
  {
    assert x * y > 0;
  }

  /** x * y * f and f * y * x are the same product, not negative when f is not. */
  lemma ProductOrder(x: nat, y: nat, f: int)
    ensures x * y * f == f * y * x
    ensures f >= 0 ==> x * y * f >= 0
  {
    assert x * y * f == f * (x * y);
  }

  /**
   * Entry [f][x][y] of the loaded frames is the item read from the bytes of raw
   * item (f * ydim + y) * xdim + x', where x' is x, or xdim - 1 - x when the
   * frames are flipped.
   */
  lemma LoadAt(file: seq<Byte>, h: seq<Byte>, reversed: bool, adc: string, d: DType,
               s: Shape, f: nat, x: nat, y: nat)
    requires |h| == HeaderLength && DatatypeMap(Datatype(h)) == Some(d)
    requires ReshapeShape(|FlatItems(file, h, d)|, NumFrames(h), Ydim(h), Xdim(h)) == Some(s)
    requires f < s.frames && x < Xdim(h) && y < Ydim(h)
    ensures Load(file, h, reversed, adc).result.Ok?
    ensures var k := FlatIndex(s, f, y, if FlipWanted(reversed, adc) then Xdim(h) - 1 - x else x);
      (k + 1) * ItemSize(d) <= |Payload(file)| &&
      Load(file, h, reversed, adc).result.value.frames[f][x][y] ==
        DecodeItem(d, Payload(file)[k * ItemSize(d)..(k + 1) * ItemSize(d)])
  {
    OrientAt(FlatItems(file, h, d), s, FlipWanted(reversed, adc), f, x, y);
  }

  // ----- The file object -----------------------------------------------------------

  /** The x axis _make_axes builds: xcalibration's polynomial at pixels 1 to xdim. */
  function XAxisOf(h: seq<Byte>): (a: Axis)
    requires |h| == HeaderLength
    ensures Length(a) == Xdim(h)
  {
    MakeAxis(XCalibration(h), Xdim(h))
  }

  /** The y axis _make_axes builds: ycalibration's polynomial at pixels 1 to ydim. */
  function YAxisOf(h: seq<Byte>): (a: Axis)
    requires |h| == HeaderLength
    ensures Length(a) == Ydim(h)
  {
    MakeAxis(YCalibration(h), Ydim(h))
  }

  class SpeFile {
    /** The 4100-byte header buffer. */
    const header: seq<Byte>
    const reversed: bool
    const gain: nat
    const adc: string
    const adcRate: string
    /** ReadoutTime, kept as the four bytes of the float. */
    const readoutTime: seq<Byte>

    /** The `_data`, `_xaxis` and `_yaxis` caches; None until first filled. */
    var data: Option<DataArray>
    var xaxis: Option<Axis>
    var yaxis: Option<Axis>

    /**
     * The settings agree with the header, and the axis caches are filled
     * together, each with the axis its calibration record gives.
     */
    ghost predicate Valid()
      reads this
    {
      |header| == HeaderLength &&
      reversed == (Geometric(header) == 2) &&
      gain == Gain(header) &&
      adc == AdcLabel(AdcType(header)) &&
      adcRate == AdcRateLabel(AdcRate(header)) &&
      readoutTime == ReadoutTime(header) &&
      (xaxis.Some? <==> yaxis.Some?) &&
      (xaxis.Some? ==> xaxis.value == XAxisOf(header) && yaxis.value == YAxisOf(header))
    }

    /** `SpeFile(name)` for a file whose bytes are file when it is opened. */
    constructor (file: seq<Byte>)
      ensures header == ReadInto(file)
      ensures reversed <==> Geometric(header) == 2
      ensures gain == Gain(header) && readoutTime == ReadoutTime(header)
      ensures adc == AdcLabel(AdcType(header)) && adcRate == AdcRateLabel(AdcRate(header))
      ensures data.None? && xaxis.None? && yaxis.None?
      ensures Valid()
    {
      var h := ReadInto(file);
      header := h;
      data := None;
      xaxis := None;
      yaxis := None;
      reversed := if Geometric(h) == 2 then true else false;
      gain := Gain(h);
      if AdcType(h) == 8 {
        adc := "Low Noise";
      } else if AdcType(h) == 9 {
        adc := "High Capacity";
      } else {
        adc := "Unknown";
      }
      if AdcRate(h) == 12 {
        adcRate := "2 MHz";
      } else if AdcRate(h) == 6 {
        adcRate := "100 KHz";
      } else {
        adcRate := "Unknown";
      }
      readoutTime := ReadoutTime(h);
    }

    /**
     * The `data` property, reading the file whose bytes are file now: the cached
     * array if there is one, without looking at the file; otherwise what Load
     * gives, which also fills the cache.
     */
    method Read(file: seq<Byte>) returns (r: Result<DataArray, ReadError>)
      requires Valid()
      modifies this`data
      ensures Valid()
      ensures old(data).Some? ==> data == old(data) && r == Ok(old(data).value)
      ensures old(data).None? ==>
        data == Load(file, header, reversed, adc).cache && r == Load(file, header, reversed, adc).result
    {
      if data.Some? {
        return Ok(data.value);
      }
      var code := Datatype(header);
      var dt := DatatypeMap(code);
      if dt.None? {
        return Err(KeyError(code));
      }
      var count := Xdim(header) * Ydim(header) * NumFrames(header);
      var remaining := RemainingItems(|file|, HeaderLength, dt.value);
      if count < 0 && remaining < 0 {
        return Err(NegativeDimensions(remaining));
      }
      var flat := FromFile(Payload(file), dt.value, count);
      data := Some(Flat(flat));
      var shape := ReshapeShape(|flat|, NumFrames(header), Ydim(header), Xdim(header));
      if shape.None? {
        return Err(ReshapeError(|flat|, NumFrames(header), Ydim(header), Xdim(header)));
      }
      var a := RollAxis(Reshape(flat, shape.value), shape.value);
      if reversed && adc == "100 KHz" {
      } else if reversed || adc == "100 KHz" {
        a := FlipAxis1(a);
      }
      data := Some(Cube(a));
      return Ok(Cube(a));
    }

    /** `_make_axes`: both axes from the header, stored in both caches. */
    method MakeAxes() returns (px: Axis, py: Axis)
      requires Valid()
      modifies this`xaxis, this`yaxis
      ensures Valid()
      ensures px == XAxisOf(header) && py == YAxisOf(header)
      ensures xaxis == Some(px) && yaxis == Some(py)
    {
      px := MakeAxis(XCalibration(header), Xdim(header));
      py := MakeAxis(YCalibration(header), Ydim(header));
      xaxis := Some(px);
      yaxis := Some(py);
    }

    /** The `xaxis` property: the cached axis, or a fresh _make_axes that fills both caches. */
    method XAxis() returns (px: Axis)
      requires Valid()
      modifies this`xaxis, this`yaxis
      ensures Valid()
      ensures px == XAxisOf(header)
      ensures xaxis == Some(px) && yaxis == Some(YAxisOf(header))
      ensures old(xaxis).Some? ==> xaxis == old(xaxis) && yaxis == old(yaxis)
    {
      if xaxis.Some? {
        return xaxis.value;
      }
      var py;
      px, py := MakeAxes();
    }

    /** The `yaxis` property: the cached axis, or a fresh _make_axes that fills both caches. */
    method YAxis() returns (py: Axis)
      requires Valid()
      modifies this`xaxis, this`yaxis
      ensures Valid()
      ensures py == YAxisOf(header)
      ensures yaxis == Some(py) && xaxis == Some(XAxisOf(header))
      ensures old(yaxis).Some? ==> yaxis == old(yaxis) && xaxis == old(xaxis)
    {
      if yaxis.Some? {
        return yaxis.value;
      }
      var px;
      px, py := MakeAxes();
    }
  }
}
