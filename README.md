# pyWinSpec SPE reader, modelled in Dafny

This project models the reader of pyWinSpec for WinSpec SPE 2.x files, the
Princeton Instruments camera format. An SPE file is a 4100-byte header followed
by the frames.

- The header is a packed ctypes structure (`_pack_ = 1`) named `Header`. It
  holds two `AxisCalibration` records and an array of ten `ROIinfo` records.
- `SpeFile` copies a few header fields into settings when the file is opened:
  `reversed`, `gain`, the `adc` and `adc_rate` labels, and `readout_time`.
- The `data` property reads the frames once and caches them. It maps the header's
  `datatype` code to an element type and reads xdim·ydim·NumFrames items. It
  reshapes them to (NumFrames, ydim, xdim), rolls the last axis forward to
  index them [frame][x][y], and may flip the x axis.
- The `xaxis` and `yaxis` properties evaluate each axis's calibration polynomial
  at the pixels 1..N. `_make_axes` fills both caches at once.
- `winspec/struct.py` states the same three tables again, with ctypes' own type
  names and the aliases BYTE, WORD and DWORD.

The modules are:

- `Bytes`: little-endian unsigned and two's-complement integers, and IEEE 754
  doubles read as exact reals.
- `Layout`: ctypes field tables with `_pack_ = 1`. An offset is the prefix sum
  of the widths before it. It also decodes and encodes every field of a buffer.
- `SpeHeader`: the `ROIinfo`, `AxisCalibration` and `Header` tables of
  `winspec.py`, with their sizes and the offsets of the fields the reader uses.
- `HeaderValues`: the header buffer `readinto` fills, and the fields `SpeFile`
  reads from it.
- `Sequences`: sequence reversal, as in `px[::-1]`.
- `Frames`: `_datatype_map`, `np.fromfile`, `reshape`, `rollaxis` and the x
  flip, each as an index map over sequences.
- `Calibration`: `_make_axes` for one axis. It covers the `calib_valid` test,
  the coefficient slice, the reversal and `np.polyval`.
- `SpeFiles`: the `SpeFile` class, with its settings and its three write-once
  caches. `Load` is the cache-filling part of `_read`, as a function.
- `StructTables`: `winspec/struct.py`. Its tables are kept as written and
  evaluated in the module's scope the way the class statements run them.

Every file stands in for the file of the same name. The file's bytes are passed
to the constructor, because `open` and `readinto` read them at that point.
They are passed again to `Read`, because `_read` reopens the file by its path.

## Behaviour modelled as written

- `reversed` is `geometric == 2`, an equality test and not a bit test
  (winspec.py:99).
- The flip compares `self.adc` with `'100 KHz'` (winspec.py:145-147).
  - `adc` is the ADC *type* label and never holds that value, so as written the
    frames are flipped exactly when `reversed` holds (`SpeFiles.FlipAsWritten`).
  - `'100 KHz'` is one of the `adc_rate` labels (winspec.py:112), so the test
    was most likely meant for `adc_rate`. This model follows the code.
  - The flip reverses axis 1 of the rolled array, which is x.
- `struct.unpack('?', …)` returns a one-element tuple, and such a tuple is always
  true (winspec.py:193-195).
  - So the polynomial is always evaluated, whatever `calib_valid` holds.
  - The `arange(1, N + 1)` fallback is never taken
    (`Calibration.ValidTestAlwaysHolds`, `Calibration.MakeAxisIgnoresValid`).
- The count `readinto` returns is ignored (winspec.py:96). A file shorter than
  4100 bytes leaves the rest of the header zero, and no error is raised.
- `_data` is assigned the flat array before the reshape (winspec.py:135-139).
  When the reshape raises, the flat array stays cached, and the next `data`
  returns it.
- `winspec/struct.py:193-194` names `Calibration`, which that module never
  defines. Running the module raises NameError in the `Header` class statement
  (`StructTables.ModuleBodyFails`). With that name bound to `AxisCalibration`,
  the table is exactly winspec.py's (`StructTables.HeaderWithCalibration`).

## Model

| member | source | states |
|---|---|---|
| Bytes.LeDecodeEncode | winspec.py:18-20 | encoding an unsigned value in n little-endian bytes and decoding it gives the value back |
| Bytes.LeEncodeDecode | winspec.py:18-20 | decoding n bytes as unsigned and re-encoding them gives the same bytes |
| Bytes.TwosComplement | winspec.py:23-26 | the signed reading of an unsigned n-byte value lies in [-2^(8n-1), 2^(8n-1)); it is negative exactly when the value is at least 2^(8n-1), and then it is the value minus 2^(8n) |
| Bytes.SignedDecodeEncode | winspec.py:23-26 | encoding a value in range in two's complement and decoding it gives the value back |
| Bytes.SignedEncodeDecode | winspec.py:23-26 | decoding bytes as a signed integer and re-encoding them gives the same bytes |
| Bytes.DoubleValue | winspec.py:29 | a double's eight bytes have no real value exactly when the exponent field is 2047 (Inf or NaN); the value is not positive when the sign bit is set and not negative when it is clear |
| Bytes.SignBitNegates | winspec.py:29 | setting the sign bit of a finite double negates its value |
| Bytes.ZeroIsZero | winspec.py:29 | eight zero bytes are the double 0.0 |
| Bytes.OneIsOne | winspec.py:29 | the bytes 00 00 00 00 00 00 F0 3F are the double 1.0 |
| Layout.OffsetMonotone | winspec.py:250 | with `_pack_ = 1` the offsets never decrease and never pass the structure's size |
| Layout.OffsetAppend | winspec.py:283 | in a table made of two parts, an offset in the second part is the first part's size plus the offset within the second part |
| Layout.DecodeField | winspec.py:18-29 | a field's bytes in the buffer decode to a number exactly when its type is an integer type, read little-endian in the range of its width and signedness; chars, floats, arrays and structures decode to all of their own bytes |
| Layout.FieldBytesRoundTrip | winspec.py:18-29 | decoding a field's bytes gives a value its type can hold, and encoding that value gives the same bytes |
| Layout.FieldValueRoundTrip | winspec.py:18-29 | encoding a value the type can hold and decoding it gives the value back |
| Layout.FieldAtOffset | winspec.py:250 | field i of a buffer is decoded from the Width bytes at its prefix-sum offset |
| Layout.DecodeAt | winspec.py:283 | entry i of the decoded structure is field i read at its own offset |
| Layout.EncodeDecode | winspec.py:283 | every decoded value fits its field, and encoding all the decoded fields rebuilds the buffer byte for byte |
| Layout.DecodeEncode | winspec.py:283 | encoding values that fit their fields and decoding the buffer gives the values back |
| SpeHeader.RoiInfoSize | winspec.py:250-257 | ROIinfo is six WORDs, 12 bytes |
| SpeHeader.AxisCalibrationLayout | winspec.py:260-280 | AxisCalibration has 19 fields, with string at 18, calib_valid at 98, polynom_order at 101, six doubles of polynom_coeff at 263 and 81 chars of calib_label at 321 |
| SpeHeader.AxisCalibrationSize | winspec.py:260-280 | AxisCalibration is 489 bytes |
| SpeHeader.HeaderSize | winspec.py:283-436 | the Header table has 152 fields and totals 4100 bytes |
| SpeHeader.FieldInGroup | winspec.py:283-436 | field j of the k-th block of eight is Header field 8k+j, at the block's start plus j's offset in the block |
| SpeHeader.DateField | winspec.py:294 | date is field 9, DATEMAX chars at byte 20 |
| SpeHeader.XdimField | winspec.py:300 | xdim is field 15, a WORD at byte 42 |
| SpeHeader.DatatypeField | winspec.py:325 | datatype is field 40, a short at byte 108 |
| SpeHeader.AdcRateField | winspec.py:350 | ADCrate is field 65, a WORD at byte 190 |
| SpeHeader.AdcTypeField | winspec.py:351 | ADCtype is field 66, a WORD at byte 192 |
| SpeHeader.GainField | winspec.py:354 | gain is field 69, a WORD at byte 198 |
| SpeHeader.GeometricField | winspec.py:356 | geometric is field 71, a WORD at byte 600 |
| SpeHeader.YdimField | winspec.py:368 | ydim is field 83, a WORD at byte 656 |
| SpeHeader.ReadoutTimeField | winspec.py:374 | ReadoutTime is field 89, a float at byte 672 |
| SpeHeader.NumFramesField | winspec.py:396 | NumFrames is field 111, a 4-byte int at byte 1446 |
| SpeHeader.RoiInfblkField | winspec.py:411 | ROIinfblk is field 126, ROIMAX ROIinfo records at byte 1512 |
| SpeHeader.XCalibrationField | winspec.py:418 | xcalibration is field 133, an AxisCalibration at byte 3000 |
| SpeHeader.YCalibrationField | winspec.py:419 | ycalibration is field 134, an AxisCalibration at byte 3489 |
| SpeHeader.LastValueField | winspec.py:436 | lastvalue is field 151, a short at byte 4098, the last two bytes of the header |
| HeaderValues.ReadInto | winspec.py:88-96 | the header buffer is 4100 bytes; byte i is the file's byte i where the file has one and 0 past its end |
| HeaderValues.ReadIntoPrefix | winspec.py:96 | a file of at least 4100 bytes fills the header with exactly its first 4100 bytes |
| HeaderValues.ReadIntoShort | winspec.py:96 | a shorter file is copied whole and the rest of the header stays zero; nothing reports it |
| HeaderValues.HeaderRoundTrip | winspec.py:283-436 | decoding every Header field of a buffer and encoding them again reproduces the 4100 bytes |
| HeaderValues.XdimRead | winspec.py:300 | the xdim the reader uses is the Header field named xdim, read little-endian |
| HeaderValues.YdimRead | winspec.py:368 | the ydim the reader uses is the Header field named ydim |
| HeaderValues.NumFramesRead | winspec.py:396 | the NumFrames the reader uses is the Header field named NumFrames, a signed 4-byte value |
| HeaderValues.DatatypeRead | winspec.py:325 | the datatype code is the Header field named datatype, a signed short |
| HeaderValues.AdcRateRead | winspec.py:350 | the ADC rate code is the Header field named ADCrate |
| HeaderValues.AdcTypeRead | winspec.py:351 | the ADC type code is the Header field named ADCtype |
| HeaderValues.GainRead | winspec.py:354 | the gain is the Header field named gain |
| HeaderValues.GeometricRead | winspec.py:356 | the geometric flags are the Header field named geometric |
| HeaderValues.ReadoutTimeRead | winspec.py:374 | the readout time is the four bytes of the Header field named ReadoutTime |
| HeaderValues.XCalibrationRead | winspec.py:418 | the x calibration record is the 489 bytes of the Header field named xcalibration |
| HeaderValues.YCalibrationRead | winspec.py:419 | the y calibration record is the 489 bytes of the Header field named ycalibration |
| Sequences.ReverseAt | winspec.py:198 | entry k of the reversed sequence is entry n-1-k of the original |
| Sequences.ReverseTwice | winspec.py:198 | reversing twice gives the original sequence |
| Frames.DatatypeMap | winspec.py:83 | a datatype code has an element type exactly when it is 0, 1, 2 or 3 |
| Frames.DatatypeMapInverse | winspec.py:83 | code c maps to element type d exactly when c is d's code: 0 float32, 1 int32, 2 int16, 3 uint16 |
| Frames.ItemSize | winspec.py:83 | float32 and int32 items are 4 bytes, int16 and uint16 items 2 |
| Frames.DecodeItem | winspec.py:135 | a float32 item stays its four bytes; integer items decode to values in the range of int32, int16 or uint16 |
| Frames.ItemBytesRoundTrip | winspec.py:135 | decoding an item's bytes and encoding the item gives the same bytes |
| Frames.ItemValueRoundTrip | winspec.py:135 | encoding an item and decoding its bytes gives the item back |
| Frames.FromFile | winspec.py:135 | np.fromfile reads whole items from the front of the payload: at most count of them when count is non-negative; it stops only at count or when less than one item is left; item k comes from bytes [k·size, (k+1)·size) |
| Frames.FromFileFull | winspec.py:133-135 | a payload of at least count·size bytes gives exactly count items |
| Frames.FromFileAll | winspec.py:135 | a negative count reads every whole item of the payload |
| Frames.RemainingItems | winspec.py:135 | for a negative count, the number of items is the bytes from the read position to the end divided by the item size, truncated toward zero; it is negative exactly when the file ends at least one item before the read position, and zero when it ends less than one item before it |
| Frames.ReshapeShape | winspec.py:139 | reshape to (f, ydim, xdim) succeeds for f >= 0 exactly when f·ydim·xdim is the item count; a negative f is the unknown dimension, which exists exactly when ydim·xdim is positive and divides the count |
| Frames.ReshapeAt | winspec.py:139 | entry [f][i][j] of the reshaped array is flat item (f·rows + i)·cols + j |
| Frames.RollAxis | winspec.py:142 | rollaxis(a, 2, 1) has shape (frames, cols, rows) and r[f][j][i] == a[f][i][j] |
| Frames.RollAxisTwice | winspec.py:142 | rolling back with the swapped shape gives the original array |
| Frames.FlipShape | winspec.py:148 | `[:, ::-1, :]` keeps the shape |
| Frames.FlipAxis1At | winspec.py:148 | entry [f][i][j] of the flipped array is entry [f][rows-1-i][j] of the original |
| Frames.FlipAxis1Twice | winspec.py:148 | flipping twice gives the original array |
| Frames.FlipWantedXor | winspec.py:145-148 | the flip happens exactly when one of the two tests holds and the other does not |
| Frames.OrientAt | winspec.py:139-148 | after reshape, roll and optional flip, entry [f][x][y] is raw item (f·ydim + y)·xdim + x, with x replaced by xdim-1-x when flipped |
| Calibration.CalibrationMembers | winspec.py:268-275 | calib_valid, polynom_order and polynom_coeff are read from bytes 98, 101 and 263..311 of the record |
| Calibration.UnpackBool | winspec.py:193 | `struct.unpack('?', b)` is a one-element tuple that holds b != 0 |
| Calibration.ValidTestAlwaysHolds | winspec.py:193-195 | that tuple is always true, even for a zero byte |
| Calibration.PolynomOrder | winspec.py:196 | the order is one unsigned byte, below 256 |
| Calibration.CoeffCount | winspec.py:197 | `polynom_coeff[:order+1]` holds min(order+1, 6) coefficients, at least one |
| Calibration.DecodeCoeffs | winspec.py:197 | the first m coefficients are all finite exactly when decoding gives values; then there are m of them and each is its eight bytes read as a double |
| Calibration.Coefficients | winspec.py:197 | the coefficient slice has CoeffCount entries |
| Calibration.PolyValReversed | winspec.py:198-200 | np.polyval of the reversed coefficients is the sum of c[i]·x^i |
| Calibration.PowerSumShift | winspec.py:200 | that sum is c[0] + x times the sum of the remaining coefficients |
| Calibration.Arange | winspec.py:202 | arange(1, N + 1) has N entries, entry k being k + 1 |
| Calibration.MakeAxis | winspec.py:195-202 | the axis has one value per pixel |
| Calibration.MakeAxisAt | winspec.py:196-200 | value k of the axis is the sum of c[i]·(k+1)^i over the CoeffCount coefficients |
| Calibration.MakeAxisNonFinite | winspec.py:197-200 | the axis is not finite exactly when one of the coefficients used is not |
| Calibration.MakeAxisIgnoresValid | winspec.py:193-202 | changing calib_valid does not change the axis |
| Calibration.CoeffsAgree | winspec.py:197 | records with the same coefficient bytes give the same coefficients |
| Calibration.ConstantAxis | winspec.py:196-200 | with order 0 every value is c[0] |
| Calibration.LinearAxis | winspec.py:196-200 | with order 1 value k is c[0] + c[1]·(k+1) |
| Calibration.ZeroRecordAxis | winspec.py:196-200 | a record whose coefficient bytes are all zero gives an axis of zeros, not the pixel numbers |
| SpeFiles.AdcLabel | winspec.py:102-107 | the adc label is "Low Noise" exactly for ADCtype 8, "High Capacity" exactly for 9 and "Unknown" otherwise |
| SpeFiles.AdcRateLabel | winspec.py:109-114 | the adc_rate label is "2 MHz" exactly for ADCrate 12, "100 KHz" exactly for 6 and "Unknown" otherwise |
| SpeFiles.FlipAsWritten | winspec.py:145-148 | adc is never "100 KHz", so the data are flipped exactly when reversed holds |
| SpeFiles.Payload | winspec.py:131 | after seek(4100) the payload is what follows the header, and nothing when the file is not longer than the header |
| SpeFiles.Load | winspec.py:130-152 | a datatype without a mapping raises KeyError; a negative count in a file that ends at least one item before the header does makes np.fromfile raise ValueError; in both cases, and only then, nothing is cached; otherwise the reshape raises ValueError exactly when the items read do not fit (NumFrames, ydim, xdim), a negative NumFrames included, and leaves the flat items cached; a successful read caches and returns the same frames |
| SpeFiles.LoadFull | winspec.py:133-142 | with a known datatype, NumFrames >= 0 and enough bytes, the data have shape (NumFrames, xdim, ydim) |
| SpeFiles.LoadTruncated | winspec.py:133-139 | with too few bytes for xdim·ydim·NumFrames items, the reshape raises and the shorter flat array stays cached |
| SpeFiles.LoadNegativeShort | winspec.py:133-135 | with NumFrames < 0, xdim and ydim positive and a file ending at least one item before the header does, np.fromfile raises and the cache stays empty |
| SpeFiles.LoadNegativeCount | winspec.py:133-135 | with a negative count and a file that does not end before the read can start, the flat array holds every whole item after the header |
| SpeFiles.LoadAt | winspec.py:133-148 | entry [f][x][y] of the data is the item decoded from the payload bytes of raw item (f·ydim + y)·xdim + x', where x' is x flipped when the flip applies |
| SpeFiles.XAxisOf | winspec.py:196-200 | the x axis has xdim values |
| SpeFiles.YAxisOf | winspec.py:207-211 | the y axis has ydim values |
| SpeFiles.SpeFile.constructor | winspec.py:85-116 | the header is the readinto buffer; reversed is geometric == 2; gain, readout_time and the adc and adc_rate labels come from their fields; all three caches are empty |
| SpeFiles.SpeFile.Read | winspec.py:118-152 | a filled cache is returned as it is; otherwise the cache and the result are Load's |
| SpeFiles.SpeFile.MakeAxes | winspec.py:187-218 | both axes are computed from their calibration records and both caches are set |
| SpeFiles.SpeFile.XAxis | winspec.py:154-162 | the x axis is returned; a filled cache is left as it is, and otherwise both caches are filled |
| SpeFiles.SpeFile.YAxis | winspec.py:164-172 | the y axis is returned; a filled cache is left as it is, and otherwise both caches are filled |
| StructTables.ConstantsAgree | winspec/struct.py:11-18 | the array-length constants equal winspec.py's |
| StructTables.AliasWidths | winspec/struct.py:4-6 | BYTE, WORD and DWORD are 1, 2 and 4-byte unsigned; c_short and c_int are 2 and 4-byte signed; the aliases and ctypes names the tables use mean the types of winspec.py's spe_ aliases |
| StructTables.EvalType | winspec/struct.py:193 | a type expression fails only on a name the scope does not bind, and it names that name |
| StructTables.BuildN | winspec/struct.py:59-211 | a table builds exactly when every entry's type evaluates, giving one field per entry; otherwise it fails on the first entry that does not |
| StructTables.BuildAppend | winspec/struct.py:59-211 | building two tables one after the other is building their concatenation |
| StructTables.BuildsTo | winspec/struct.py:59-211 | a table builds to fs when every entry has fs's name and evaluates to fs's type |
| StructTables.FlattenStep | winspec/struct.py:59-211 | adding a block that builds to the blocks before it extends the built table |
| StructTables.FlattenFails | winspec/struct.py:193-194 | a block that fails after blocks that build makes the whole table fail with the block's error |
| StructTables.RoiInfoBuilds | winspec/struct.py:20-29 | ROIinfo builds to winspec.py's table |
| StructTables.AxisCalibrationBuilds | winspec/struct.py:31-53 | AxisCalibration builds to winspec.py's table |
| StructTables.StructureSizes | winspec/struct.py:20-53 | ROIinfo builds and is 12 bytes; AxisCalibration builds and is 489 bytes |
| StructTables.GroupBuilds | winspec/struct.py:59-211 | every block of eight Header entries except the one holding lines 193-194 builds to winspec.py's |
| StructTables.Group16Fails | winspec/struct.py:193-194 | the block holding xcalibration fails with NameError for Calibration |
| StructTables.Group16Builds | winspec/struct.py:193-194 | with Calibration bound to AxisCalibration, that block builds to winspec.py's |
| StructTables.HeaderNameError | winspec/struct.py:193-194 | the Header table as written raises NameError for Calibration |
| StructTables.AxisCalibrationInModule | winspec/struct.py:31-53 | the AxisCalibration statement succeeds in the module and binds winspec.py's table |
| StructTables.HeaderStatementFails | winspec/struct.py:55-211 | the Header class statement fails with NameError for Calibration |
| StructTables.ModuleBodyFails | winspec/struct.py:20-211 | running the module's three class statements ends in NameError for Calibration |
| StructTables.HeaderWithCalibration | winspec/struct.py:55-211 | with Calibration bound to AxisCalibration, the Header table is exactly winspec.py's and totals 4100 bytes |

## Left out

- File I/O (`open`, `seek`, `readinto`, `np.fromfile` on a file object,
  `os.path.realpath`): the file is a byte sequence passed to the constructor
  and again to `Read`. The model does not track whether the second copy is the
  same file.
- Floating point: float32 pixel values and the float ReadoutTime are kept as
  their bytes. Calibration coefficients are decoded to exact reals, and
  `np.polyval` is evaluated over reals with no rounding. A non-finite
  coefficient gives a `NonFinite` axis instead of NaN or Inf values.
- Integer width of the count: `_count` (winspec.py:133) multiplies the Python
  ints the ctypes attributes return, so the product is an unbounded integer, as
  in the model. With NumFrames a 32-bit int and both dimensions below 2^16, it
  fits the 64-bit count `np.fromfile` takes.
- `np.fromfile` is numpy's C code and not part of this model. Its handling of a
  negative count (the rest of the file divided by the item size, and ValueError
  when that is negative) is modelled as numpy implements it
  (`Frames.RemainingItems`).
- Layout.DecodeField: a `c_char * N` field (date, string, calib_label, Comments
  and the others) is kept as all N bytes. ctypes returns the bytes before the
  first NUL. The model decodes the buffer, not the Python attribute values. No
  modelled operation reads these fields; the label properties that do are left
  out below.
- Layout.DecodeField: integers are read little-endian. ctypes and numpy read in
  the host's byte order, so the model is the reader on a little-endian host,
  which is the byte order of SPE files.
- Views and aliasing: numpy's reshape, rollaxis and slicing give views of one
  buffer. The model builds new sequences with the same entries.
- `xaxis_label` and `yaxis_label`, the ASCII decoding of the date and label
  fields, and `__str__` / `__repr__` (winspec.py:174-184, 228-234) are text
  formatting.
- `print_offsets` (winspec.py:40-69) only prints.
- Logging calls are not modelled.
- `winspec/__init__.py` is not part of this model. It does not run as it stands:
  it uses Python 2 syntax and imports a missing module.
- `winspec/struct.py`'s `__repr__` (lines 213-215) is text formatting.
- The header tables are modelled field by field. The fields other than the ones
  `SpeFile` reads are checked for width and offset only through the table
  totals and the round-trip lemmas.
