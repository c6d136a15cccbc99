/**
 * The WinSpec header as winspec.py declares it: the type names of the file
 * format, the ROIinfo and AxisCalibration structures and the 152-field,
 * 4100-byte Header, all packed (`_pack_ = 1`), and the Header attributes
 * SpeFile reads.
 *
 * The Header table is written as 19 groups of eight consecutive fields so
 * that facts about it can be proved a group at a time.
 */
module SpeHeader {
  import opened Bytes
  import opened Layout

  // ----- Type names of the file format (winspec.py:18-30) -----------------

  function SpeByte(): CType { Scalar(UByte) }
  function SpeWord(): CType { Scalar(UShort) }
  function SpeDword(): CType { Scalar(UInt) }
  function SpeChar(): CType { Scalar(Char) }
  function SpeShort(): CType { Scalar(Short) }
  /** `long` in the WinSpec manual: four bytes, so c_int and not the host's long. */
  function SpeLong(): CType { Scalar(Int) }
  function SpeFloat(): CType { Scalar(Float) }
  function SpeDouble(): CType { Scalar(Double) }

  // ----- Array lengths used in the header (winspec.py:238-245) -------------

  const HdrNameMax: nat := 120
  const UserInfoMax: nat := 1000
  const CommentMax: nat := 80
  const LabelMax: nat := 16
  const FileVerMax: nat := 16
  const DateMax: nat := 10
  const RoiMax: nat := 10
  const TimeMax: nat := 7

  // ----- Structures ---------------------------------------------------------

  /** One region of interest (winspec.py:249-257). */
  function RoiInfoFields(): seq<Field>
  {
    [
      Field("startx", SpeWord()),
      Field("endx", SpeWord()),
      Field("groupx", SpeWord()),
      Field("starty", SpeWord()),
      Field("endy", SpeWord()),
      Field("groupy", SpeWord())]
  }

  function RoiInfo(): CType { Struct("ROIinfo", RoiInfoFields()) }

  /** Calibration of one axis (winspec.py:259-280). */
  function AxisCalibrationFields(): seq<Field>
  {
    [
      Field("offset", SpeDouble()),
      Field("factor", SpeDouble()),
      Field("current_unit", SpeChar()),
      Field("reserved1", SpeChar()),
      Field("string", ArrayOf(SpeChar(), 40)),
      Field("reserved2", ArrayOf(SpeChar(), 40)),
      Field("calib_valid", SpeChar()),
      Field("input_unit", SpeChar()),
      Field("polynom_unit", SpeChar()),
      Field("polynom_order", SpeChar()),
      Field("calib_count", SpeChar()),
      Field("pixel_position", ArrayOf(SpeDouble(), 10)),
      Field("calib_value", ArrayOf(SpeDouble(), 10)),
      Field("polynom_coeff", ArrayOf(SpeDouble(), 6)),
      Field("laser_position", SpeDouble()),
      Field("reserved3", SpeChar()),
      Field("new_calib_flag", SpeByte()),
      Field("calib_label", ArrayOf(SpeChar(), 81)),
      Field("expansion", ArrayOf(SpeChar(), 87))]
  }

  function AxisCalibration(): CType { Struct("AxisCalibration", AxisCalibrationFields()) }

  /** Header fields 0 to 7 (winspec.py:285-292). */
  function Group0(): seq<Field>
  {
    [
      Field("ControllerVersion", SpeShort()),
      Field("LogicOutput", SpeShort()),
      Field("AmpHiCapLowNoise", SpeWord()),
      Field("xDimDet", SpeWord()),
      Field("mode", SpeShort()),
      Field("exp_sec", SpeFloat()),
      Field("VChipXdim", SpeShort()),
      Field("VChipYdim", SpeShort())]
  }

  /** Header fields 8 to 15 (winspec.py:293-300). */
  function Group1(): seq<Field>
  {
    [
      Field("yDimDet", SpeWord()),
      Field("date", ArrayOf(SpeChar(), DateMax)),
      Field("VirtualChipFlag", SpeShort()),
      Field("Spare_1", ArrayOf(SpeChar(), 2)),
      Field("noscan", SpeShort()),
      Field("DetTemperature", SpeFloat()),
      Field("DetType", SpeShort()),
      Field("xdim", SpeWord())]
  }

  /** Header fields 16 to 23 (winspec.py:301-308). */
  function Group2(): seq<Field>
  {
    [
      Field("stdiode", SpeShort()),
      Field("DelayTime", SpeFloat()),
      Field("ShutterControl", SpeWord()),
      Field("AbsorbLive", SpeShort()),
      Field("AbsorbMode", SpeWord()),
      Field("CanDoVirtualChipFlag", SpeShort()),
      Field("ThresholdMinLive", SpeShort()),
      Field("ThresholdMinVal", SpeFloat())]
  }

  /** Header fields 24 to 31 (winspec.py:309-316). */
  function Group3(): seq<Field>
  {
    [
      Field("ThresholdMaxLive", SpeShort()),
      Field("ThresholdMaxVal", SpeFloat()),
      Field("SpecAutoSpectroMode", SpeShort()),
      Field("SpecCenterWlNm", SpeFloat()),
      Field("SpecGlueFlag", SpeShort()),
      Field("SpecGlueStartWlNm", SpeFloat()),
      Field("SpecGlueEndWlNm", SpeFloat()),
      Field("SpecGlueMinOvrlpNm", SpeFloat())]
  }

  /** Header fields 32 to 39 (winspec.py:317-324). */
  function Group4(): seq<Field>
  {
    [
      Field("SpecGlueFinalResNm", SpeFloat()),
      Field("PulserType", SpeShort()),
      Field("CustomChipFlag", SpeShort()),
      Field("XPrePixels", SpeShort()),
      Field("XPostPixels", SpeShort()),
      Field("YPrePixels", SpeShort()),
      Field("YPostPixels", SpeShort()),
      Field("asynen", SpeShort())]
  }

  /** Header fields 40 to 47 (winspec.py:325-332). */
  function Group5(): seq<Field>
  {
    [
      Field("datatype", SpeShort()),
      Field("PulserMode", SpeShort()),
      Field("PulserOnChipAccums", SpeWord()),
      Field("PulserRepeatExp", SpeDword()),
      Field("PulseRepWidth", SpeFloat()),
      Field("PulseRepDelay", SpeFloat()),
      Field("PulseSeqStartWidth", SpeFloat()),
      Field("PulseSeqEndWidth", SpeFloat())]
  }

  /** Header fields 48 to 55 (winspec.py:333-340). */
  function Group6(): seq<Field>
  {
    [
      Field("PulseSeqStartDelay", SpeFloat()),
      Field("PulseSeqEndDelay", SpeFloat()),
      Field("PulseSeqIncMode", SpeShort()),
      Field("PImaxUsed", SpeShort()),
      Field("PImaxMode", SpeShort()),
      Field("PImaxGain", SpeShort()),
      Field("BackGrndApplied", SpeShort()),
      Field("PImax2nsBrdUsed", SpeShort())]
  }

  /** Header fields 56 to 63 (winspec.py:341-348). */
  function Group7(): seq<Field>
  {
    [
      Field("minblk", SpeWord()),
      Field("numminblk", SpeWord()),
      Field("SpecMirrorLocation", ArrayOf(SpeShort(), 2)),
      Field("SpecSlitLocation", ArrayOf(SpeShort(), 4)),
      Field("CustomTimingFlag", SpeShort()),
      Field("ExperimentTimeLocal", ArrayOf(SpeChar(), TimeMax)),
      Field("ExperimentTimeUTC", ArrayOf(SpeChar(), TimeMax)),
      Field("ExposUnits", SpeShort())]
  }

  /** Header fields 64 to 71 (winspec.py:349-356). */
  function Group8(): seq<Field>
  {
    [
      Field("ADCoffset", SpeWord()),
      Field("ADCrate", SpeWord()),
      Field("ADCtype", SpeWord()),
      Field("ADCresolution", SpeWord()),
      Field("ADCbitAdjust", SpeWord()),
      Field("gain", SpeWord()),
      Field("Comments", ArrayOf(ArrayOf(SpeChar(), 5), CommentMax)),
      Field("geometric", SpeWord())]
  }

  /** Header fields 72 to 79 (winspec.py:357-364). */
  function Group9(): seq<Field>
  {
    [
      Field("xlabel", ArrayOf(SpeChar(), LabelMax)),
      Field("cleans", SpeWord()),
      Field("NumSkpPerCln", SpeWord()),
      Field("SpecMirrorPos", ArrayOf(SpeShort(), 2)),
      Field("SpecSlitPos", ArrayOf(SpeFloat(), 4)),
      Field("AutoCleansActive", SpeShort()),
      Field("UseContCleansInst", SpeShort()),
      Field("AbsorbStripNum", SpeShort())]
  }

  /** Header fields 80 to 87 (winspec.py:365-372). */
  function Group10(): seq<Field>
  {
    [
      Field("SpecSlipPosUnits", SpeShort()),
      Field("SpecGrooves", SpeFloat()),
      Field("srccmp", SpeShort()),
      Field("ydim", SpeWord()),
      Field("scramble", SpeShort()),
      Field("ContinuousCleansFlag", SpeShort()),
      Field("ExternalTriggerFlag", SpeShort()),
      Field("lnoscan", SpeLong())]
  }

  /** Header fields 88 to 95 (winspec.py:373-380). */
  function Group11(): seq<Field>
  {
    [
      Field("lavgexp", SpeLong()),
      Field("ReadoutTime", SpeFloat()),
      Field("TriggeredModeFlag", SpeShort()),
      Field("Spare_2", ArrayOf(SpeChar(), 10)),
      Field("sw_version", ArrayOf(SpeChar(), FileVerMax)),
      Field("type", SpeShort()),
      Field("flatFieldApplied", SpeShort()),
      Field("Spare_3", ArrayOf(SpeChar(), 16))]
  }

  /** Header fields 96 to 103 (winspec.py:381-388). */
  function Group12(): seq<Field>
  {
    [
      Field("kin_trig_mode", SpeShort()),
      Field("dlabel", ArrayOf(SpeChar(), LabelMax)),
      Field("Spare_4", ArrayOf(SpeChar(), 436)),
      Field("PulseFileName", ArrayOf(SpeChar(), HdrNameMax)),
      Field("AbsorbFileName", ArrayOf(SpeChar(), HdrNameMax)),
      Field("NumExpRepeats", SpeDword()),
      Field("NumExpAccums", SpeDword()),
      Field("YT_Flag", SpeShort())]
  }

  /** Header fields 104 to 111 (winspec.py:389-396). */
  function Group13(): seq<Field>
  {
    [
      Field("clkspd_us", SpeFloat()),
      Field("HWaccumFlag", SpeShort()),
      Field("StoreSync", SpeShort()),
      Field("BlemishApplied", SpeShort()),
      Field("CosmicApplied", SpeShort()),
      Field("CosmicType", SpeShort()),
      Field("CosmicThreshold", SpeFloat()),
      Field("NumFrames", SpeLong())]
  }

  /** Header fields 112 to 119 (winspec.py:397-404). */
  function Group14(): seq<Field>
  {
    [
      Field("MaxIntensity", SpeFloat()),
      Field("MinIntensity", SpeFloat()),
      Field("ylabel", ArrayOf(SpeChar(), LabelMax)),
      Field("ShutterType", SpeWord()),
      Field("shutterComp", SpeFloat()),
      Field("readoutMode", SpeWord()),
      Field("WindowSize", SpeWord()),
      Field("clkspd", SpeWord())]
  }

  /** Header fields 120 to 127 (winspec.py:405-412). */
  function Group15(): seq<Field>
  {
    [
      Field("interface_type", SpeWord()),
      Field("NumROIsInExperiment", SpeShort()),
      Field("Spare_5", ArrayOf(SpeChar(), 16)),
      Field("controllerNum", SpeWord()),
      Field("SWmade", SpeWord()),
      Field("NumROI", SpeShort()),
      Field("ROIinfblk", ArrayOf(RoiInfo(), RoiMax)),
      Field("FlatField", ArrayOf(SpeChar(), HdrNameMax))]
  }

  /** Header fields 128 to 135 (winspec.py:413-420). */
  function Group16(): seq<Field>
  {
    [
      Field("background", ArrayOf(SpeChar(), HdrNameMax)),
      Field("blemish", ArrayOf(SpeChar(), HdrNameMax)),
      Field("file_header_ver", SpeFloat()),
      Field("YT_Info", ArrayOf(SpeChar(), 1000)),
      Field("WinView_id", SpeLong()),
      Field("xcalibration", AxisCalibration()),
      Field("ycalibration", AxisCalibration()),
      Field("Istring", ArrayOf(SpeChar(), 40))]
  }

  /** Header fields 136 to 143 (winspec.py:421-428). */
  function Group17(): seq<Field>
  {
    [
      Field("Spare_6", ArrayOf(SpeChar(), 25)),
      Field("SpecType", SpeByte()),
      Field("SpecModel", SpeByte()),
      Field("PulseBurstUsed", SpeByte()),
      Field("PulseBurstCount", SpeDword()),
      Field("PulseBurstPeriod", SpeDouble()),
      Field("PulseBracketUsed", SpeByte()),
      Field("PulseBracketType", SpeByte())]
  }

  /** Header fields 144 to 151 (winspec.py:429-436). */
  function Group18(): seq<Field>
  {
    [
      Field("PulseTimeConstFast", SpeDouble()),
      Field("PulseAmplitudeFast", SpeDouble()),
      Field("PulseTimeConstSlow", SpeDouble()),
      Field("PulseAmplitudeSlow", SpeDouble()),
      Field("AnalogGain", SpeShort()),
      Field("AvGainUsed", SpeShort()),
      Field("AvGain", SpeShort()),
      Field("lastvalue", SpeShort())]
  }

  /** The Header table (winspec.py:282-436) as its 19 groups. */
  const Groups: seq<seq<Field>> := [
    Group0(),
    Group1(),
    Group2(),
    Group3(),
    Group4(),
    Group5(),
    Group6(),
    Group7(),
    Group8(),
    Group9(),
    Group10(),
    Group11(),
    Group12(),
    Group13(),
    Group14(),
    Group15(),
    Group16(),
    Group17(),
    Group18()]

  /** The Header table, field by field. */
  const HeaderFields: seq<Field> := Concat(Groups, 19)

  // ----- Tables made of groups of eight ---------------------------------------

  /** Every group has eight fields. */
  predicate Octets(gs: seq<seq<Field>>)
  {
    forall k | 0 <= k < |gs| :: |gs[k]| == 8
  }

  /** The fields of groups 0 .. n-1 one after another. */
  function Concat(gs: seq<seq<Field>>, n: nat): (fs: seq<Field>)
    requires n <= |gs|
    ensures Octets(gs) ==> |fs| == 8 * n
  {
    if n == 0 then [] else Concat(gs, n - 1) + gs[n - 1]
  }

  /** Adding group k to the groups before it adds its size. */
  lemma ConcatStep(gs: seq<seq<Field>>, k: nat)
    requires k < |gs|
    ensures Size(Concat(gs, k + 1)) == Size(Concat(gs, k)) + Size(gs[k])
  {
    OffsetAppend(Concat(gs, k), gs[k], |Concat(gs, k + 1)|);
  }

  /** Field j of group k is field 8k+j of the concatenation, at the group's offset plus j's. */
  lemma {:induction false} ConcatIndex(gs: seq<seq<Field>>, n: nat, k: nat, j: nat)
    requires Octets(gs) && k < n <= |gs| && j < 8
    ensures Concat(gs, n)[8 * k + j] == gs[k][j]
    ensures Offset(Concat(gs, n), 8 * k + j) == Size(Concat(gs, k)) + Offset(gs[k], j)
  {
    if k == n - 1 {
      OffsetAppend(Concat(gs, k), gs[k], 8 * k + j);
    } else {
      ConcatIndex(gs, n - 1, k, j);
      OffsetPrefix(Concat(gs, n - 1), gs[n - 1], 8 * k + j);
    }
  }

  // ----- Sizes and offsets ------------------------------------------------------

  /** ROIinfo is six words, twelve bytes. */
  lemma RoiInfoSize()
    ensures Width(RoiInfo()) == 12
  {
    assert |RoiInfoFields()| == 6;
    assert Offset(RoiInfoFields(), 6) == 12;
  }

  /** The fields the axes are built from sit where the WinSpec manual puts them. */
  lemma AxisCalibrationLayout()
    ensures |AxisCalibrationFields()| == 19
    ensures AxisCalibrationFields()[4] == Field("string", ArrayOf(SpeChar(), 40))
    ensures Offset(AxisCalibrationFields(), 4) == 18
    ensures AxisCalibrationFields()[6] == Field("calib_valid", SpeChar())
    ensures Offset(AxisCalibrationFields(), 6) == 98
    ensures AxisCalibrationFields()[9] == Field("polynom_order", SpeChar())
    ensures Offset(AxisCalibrationFields(), 9) == 101
    ensures AxisCalibrationFields()[13] == Field("polynom_coeff", ArrayOf(SpeDouble(), 6))
    ensures Offset(AxisCalibrationFields(), 13) == 263
    ensures AxisCalibrationFields()[17] == Field("calib_label", ArrayOf(SpeChar(), 81))
    ensures Offset(AxisCalibrationFields(), 17) == 321
  {
    AxisCalibrationFront();
    AxisCalibrationMiddle();
    AxisCalibrationBack();
  }

  lemma AxisCalibrationFront()
    ensures |AxisCalibrationFields()| == 19
    ensures Offset(AxisCalibrationFields(), 4) == 18
    ensures Offset(AxisCalibrationFields(), 6) == 98
    ensures Offset(AxisCalibrationFields(), 8) == 100
  {
    assert Offset(AxisCalibrationFields(), 4) == 18;
  }

  lemma AxisCalibrationMiddle()
    ensures Offset(AxisCalibrationFields(), 9) == 101
    ensures Offset(AxisCalibrationFields(), 12) == 183
    ensures Offset(AxisCalibrationFields(), 13) == 263
  {
    AxisCalibrationFront();
    assert Offset(AxisCalibrationFields(), 9) == 101;
  }

  lemma AxisCalibrationBack()
    ensures Offset(AxisCalibrationFields(), 17) == 321
    ensures Offset(AxisCalibrationFields(), 19) == 489
  {
    AxisCalibrationMiddle();
    assert Offset(AxisCalibrationFields(), 16) == 320;
  }

  /** AxisCalibration is 489 bytes. */
  lemma AxisCalibrationSize()
    ensures Width(AxisCalibration()) == 489
  {
    AxisCalibrationBack();
  }

  lemma GroupSize0()
    ensures Size(Group0()) == 18
  {
    assert |Group0()| == 8;
  }

  lemma GroupSize1()
    ensures Size(Group1()) == 26
  {
    assert |Group1()| == 8;
  }

  lemma GroupSize2()
    ensures Size(Group2()) == 20
  {
    assert |Group2()| == 8;
  }

  lemma GroupSize3()
    ensures Size(Group3()) == 26
  {
    assert |Group3()| == 8;
  }

  lemma GroupSize4()
    ensures Size(Group4()) == 18
  {
    assert |Group4()| == 8;
  }

  lemma GroupSize5()
    ensures Size(Group5()) == 26
  {
    assert |Group5()| == 8;
  }

  lemma GroupSize6()
    ensures Size(Group6()) == 20
  {
    assert |Group6()| == 8;
  }

  lemma GroupSize7()
    ensures Size(Group7()) == 34
  {
    assert |Group7()| == 8;
  }

  lemma GroupSize8()
    ensures Size(Group8()) == 414
  {
    assert |Group8()| == 8;
  }

  lemma GroupSize9()
    ensures Size(Group9()) == 46
  {
    assert |Group9()| == 8;
  }

  lemma GroupSize10()
    ensures Size(Group10()) == 20
  {
    assert |Group10()| == 8;
  }

  lemma GroupSize11()
    ensures Size(Group11()) == 56
  {
    assert |Group11()| == 8;
  }

  lemma GroupSize12()
    ensures Size(Group12()) == 704
  {
    assert |Group12()| == 8;
  }

  lemma GroupSize13()
    ensures Size(Group13()) == 22
  {
    assert |Group13()| == 8;
  }

  lemma GroupSize14()
    ensures Size(Group14()) == 36
  {
    assert |Group14()| == 8;
  }

  lemma GroupSize15()
    ensures Size(Group15()) == 266
  {
    RoiInfoSize();
    AxisCalibrationSize();
    assert |Group15()| == 8;
  }

  lemma GroupSize16()
    ensures Size(Group16()) == 2266
  {
    RoiInfoSize();
    AxisCalibrationSize();
    assert |Group16()| == 8;
  }

  lemma GroupSize17()
    ensures Size(Group17()) == 42
  {
    RoiInfoSize();
    AxisCalibrationSize();
    assert |Group17()| == 8;
  }

  lemma GroupSize18()
    ensures Size(Group18()) == 40
  {
    RoiInfoSize();
    AxisCalibrationSize();
    assert |Group18()| == 8;
  }

  /** The groups as the Header table lists them, eight fields each. */
  lemma GroupsShape()
    ensures |Groups| == 19 && Octets(Groups)
    ensures Groups[0] == Group0()
    ensures Groups[1] == Group1()
    ensures Groups[2] == Group2()
    ensures Groups[3] == Group3()
    ensures Groups[4] == Group4()
    ensures Groups[5] == Group5()
    ensures Groups[6] == Group6()
    ensures Groups[7] == Group7()
    ensures Groups[8] == Group8()
    ensures Groups[9] == Group9()
    ensures Groups[10] == Group10()
    ensures Groups[11] == Group11()
    ensures Groups[12] == Group12()
    ensures Groups[13] == Group13()
    ensures Groups[14] == Group14()
    ensures Groups[15] == Group15()
    ensures Groups[16] == Group16()
    ensures Groups[17] == Group17()
    ensures Groups[18] == Group18()
  {
  }

  /** Byte offset of group n as ctypes lays the groups out one after another. */
  function GroupOffset(n: nat): nat
    requires n <= |Groups|
  {
    Size(Concat(Groups, n))
  }

  /** Group 0 starts the header. */
  lemma GroupStarts0()
    ensures |Groups| == 19 && GroupOffset(0) == 0
  {
    GroupsShape();
  }

  /** Group 1 starts where group 0 ends. */
  lemma GroupStarts1()
    ensures |Groups| == 19 && GroupOffset(1) == 18
  {
    GroupStarts0();
    GroupsShape();
    GroupSize0();
    ConcatStep(Groups, 0);
  }

  /** Group 2 starts where group 1 ends. */
  lemma GroupStarts2()
    ensures |Groups| == 19 && GroupOffset(2) == 44
  {
    GroupStarts1();
    GroupsShape();
    GroupSize1();
    ConcatStep(Groups, 1);
  }

  /** Group 3 starts where group 2 ends. */
  lemma GroupStarts3()
    ensures |Groups| == 19 && GroupOffset(3) == 64
  {
    GroupStarts2();
    GroupsShape();
    GroupSize2();
    ConcatStep(Groups, 2);
  }

  /** Group 4 starts where group 3 ends. */
  lemma GroupStarts4()
    ensures |Groups| == 19 && GroupOffset(4) == 90
  {
    GroupStarts3();
    GroupsShape();
    GroupSize3();
    ConcatStep(Groups, 3);
  }

  /** Group 5 starts where group 4 ends. */
  lemma GroupStarts5()
    ensures |Groups| == 19 && GroupOffset(5) == 108
  {
    GroupStarts4();
    GroupsShape();
    GroupSize4();
    ConcatStep(Groups, 4);
  }

  /** Group 6 starts where group 5 ends. */
  lemma GroupStarts6()
    ensures |Groups| == 19 && GroupOffset(6) == 134
  {
    GroupStarts5();
    GroupsShape();
    GroupSize5();
    ConcatStep(Groups, 5);
  }

  /** Group 7 starts where group 6 ends. */
  lemma GroupStarts7()
    ensures |Groups| == 19 && GroupOffset(7) == 154
  {
    GroupStarts6();
    GroupsShape();
    GroupSize6();
    ConcatStep(Groups, 6);
  }

  /** Group 8 starts where group 7 ends. */
  lemma GroupStarts8()
    ensures |Groups| == 19 && GroupOffset(8) == 188
  {
    GroupStarts7();
    GroupsShape();
    GroupSize7();
    ConcatStep(Groups, 7);
  }

  /** Group 9 starts where group 8 ends. */
  lemma GroupStarts9()
    ensures |Groups| == 19 && GroupOffset(9) == 602
  {
    GroupStarts8();
    GroupsShape();
    GroupSize8();
    ConcatStep(Groups, 8);
  }

  /** Group 10 starts where group 9 ends. */
  lemma GroupStarts10()
    ensures |Groups| == 19 && GroupOffset(10) == 648
  {
    GroupStarts9();
    GroupsShape();
    GroupSize9();
    ConcatStep(Groups, 9);
  }

  /** Group 11 starts where group 10 ends. */
  lemma GroupStarts11()
    ensures |Groups| == 19 && GroupOffset(11) == 668
  {
    GroupStarts10();
    GroupsShape();
    GroupSize10();
    ConcatStep(Groups, 10);
  }

  /** Group 12 starts where group 11 ends. */
  lemma GroupStarts12()
    ensures |Groups| == 19 && GroupOffset(12) == 724
  {
    GroupStarts11();
    GroupsShape();
    GroupSize11();
    ConcatStep(Groups, 11);
  }

  /** Group 13 starts where group 12 ends. */
  lemma GroupStarts13()
    ensures |Groups| == 19 && GroupOffset(13) == 1428
  {
    GroupStarts12();
    GroupsShape();
    GroupSize12();
    ConcatStep(Groups, 12);
  }

  /** Group 14 starts where group 13 ends. */
  lemma GroupStarts14()
    ensures |Groups| == 19 && GroupOffset(14) == 1450
  {
    GroupStarts13();
    GroupsShape();
    GroupSize13();
    ConcatStep(Groups, 13);
  }

  /** Group 15 starts where group 14 ends. */
  lemma GroupStarts15()
    ensures |Groups| == 19 && GroupOffset(15) == 1486
  {
    GroupStarts14();
    GroupsShape();
    GroupSize14();
    ConcatStep(Groups, 14);
  }

  /** Group 16 starts where group 15 ends. */
  lemma GroupStarts16()
    ensures |Groups| == 19 && GroupOffset(16) == 1752
  {
    GroupStarts15();
    GroupsShape();
    GroupSize15();
    ConcatStep(Groups, 15);
  }

  /** Group 17 starts where group 16 ends. */
  lemma GroupStarts17()
    ensures |Groups| == 19 && GroupOffset(17) == 4018
  {
    GroupStarts16();
    GroupsShape();
    GroupSize16();
    ConcatStep(Groups, 16);
  }

  /** Group 18 starts where group 17 ends. */
  lemma GroupStarts18()
    ensures |Groups| == 19 && GroupOffset(18) == 4060
  {
    GroupStarts17();
    GroupsShape();
    GroupSize17();
    ConcatStep(Groups, 17);
  }

  /** Group 19 starts where group 18 ends. */
  lemma GroupStarts19()
    ensures |Groups| == 19 && GroupOffset(19) == 4100
  {
    GroupStarts18();
    GroupsShape();
    GroupSize18();
    ConcatStep(Groups, 18);
  }

  /** The Header has 152 fields, and ctypes makes it 4100 bytes long. */
  lemma HeaderSize()
    ensures |HeaderFields| == 152 && Size(HeaderFields) == 4100
  {
    GroupsShape();
    GroupStarts19();
  }

  /** Field j of group k is Header field 8k+j, at the group's start plus j's offset in it. */
  lemma FieldInGroup(k: nat, j: nat)
    requires k < 19 && j < 8
    ensures |Groups| == 19 && Octets(Groups) && |HeaderFields| == 152
    ensures HeaderFields[8 * k + j] == Groups[k][j]
    ensures Offset(HeaderFields, 8 * k + j) == GroupOffset(k) + Offset(Groups[k], j)
  {
    GroupsShape();
    ConcatIndex(Groups, 19, k, j);
  }

  /** Field i of the Header is called name, has type t and starts at byte off. */
  predicate FieldIs(i: nat, name: string, t: CType, off: nat)
  {
    i < |HeaderFields| && HeaderFields[i] == Field(name, t) && Offset(HeaderFields, i) == off
  }

  /** The date entry of its group, and its offset there. */
  lemma DateMember()
    ensures |Group1()| == 8
    ensures Group1()[1] == Field("date", ArrayOf(SpeChar(), DateMax)) && Offset(Group1(), 1) == 2
  {
    assert Offset(Group1(), 1) == 2;
  }

  /** date is Header field 9, at byte 20. */
  lemma DateField()
    ensures FieldIs(9, "date", ArrayOf(SpeChar(), DateMax), 20)
  {
    DateMember();
    FieldInGroup(1, 1);
    GroupStarts1();
  }

  /** The xdim entry of its group, and its offset there. */
  lemma XdimMember()
    ensures |Group1()| == 8
    ensures Group1()[7] == Field("xdim", SpeWord()) && Offset(Group1(), 7) == 24
  {
    assert Offset(Group1(), 7) == 24;
  }

  /** xdim is Header field 15, at byte 42. */
  lemma XdimField()
    ensures FieldIs(15, "xdim", SpeWord(), 42)
  {
    XdimMember();
    FieldInGroup(1, 7);
    GroupStarts1();
  }

  /** The datatype entry of its group, and its offset there. */
  lemma DatatypeMember()
    ensures |Group5()| == 8
    ensures Group5()[0] == Field("datatype", SpeShort()) && Offset(Group5(), 0) == 0
  {
    assert Offset(Group5(), 0) == 0;
  }

  /** datatype is Header field 40, at byte 108. */
  lemma DatatypeField()
    ensures FieldIs(40, "datatype", SpeShort(), 108)
  {
    DatatypeMember();
    FieldInGroup(5, 0);
    GroupStarts5();
  }

  /** The ADCrate entry of its group, and its offset there. */
  lemma AdcRateMember()
    ensures |Group8()| == 8
    ensures Group8()[1] == Field("ADCrate", SpeWord()) && Offset(Group8(), 1) == 2
  {
    assert Offset(Group8(), 1) == 2;
  }

  /** ADCrate is Header field 65, at byte 190. */
  lemma AdcRateField()
    ensures FieldIs(65, "ADCrate", SpeWord(), 190)
  {
    AdcRateMember();
    FieldInGroup(8, 1);
    GroupStarts8();
  }

  /** The ADCtype entry of its group, and its offset there. */
  lemma AdcTypeMember()
    ensures |Group8()| == 8
    ensures Group8()[2] == Field("ADCtype", SpeWord()) && Offset(Group8(), 2) == 4
  {
    assert Offset(Group8(), 2) == 4;
  }

  /** ADCtype is Header field 66, at byte 192. */
  lemma AdcTypeField()
    ensures FieldIs(66, "ADCtype", SpeWord(), 192)
  {
    AdcTypeMember();
    FieldInGroup(8, 2);
    GroupStarts8();
  }

  /** The gain entry of its group, and its offset there. */
  lemma GainMember()
    ensures |Group8()| == 8
    ensures Group8()[5] == Field("gain", SpeWord()) && Offset(Group8(), 5) == 10
  {
    assert Offset(Group8(), 5) == 10;
  }

  /** gain is Header field 69, at byte 198. */
  lemma GainField()
    ensures FieldIs(69, "gain", SpeWord(), 198)
  {
    GainMember();
    FieldInGroup(8, 5);
    GroupStarts8();
  }

  /** The geometric entry of its group, and its offset there. */
  lemma GeometricMember()
    ensures |Group8()| == 8
    ensures Group8()[7] == Field("geometric", SpeWord()) && Offset(Group8(), 7) == 412
  {
    assert Offset(Group8(), 7) == 412;
  }

  /** geometric is Header field 71, at byte 600. */
  lemma GeometricField()
    ensures FieldIs(71, "geometric", SpeWord(), 600)
  {
    GeometricMember();
    FieldInGroup(8, 7);
    GroupStarts8();
  }

  /** The ydim entry of its group, and its offset there. */
  lemma YdimMember()
    ensures |Group10()| == 8
    ensures Group10()[3] == Field("ydim", SpeWord()) && Offset(Group10(), 3) == 8
  {
    assert Offset(Group10(), 3) == 8;
  }

  /** ydim is Header field 83, at byte 656. */
  lemma YdimField()
    ensures FieldIs(83, "ydim", SpeWord(), 656)
  {
    YdimMember();
    FieldInGroup(10, 3);
    GroupStarts10();
  }

  /** The ReadoutTime entry of its group, and its offset there. */
  lemma ReadoutTimeMember()
    ensures |Group11()| == 8
    ensures Group11()[1] == Field("ReadoutTime", SpeFloat()) && Offset(Group11(), 1) == 4
  {
    assert Offset(Group11(), 1) == 4;
  }

  /** ReadoutTime is Header field 89, at byte 672. */
  lemma ReadoutTimeField()
    ensures FieldIs(89, "ReadoutTime", SpeFloat(), 672)
  {
    ReadoutTimeMember();
    FieldInGroup(11, 1);
    GroupStarts11();
  }

  /** The NumFrames entry of its group, and its offset there. */
  lemma NumFramesMember()
    ensures |Group13()| == 8
    ensures Group13()[7] == Field("NumFrames", SpeLong()) && Offset(Group13(), 7) == 18
  {
    assert Offset(Group13(), 7) == 18;
  }

  /** NumFrames is Header field 111, at byte 1446. */
  lemma NumFramesField()
    ensures FieldIs(111, "NumFrames", SpeLong(), 1446)
  {
    NumFramesMember();
    FieldInGroup(13, 7);
    GroupStarts13();
  }

  /** The ROIinfblk entry of its group, and its offset there. */
  lemma RoiInfblkMember()
    ensures |Group15()| == 8
    ensures Group15()[6] == Field("ROIinfblk", ArrayOf(RoiInfo(), RoiMax)) && Offset(Group15(), 6) == 26
  {
    RoiInfoSize();
    assert Offset(Group15(), 6) == 26;
  }

  /** ROIinfblk is Header field 126, at byte 1512. */
  lemma RoiInfblkField()
    ensures FieldIs(126, "ROIinfblk", ArrayOf(RoiInfo(), RoiMax), 1512)
  {
    RoiInfblkMember();
    FieldInGroup(15, 6);
    GroupStarts15();
  }

  /** The xcalibration entry of its group, and its offset there. */
  lemma XCalibrationMember()
    ensures |Group16()| == 8
    ensures Group16()[5] == Field("xcalibration", AxisCalibration()) && Offset(Group16(), 5) == 1248
  {
    RoiInfoSize();
    AxisCalibrationSize();
    assert Offset(Group16(), 5) == 1248;
  }

  /** xcalibration is Header field 133, at byte 3000. */
  lemma XCalibrationField()
    ensures FieldIs(133, "xcalibration", AxisCalibration(), 3000)
  {
    XCalibrationMember();
    FieldInGroup(16, 5);
    GroupStarts16();
  }

  /** The ycalibration entry of its group, and its offset there. */
  lemma YCalibrationMember()
    ensures |Group16()| == 8
    ensures Group16()[6] == Field("ycalibration", AxisCalibration()) && Offset(Group16(), 6) == 1737
  {
    RoiInfoSize();
    AxisCalibrationSize();
    assert Offset(Group16(), 6) == 1737;
  }

  /** ycalibration is Header field 134, at byte 3489. */
  lemma YCalibrationField()
    ensures FieldIs(134, "ycalibration", AxisCalibration(), 3489)
  {
    YCalibrationMember();
    FieldInGroup(16, 6);
    GroupStarts16();
  }

  /** The lastvalue entry of its group, and its offset there. */
  lemma LastValueMember()
    ensures |Group18()| == 8
    ensures Group18()[7] == Field("lastvalue", SpeShort()) && Offset(Group18(), 7) == 38
  {
    assert Offset(Group18(), 7) == 38;
  }

  /** lastvalue is Header field 151, at byte 4098. */
  lemma LastValueField()
    ensures FieldIs(151, "lastvalue", SpeShort(), 4098)
  {
    LastValueMember();
    FieldInGroup(18, 7);
    GroupStarts18();
  }
}
