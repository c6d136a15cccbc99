/**
 * winspec/struct.py: the same three ctypes tables written with ctypes' own
 * type names and the WinSpec aliases BYTE, WORD and DWORD. A table is kept as
 * Python states it, entry by entry with its type expression unevaluated, and
 * building it evaluates each expression in the module's scope in order, as
 * the class statement does: the first name that is not bound raises NameError.
 */
module StructTables {
  import opened Wrappers
  import opened Layout
  import H = SpeHeader

  // ----- Names and type expressions ----------------------------------------------

  /**
   * The type names the tables use: ctypes' own, the aliases of
   * winspec/struct.py:4-6, the two structures the module defines, and
   * `Calibration`, which it does not define.
   */
  datatype TypeName =
    | CUByte | CUShort | CUInt | CChar | CShort | CInt | CFloat | CDouble
    | Byte | Word | Dword
    | RoiInfoName | AxisCalibrationName | CalibrationName

  /** The array-length constants of winspec/struct.py:11-18. */
  datatype ConstName =
    HdrNameMax | UserInfoMax | CommentMax | LabelMax | FileVerMax | DateMax | RoiMax | TimeMax

  function ConstValue(c: ConstName): nat
  {
    match c
    case HdrNameMax => 120
    case UserInfoMax => 1000
    case CommentMax => 80
    case LabelMax => 16
    case FileVerMax => 16
    case DateMax => 10
    case RoiMax => 10
    case TimeMax => 7
  }

  /** The constants have the values winspec.py gives them. */
  lemma ConstantsAgree()
    ensures ConstValue(HdrNameMax) == H.HdrNameMax && ConstValue(UserInfoMax) == H.UserInfoMax
    ensures ConstValue(CommentMax) == H.CommentMax && ConstValue(LabelMax) == H.LabelMax
    ensures ConstValue(FileVerMax) == H.FileVerMax && ConstValue(DateMax) == H.DateMax
    ensures ConstValue(RoiMax) == H.RoiMax && ConstValue(TimeMax) == H.TimeMax
  {
  }

  /** An array length: a number or one of the constants. */
  datatype Count = Lit(n: nat) | Const(c: ConstName)

  function CountValue(c: Count): nat
  {
    match c
    case Lit(n) => n
    case Const(k) => ConstValue(k)
  }

  /** The type expression of a `_fields_` entry: a name, or `t * count`. */
  datatype TypeExpr = Name(n: TypeName) | Times(elem: TypeExpr, count: Count)

  /** One `(name, type)` entry of a `_fields_` list. */
  datatype Entry = Entry(name: string, texpr: TypeExpr)

  /** The names bound at some point of the module and the types they denote. */
  type Scope = map<TypeName, CType>

  /** `from ctypes import *` and the aliases of winspec/struct.py:4-6. */
  function CtypesScope(): Scope
  {
    map[CUByte := Scalar(UByte), CUShort := Scalar(UShort), CUInt := Scalar(UInt),
        CChar := Scalar(Char), CShort := Scalar(Short), CInt := Scalar(Int),
        CFloat := Scalar(Float), CDouble := Scalar(Double),
        Byte := Scalar(UByte), Word := Scalar(UShort), Dword := Scalar(UInt)]
  }

  /**
   * BYTE, WORD and DWORD are the 1-, 2- and 4-byte unsigned types, and each
   * name denotes the type winspec.py uses in its place: c_int for the 4-byte
   * "long" of the manual.
   */
  lemma AliasWidths()
    ensures Width(CtypesScope()[Byte]) == 1 && IsUnsigned(CtypesScope()[Byte])
    ensures Width(CtypesScope()[Word]) == 2 && IsUnsigned(CtypesScope()[Word])
    ensures Width(CtypesScope()[Dword]) == 4 && IsUnsigned(CtypesScope()[Dword])
    ensures Width(CtypesScope()[CShort]) == 2 && IsSigned(CtypesScope()[CShort])
    ensures Width(CtypesScope()[CInt]) == 4 && IsSigned(CtypesScope()[CInt])
    ensures CtypesScope()[Byte] == H.SpeByte() && CtypesScope()[Word] == H.SpeWord()
    ensures CtypesScope()[Dword] == H.SpeDword() && CtypesScope()[CChar] == H.SpeChar()
    ensures CtypesScope()[CShort] == H.SpeShort() && CtypesScope()[CInt] == H.SpeLong()
    ensures CtypesScope()[CFloat] == H.SpeFloat() && CtypesScope()[CDouble] == H.SpeDouble()
  {
  }

  /** e names n. */
  predicate Mentions(e: TypeExpr, n: TypeName)
  {
    match e
    case Name(m) => m == n
    case Times(elem, _) => Mentions(elem, n)
  }

  /** Evaluating a type expression: the type, or the NameError of its unbound name. */
  function EvalType(e: TypeExpr, sc: Scope): (r: Result<CType, TypeName>)
    ensures r.Err? ==> r.error !in sc && Mentions(e, r.error)
  {
    match e
    case Name(n) => if n in sc then Ok(sc[n]) else Err(n)
    case Times(elem, c) =>
      match EvalType(elem, sc)
      case Err(n) => Err(n)
      case Ok(t) => Ok(ArrayOf(t, CountValue(c)))
  }

  // ----- Building a table ----------------------------------------------------------

  /**
   * The first n entries evaluated in order: the fields, with the entries' names
   * and the types their expressions denote, or the NameError of the first
   * entry that does not evaluate.
   */
  function BuildN(es: seq<Entry>, sc: Scope, n: nat): (r: Result<seq<Field>, TypeName>)
    requires n <= |es|
    ensures r.Ok? ==> |r.value| == n
    ensures r.Ok? <==> forall i :: 0 <= i < n ==> EvalType(es[i].texpr, sc).Ok?
    ensures r.Ok? ==> forall i :: 0 <= i < n ==>
      r.value[i] == Field(es[i].name, EvalType(es[i].texpr, sc).value)
    ensures r.Err? ==> exists i :: (0 <= i < n && EvalType(es[i].texpr, sc) == Err(r.error) &&
      forall j :: 0 <= j < i ==> EvalType(es[j].texpr, sc).Ok?)
  {
    if n == 0 then Ok([])
    else
      match BuildN(es, sc, n - 1)
      case Err(e) => Err(e)
      case Ok(fs) =>
        match EvalType(es[n - 1].texpr, sc)
        case Err(e) => Err(e)
        case Ok(t) => Ok(fs + [Field(es[n - 1].name, t)])
  }

  /** The `_fields_` list es evaluated in scope sc. */
  function Build(es: seq<Entry>, sc: Scope): Result<seq<Field>, TypeName>
  {
    BuildN(es, sc, |es|)
  }

  /** The outcome of two tables built one after the other. */
  function Then(ra: Result<seq<Field>, TypeName>, rb: Result<seq<Field>, TypeName>): Result<seq<Field>, TypeName>
  {
    match ra
    case Err(e) => Err(e)
    case Ok(fa) =>
      match rb
      case Err(e) => Err(e)
      case Ok(fb) => Ok(fa + fb)
  }

  /** Building a list built from two is building the first, then the second. */
  lemma BuildAppend(a: seq<Entry>, b: seq<Entry>, sc: Scope)
    ensures Build(a + b, sc) == Then(Build(a, sc), Build(b, sc))
  {
    BuildNAppend(a, b, sc, |b|);
  }

  lemma {:induction false} BuildNAppend(a: seq<Entry>, b: seq<Entry>, sc: Scope, m: nat)
    requires m <= |b|
    ensures BuildN(a + b, sc, |a| + m) == Then(Build(a, sc), BuildN(b, sc, m))
  {
    if m == 0 {
      BuildNPrefix(a, b, sc, |a|);
      if Build(a, sc).Ok? {
        assert Build(a, sc).value + [] == Build(a, sc).value;
      }
    } else {
      BuildNAppend(a, b, sc, m - 1);
      var e := b[m - 1];
      assert (a + b)[|a| + m - 1] == e;
      match Build(a, sc)
      case Err(_) =>
      case Ok(fa) =>
        match BuildN(b, sc, m - 1)
        case Err(_) =>
        case Ok(fb) =>
          match EvalType(e.texpr, sc)
          case Err(_) =>
          case Ok(t) =>
            assert fa + fb + [Field(e.name, t)] == fa + (fb + [Field(e.name, t)]);
    }
  }

  /** A list whose every entry evaluates to the type of the field beside it builds to those fields. */
  lemma BuildsTo(es: seq<Entry>, sc: Scope, fs: seq<Field>)
    requires |es| == |fs|
    requires forall i :: 0 <= i < |es| ==> es[i].name == fs[i].name && EvalType(es[i].texpr, sc) == Ok(fs[i].ctype)
    ensures Build(es, sc) == Ok(fs)
  {
    var r := Build(es, sc);
    assert forall i :: 0 <= i < |es| ==> EvalType(es[i].texpr, sc).Ok?;
    assert r.Ok?;
    assert forall i :: 0 <= i < |es| ==> r.value[i] == fs[i];
    assert r.value == fs;
  }

  lemma {:induction false} BuildNPrefix(a: seq<Entry>, b: seq<Entry>, sc: Scope, k: nat)
    requires k <= |a|
    ensures BuildN(a + b, sc, k) == BuildN(a, sc, k)
  {
    if k > 0 {
      BuildNPrefix(a, b, sc, k - 1);
      assert (a + b)[k - 1] == a[k - 1];
    }
  }

  /** sc' binds every name sc binds, to the same type. */
  predicate Extends(sc: Scope, sc': Scope)
  {
    forall k :: k in sc ==> k in sc' && sc'[k] == sc[k]
  }

  /** A table that builds in a scope builds the same in a scope that binds more names. */
  lemma {:induction false} BuildMono(es: seq<Entry>, sc: Scope, sc': Scope, n: nat)
    requires n <= |es| && BuildN(es, sc, n).Ok? && Extends(sc, sc')
    ensures BuildN(es, sc', n) == BuildN(es, sc, n)
  {
    if n > 0 {
      BuildMono(es, sc, sc', n - 1);
      EvalMono(es[n - 1].texpr, sc, sc');
    }
  }

  lemma {:induction false} EvalMono(e: TypeExpr, sc: Scope, sc': Scope)
    requires EvalType(e, sc).Ok? && Extends(sc, sc')
    ensures EvalType(e, sc') == EvalType(e, sc)
  {
    match e
    case Name(n) =>
    case Times(elem, c) => EvalMono(elem, sc, sc');
  }

  /** The entries of groups 0 .. n-1 one after another. */
  function Flatten(gs: seq<seq<Entry>>, n: nat): seq<Entry>
    requires n <= |gs|
  {
    if n == 0 then [] else Flatten(gs, n - 1) + gs[n - 1]
  }

  /** Groups that build one by one to hs build together to hs's concatenation. */
  lemma FlattenStep(gs: seq<seq<Entry>>, hs: seq<seq<Field>>, n: nat, sc: Scope)
    requires n < |gs| && n < |hs|
    requires Build(Flatten(gs, n), sc) == Ok(H.Concat(hs, n)) && Build(gs[n], sc) == Ok(hs[n])
    ensures Build(Flatten(gs, n + 1), sc) == Ok(H.Concat(hs, n + 1))
  {
    BuildAppend(Flatten(gs, n), gs[n], sc);
  }

  /** After a NameError, the groups that follow are not evaluated. */
  lemma FlattenFailed(gs: seq<seq<Entry>>, n: nat, sc: Scope)
    requires n < |gs| && Build(Flatten(gs, n), sc).Err?
    ensures Build(Flatten(gs, n + 1), sc) == Build(Flatten(gs, n), sc)
  {
    BuildAppend(Flatten(gs, n), gs[n], sc);
  }

  /** A NameError in group n, after groups that built, is the error of the groups up to n. */
  lemma FlattenFails(gs: seq<seq<Entry>>, n: nat, sc: Scope, e: TypeName)
    requires n < |gs| && Build(Flatten(gs, n), sc).Ok? && Build(gs[n], sc) == Err(e)
    ensures Build(Flatten(gs, n + 1), sc) == Err(e)
  {
    BuildAppend(Flatten(gs, n), gs[n], sc);
  }

  // ----- The module body -------------------------------------------------------------

  /** The scope in which the Header class body runs: ctypes, the aliases and both structures. */
  function ModuleScope(): Scope
  {
    CtypesScope()[RoiInfoName := H.RoiInfo()][AxisCalibrationName := H.AxisCalibration()]
  }

  /** ModuleScope with `Calibration` bound to AxisCalibration, the evidently meant name. */
  function CalibrationScope(): Scope
  {
    ModuleScope()[CalibrationName := H.AxisCalibration()]
  }

  /** The three tables, when the module body runs to its end. */
  datatype Tables = Tables(roiInfo: seq<Field>, axisCalibration: seq<Field>, header: seq<Field>)

  /** Running the module: the three class statements in order, each in the scope the ones before leave. */
  function ModuleBody(): Result<Tables, TypeName>
  {
    match Build(RoiInfoEntries(), CtypesScope())
    case Err(e) => Err(e)
    case Ok(roi) => AfterRoiInfo(roi)
  }

  /** The rest of the module once `class ROIinfo` has bound its fields roi. */
  function AfterRoiInfo(roi: seq<Field>): Result<Tables, TypeName>
  {
    match Build(AxisCalibrationEntries(), CtypesScope()[RoiInfoName := Struct("ROIinfo", roi)])
    case Err(e) => Err(e)
    case Ok(cal) => AfterAxisCalibration(roi, cal)
  }

  /** The rest of the module once `class AxisCalibration` has bound its fields cal. */
  function AfterAxisCalibration(roi: seq<Field>, cal: seq<Field>): Result<Tables, TypeName>
  {
    var sc := CtypesScope()[RoiInfoName := Struct("ROIinfo", roi)][AxisCalibrationName := Struct("AxisCalibration", cal)];
    match Build(HeaderEntries, sc)
    case Err(e) => Err(e)
    case Ok(hdr) => Ok(Tables(roi, cal, hdr))
  }

  // ----- The tables as written ----------------------------------------------------------

  /** The ROIinfo table (winspec/struct.py:20-29). */
  function RoiInfoEntries(): seq<Entry>
  {
    [
      Entry("startx", Name(Word)),
      Entry("endx", Name(Word)),
      Entry("groupx", Name(Word)),
      Entry("starty", Name(Word)),
      Entry("endy", Name(Word)),
      Entry("groupy", Name(Word))]
  }

  /** The AxisCalibration table (winspec/struct.py:31-53). */
  function AxisCalibrationEntries(): seq<Entry>
  {
    [
      Entry("offset", Name(CDouble)),
      Entry("factor", Name(CDouble)),
      Entry("current_unit", Name(CChar)),
      Entry("reserved1", Name(CChar)),
      Entry("string", Times(Name(CChar), Lit(40))),
      Entry("reserved2", Times(Name(CChar), Lit(40))),
      Entry("calib_valid", Name(CChar)),
      Entry("input_unit", Name(CChar)),
      Entry("polynom_unit", Name(CChar)),
      Entry("polynom_order", Name(CChar)),
      Entry("calib_count", Name(CChar)),
      Entry("pixel_position", Times(Name(CDouble), Lit(10))),
      Entry("calib_value", Times(Name(CDouble), Lit(10))),
      Entry("polynom_coeff", Times(Name(CDouble), Lit(6))),
      Entry("laser_position", Name(CDouble)),
      Entry("reserved3", Name(CChar)),
      Entry("new_calib_flag", Name(Byte)),
      Entry("calib_label", Times(Name(CChar), Lit(81))),
      Entry("expansion", Times(Name(CChar), Lit(87)))]
  }

  /** Header entries 0 to 7 (winspec/struct.py:60-67). */
  function EntryGroup0(): seq<Entry>
  {
    [
      Entry("ControllerVersion", Name(CShort)),
      Entry("LogicOutput", Name(CShort)),
      Entry("AmpHiCapLowNoise", Name(Word)),
      Entry("xDimDet", Name(Word)),
      Entry("mode", Name(CShort)),
      Entry("exp_sec", Name(CFloat)),
      Entry("VChipXdim", Name(CShort)),
      Entry("VChipYdim", Name(CShort))]
  }

  /** Header entries 8 to 15 (winspec/struct.py:68-75). */
  function EntryGroup1(): seq<Entry>
  {
    [
      Entry("yDimDet", Name(Word)),
      Entry("date", Times(Name(CChar), Const(DateMax))),
      Entry("VirtualChipFlag", Name(CShort)),
      Entry("Spare_1", Times(Name(CChar), Lit(2))),
      Entry("noscan", Name(CShort)),
      Entry("DetTemperature", Name(CFloat)),
      Entry("DetType", Name(CShort)),
      Entry("xdim", Name(Word))]
  }

  /** Header entries 16 to 23 (winspec/struct.py:76-83). */
  function EntryGroup2(): seq<Entry>
  {
    [
      Entry("stdiode", Name(CShort)),
      Entry("DelayTime", Name(CFloat)),
      Entry("ShutterControl", Name(Word)),
      Entry("AbsorbLive", Name(CShort)),
      Entry("AbsorbMode", Name(Word)),
      Entry("CanDoVirtualChipFlag", Name(CShort)),
      Entry("ThresholdMinLive", Name(CShort)),
      Entry("ThresholdMinVal", Name(CFloat))]
  }

  /** Header entries 24 to 31 (winspec/struct.py:84-91). */
  function EntryGroup3(): seq<Entry>
  {
    [
      Entry("ThresholdMaxLive", Name(CShort)),
      Entry("ThresholdMaxVal", Name(CFloat)),
      Entry("SpecAutoSpectroMode", Name(CShort)),
      Entry("SpecCenterWlNm", Name(CFloat)),
      Entry("SpecGlueFlag", Name(CShort)),
      Entry("SpecGlueStartWlNm", Name(CFloat)),
      Entry("SpecGlueEndWlNm", Name(CFloat)),
      Entry("SpecGlueMinOvrlpNm", Name(CFloat))]
  }

  /** Header entries 32 to 39 (winspec/struct.py:92-99). */
  function EntryGroup4(): seq<Entry>
  {
    [
      Entry("SpecGlueFinalResNm", Name(CFloat)),
      Entry("PulserType", Name(CShort)),
      Entry("CustomChipFlag", Name(CShort)),
      Entry("XPrePixels", Name(CShort)),
      Entry("XPostPixels", Name(CShort)),
      Entry("YPrePixels", Name(CShort)),
      Entry("YPostPixels", Name(CShort)),
      Entry("asynen", Name(CShort))]
  }

  /** Header entries 40 to 47 (winspec/struct.py:100-107). */
  function EntryGroup5(): seq<Entry>
  {
    [
      Entry("datatype", Name(CShort)),
      Entry("PulserMode", Name(CShort)),
      Entry("PulserOnChipAccums", Name(Word)),
      Entry("PulserRepeatExp", Name(Dword)),
      Entry("PulseRepWidth", Name(CFloat)),
      Entry("PulseRepDelay", Name(CFloat)),
      Entry("PulseSeqStartWidth", Name(CFloat)),
      Entry("PulseSeqEndWidth", Name(CFloat))]
  }

  /** Header entries 48 to 55 (winspec/struct.py:108-115). */
  function EntryGroup6(): seq<Entry>
  {
    [
      Entry("PulseSeqStartDelay", Name(CFloat)),
      Entry("PulseSeqEndDelay", Name(CFloat)),
      Entry("PulseSeqIncMode", Name(CShort)),
      Entry("PImaxUsed", Name(CShort)),
      Entry("PImaxMode", Name(CShort)),
      Entry("PImaxGain", Name(CShort)),
      Entry("BackGrndApplied", Name(CShort)),
      Entry("PImax2nsBrdUsed", Name(CShort))]
  }

  /** Header entries 56 to 63 (winspec/struct.py:116-123). */
  function EntryGroup7(): seq<Entry>
  {
    [
      Entry("minblk", Name(Word)),
      Entry("numminblk", Name(Word)),
      Entry("SpecMirrorLocation", Times(Name(CShort), Lit(2))),
      Entry("SpecSlitLocation", Times(Name(CShort), Lit(4))),
      Entry("CustomTimingFlag", Name(CShort)),
      Entry("ExperimentTimeLocal", Times(Name(CChar), Const(TimeMax))),
      Entry("ExperimentTimeUTC", Times(Name(CChar), Const(TimeMax))),
      Entry("ExposUnits", Name(CShort))]
  }

  /** Header entries 64 to 71 (winspec/struct.py:124-131). */
  function EntryGroup8(): seq<Entry>
  {
    [
      Entry("ADCoffset", Name(Word)),
      Entry("ADCrate", Name(Word)),
      Entry("ADCtype", Name(Word)),
      Entry("ADCresolution", Name(Word)),
      Entry("ADCbitAdjust", Name(Word)),
      Entry("gain", Name(Word)),
      Entry("Comments", Times(Times(Name(CChar), Lit(5)), Const(CommentMax))),
      Entry("geometric", Name(Word))]
  }

  /** Header entries 72 to 79 (winspec/struct.py:132-139). */
  function EntryGroup9(): seq<Entry>
  {
    [
      Entry("xlabel", Times(Name(CChar), Const(LabelMax))),
      Entry("cleans", Name(Word)),
      Entry("NumSkpPerCln", Name(Word)),
      Entry("SpecMirrorPos", Times(Name(CShort), Lit(2))),
      Entry("SpecSlitPos", Times(Name(CFloat), Lit(4))),
      Entry("AutoCleansActive", Name(CShort)),
      Entry("UseContCleansInst", Name(CShort)),
      Entry("AbsorbStripNum", Name(CShort))]
  }

  /** Header entries 80 to 87 (winspec/struct.py:140-147). */
  function EntryGroup10(): seq<Entry>
  {
    [
      Entry("SpecSlipPosUnits", Name(CShort)),
      Entry("SpecGrooves", Name(CFloat)),
      Entry("srccmp", Name(CShort)),
      Entry("ydim", Name(Word)),
      Entry("scramble", Name(CShort)),
      Entry("ContinuousCleansFlag", Name(CShort)),
      Entry("ExternalTriggerFlag", Name(CShort)),
      Entry("lnoscan", Name(CInt))]
  }

  /** Header entries 88 to 95 (winspec/struct.py:148-155). */
  function EntryGroup11(): seq<Entry>
  {
    [
      Entry("lavgexp", Name(CInt)),
      Entry("ReadoutTime", Name(CFloat)),
      Entry("TriggeredModeFlag", Name(CShort)),
      Entry("Spare_2", Times(Name(CChar), Lit(10))),
      Entry("sw_version", Times(Name(CChar), Const(FileVerMax))),
      Entry("type", Name(CShort)),
      Entry("flatFieldApplied", Name(CShort)),
      Entry("Spare_3", Times(Name(CChar), Lit(16)))]
  }

  /** Header entries 96 to 103 (winspec/struct.py:156-163). */
  function EntryGroup12(): seq<Entry>
  {
    [
      Entry("kin_trig_mode", Name(CShort)),
      Entry("dlabel", Times(Name(CChar), Const(LabelMax))),
      Entry("Spare_4", Times(Name(CChar), Lit(436))),
      Entry("PulseFileName", Times(Name(CChar), Const(HdrNameMax))),
      Entry("AbsorbFileName", Times(Name(CChar), Const(HdrNameMax))),
      Entry("NumExpRepeats", Name(Dword)),
      Entry("NumExpAccums", Name(Dword)),
      Entry("YT_Flag", Name(CShort))]
  }

  /** Header entries 104 to 111 (winspec/struct.py:164-171). */
  function EntryGroup13(): seq<Entry>
  {
    [
      Entry("clkspd_us", Name(CFloat)),
      Entry("HWaccumFlag", Name(CShort)),
      Entry("StoreSync", Name(CShort)),
      Entry("BlemishApplied", Name(CShort)),
      Entry("CosmicApplied", Name(CShort)),
      Entry("CosmicType", Name(CShort)),
      Entry("CosmicThreshold", Name(CFloat)),
      Entry("NumFrames", Name(CInt))]
  }

  /** Header entries 112 to 119 (winspec/struct.py:172-179). */
  function EntryGroup14(): seq<Entry>
  {
    [
      Entry("MaxIntensity", Name(CFloat)),
      Entry("MinIntensity", Name(CFloat)),
      Entry("ylabel", Times(Name(CChar), Const(LabelMax))),
      Entry("ShutterType", Name(Word)),
      Entry("shutterComp", Name(CFloat)),
      Entry("readoutMode", Name(Word)),
      Entry("WindowSize", Name(Word)),
      Entry("clkspd", Name(Word))]
  }

  /** Header entries 120 to 127 (winspec/struct.py:180-187). */
  function EntryGroup15(): seq<Entry>
  {
    [
      Entry("interface_type", Name(Word)),
      Entry("NumROIsInExperiment", Name(CShort)),
      Entry("Spare_5", Times(Name(CChar), Lit(16))),
      Entry("controllerNum", Name(Word)),
      Entry("SWmade", Name(Word)),
      Entry("NumROI", Name(CShort)),
      Entry("ROIinfblk", Times(Name(RoiInfoName), Const(RoiMax))),
      Entry("FlatField", Times(Name(CChar), Const(HdrNameMax)))]
  }

  /** Header entries 128 to 135 (winspec/struct.py:188-195). */
  function EntryGroup16(): seq<Entry>
  {
    [
      Entry("background", Times(Name(CChar), Const(HdrNameMax))),
      Entry("blemish", Times(Name(CChar), Const(HdrNameMax))),
      Entry("file_header_ver", Name(CFloat)),
      Entry("YT_Info", Times(Name(CChar), Lit(1000))),
      Entry("WinView_id", Name(CInt)),
      Entry("xcalibration", Name(CalibrationName)),
      Entry("ycalibration", Name(CalibrationName)),
      Entry("Istring", Times(Name(CChar), Lit(40)))]
  }

  /** Header entries 136 to 143 (winspec/struct.py:196-203). */
  function EntryGroup17(): seq<Entry>
  {
    [
      Entry("Spare_6", Times(Name(CChar), Lit(25))),
      Entry("SpecType", Name(Byte)),
      Entry("SpecModel", Name(Byte)),
      Entry("PulseBurstUsed", Name(Byte)),
      Entry("PulseBurstCount", Name(Dword)),
      Entry("PulseBurstPeriod", Name(CDouble)),
      Entry("PulseBracketUsed", Name(Byte)),
      Entry("PulseBracketType", Name(Byte))]
  }

  /** Header entries 144 to 151 (winspec/struct.py:204-211). */
  function EntryGroup18(): seq<Entry>
  {
    [
      Entry("PulseTimeConstFast", Name(CDouble)),
      Entry("PulseAmplitudeFast", Name(CDouble)),
      Entry("PulseTimeConstSlow", Name(CDouble)),
      Entry("PulseAmplitudeSlow", Name(CDouble)),
      Entry("AnalogGain", Name(CShort)),
      Entry("AvGainUsed", Name(CShort)),
      Entry("AvGain", Name(CShort)),
      Entry("lastvalue", Name(CShort))]
  }

  /** The Header table (winspec/struct.py:55-211) as its 19 groups. */
  const EntryGroups: seq<seq<Entry>> := [
    EntryGroup0(),
    EntryGroup1(),
    EntryGroup2(),
    EntryGroup3(),
    EntryGroup4(),
    EntryGroup5(),
    EntryGroup6(),
    EntryGroup7(),
    EntryGroup8(),
    EntryGroup9(),
    EntryGroup10(),
    EntryGroup11(),
    EntryGroup12(),
    EntryGroup13(),
    EntryGroup14(),
    EntryGroup15(),
    EntryGroup16(),
    EntryGroup17(),
    EntryGroup18()]

  /** Header entries 0 to 7 build to winspec.py's. */
  lemma Group0Builds()
    ensures Build(EntryGroup0(), ModuleScope()) == Ok(H.Group0())
  {
    var es := EntryGroup0();
    var fs := H.Group0();
    assert EvalType(es[0].texpr, ModuleScope()) == Ok(fs[0].ctype);
    assert EvalType(es[1].texpr, ModuleScope()) == Ok(fs[1].ctype);
    assert EvalType(es[2].texpr, ModuleScope()) == Ok(fs[2].ctype);
    assert EvalType(es[3].texpr, ModuleScope()) == Ok(fs[3].ctype);
    assert EvalType(es[4].texpr, ModuleScope()) == Ok(fs[4].ctype);
    assert EvalType(es[5].texpr, ModuleScope()) == Ok(fs[5].ctype);
    assert EvalType(es[6].texpr, ModuleScope()) == Ok(fs[6].ctype);
    assert EvalType(es[7].texpr, ModuleScope()) == Ok(fs[7].ctype);
    BuildsTo(es, ModuleScope(), fs);
  }

  /** Header entries 8 to 15 build to winspec.py's. */
  lemma Group1Builds()
    ensures Build(EntryGroup1(), ModuleScope()) == Ok(H.Group1())
  {
    var es := EntryGroup1();
    var fs := H.Group1();
    assert EvalType(es[0].texpr, ModuleScope()) == Ok(fs[0].ctype);
    assert EvalType(es[1].texpr, ModuleScope()) == Ok(fs[1].ctype);
    assert EvalType(es[2].texpr, ModuleScope()) == Ok(fs[2].ctype);
    assert EvalType(es[3].texpr, ModuleScope()) == Ok(fs[3].ctype);
    assert EvalType(es[4].texpr, ModuleScope()) == Ok(fs[4].ctype);
    assert EvalType(es[5].texpr, ModuleScope()) == Ok(fs[5].ctype);
    assert EvalType(es[6].texpr, ModuleScope()) == Ok(fs[6].ctype);
    assert EvalType(es[7].texpr, ModuleScope()) == Ok(fs[7].ctype);
    BuildsTo(es, ModuleScope(), fs);
  }

  /** Header entries 16 to 23 build to winspec.py's. */
  lemma Group2Builds()
    ensures Build(EntryGroup2(), ModuleScope()) == Ok(H.Group2())
  {
    var es := EntryGroup2();
    var fs := H.Group2();
    assert EvalType(es[0].texpr, ModuleScope()) == Ok(fs[0].ctype);
    assert EvalType(es[1].texpr, ModuleScope()) == Ok(fs[1].ctype);
    assert EvalType(es[2].texpr, ModuleScope()) == Ok(fs[2].ctype);
    assert EvalType(es[3].texpr, ModuleScope()) == Ok(fs[3].ctype);
    assert EvalType(es[4].texpr, ModuleScope()) == Ok(fs[4].ctype);
    assert EvalType(es[5].texpr, ModuleScope()) == Ok(fs[5].ctype);
    assert EvalType(es[6].texpr, ModuleScope()) == Ok(fs[6].ctype);
    assert EvalType(es[7].texpr, ModuleScope()) == Ok(fs[7].ctype);
    BuildsTo(es, ModuleScope(), fs);
  }

  /** Header entries 24 to 31 build to winspec.py's. */
  lemma Group3Builds()
    ensures Build(EntryGroup3(), ModuleScope()) == Ok(H.Group3())
  {
    var es := EntryGroup3();
    var fs := H.Group3();
    assert EvalType(es[0].texpr, ModuleScope()) == Ok(fs[0].ctype);
    assert EvalType(es[1].texpr, ModuleScope()) == Ok(fs[1].ctype);
    assert EvalType(es[2].texpr, ModuleScope()) == Ok(fs[2].ctype);
    assert EvalType(es[3].texpr, ModuleScope()) == Ok(fs[3].ctype);
    assert EvalType(es[4].texpr, ModuleScope()) == Ok(fs[4].ctype);
    assert EvalType(es[5].texpr, ModuleScope()) == Ok(fs[5].ctype);
    assert EvalType(es[6].texpr, ModuleScope()) == Ok(fs[6].ctype);
    assert EvalType(es[7].texpr, ModuleScope()) == Ok(fs[7].ctype);
    BuildsTo(es, ModuleScope(), fs);
  }

  /** Header entries 32 to 39 build to winspec.py's. */
  lemma Group4Builds()
    ensures Build(EntryGroup4(), ModuleScope()) == Ok(H.Group4())
  {
    var es := EntryGroup4();
    var fs := H.Group4();
    assert EvalType(es[0].texpr, ModuleScope()) == Ok(fs[0].ctype);
    assert EvalType(es[1].texpr, ModuleScope()) == Ok(fs[1].ctype);
    assert EvalType(es[2].texpr, ModuleScope()) == Ok(fs[2].ctype);
    assert EvalType(es[3].texpr, ModuleScope()) == Ok(fs[3].ctype);
    assert EvalType(es[4].texpr, ModuleScope()) == Ok(fs[4].ctype);
    assert EvalType(es[5].texpr, ModuleScope()) == Ok(fs[5].ctype);
    assert EvalType(es[6].texpr, ModuleScope()) == Ok(fs[6].ctype);
    assert EvalType(es[7].texpr, ModuleScope()) == Ok(fs[7].ctype);
    BuildsTo(es, ModuleScope(), fs);
  }

  /** Header entries 40 to 47 build to winspec.py's. */
  lemma Group5Builds()
    ensures Build(EntryGroup5(), ModuleScope()) == Ok(H.Group5())
  {
    var es := EntryGroup5();
    var fs := H.Group5();
    assert EvalType(es[0].texpr, ModuleScope()) == Ok(fs[0].ctype);
    assert EvalType(es[1].texpr, ModuleScope()) == Ok(fs[1].ctype);
    assert EvalType(es[2].texpr, ModuleScope()) == Ok(fs[2].ctype);
    assert EvalType(es[3].texpr, ModuleScope()) == Ok(fs[3].ctype);
    assert EvalType(es[4].texpr, ModuleScope()) == Ok(fs[4].ctype);
    assert EvalType(es[5].texpr, ModuleScope()) == Ok(fs[5].ctype);
    assert EvalType(es[6].texpr, ModuleScope()) == Ok(fs[6].ctype);
    assert EvalType(es[7].texpr, ModuleScope()) == Ok(fs[7].ctype);
    BuildsTo(es, ModuleScope(), fs);
  }

  /** Header entries 48 to 55 build to winspec.py's. */
  lemma Group6Builds()
    ensures Build(EntryGroup6(), ModuleScope()) == Ok(H.Group6())
  {
    var es := EntryGroup6();
    var fs := H.Group6();
    assert EvalType(es[0].texpr, ModuleScope()) == Ok(fs[0].ctype);
    assert EvalType(es[1].texpr, ModuleScope()) == Ok(fs[1].ctype);
    assert EvalType(es[2].texpr, ModuleScope()) == Ok(fs[2].ctype);
    assert EvalType(es[3].texpr, ModuleScope()) == Ok(fs[3].ctype);
    assert EvalType(es[4].texpr, ModuleScope()) == Ok(fs[4].ctype);
    assert EvalType(es[5].texpr, ModuleScope()) == Ok(fs[5].ctype);
    assert EvalType(es[6].texpr, ModuleScope()) == Ok(fs[6].ctype);
    assert EvalType(es[7].texpr, ModuleScope()) == Ok(fs[7].ctype);
    BuildsTo(es, ModuleScope(), fs);
  }

  /** Header entries 56 to 63 build to winspec.py's. */
  lemma Group7Builds()
    ensures Build(EntryGroup7(), ModuleScope()) == Ok(H.Group7())
  {
    var es := EntryGroup7();
    var fs := H.Group7();
    assert EvalType(es[0].texpr, ModuleScope()) == Ok(fs[0].ctype);
    assert EvalType(es[1].texpr, ModuleScope()) == Ok(fs[1].ctype);
    assert EvalType(es[2].texpr, ModuleScope()) == Ok(fs[2].ctype);
    assert EvalType(es[3].texpr, ModuleScope()) == Ok(fs[3].ctype);
    assert EvalType(es[4].texpr, ModuleScope()) == Ok(fs[4].ctype);
    assert EvalType(es[5].texpr, ModuleScope()) == Ok(fs[5].ctype);
    assert EvalType(es[6].texpr, ModuleScope()) == Ok(fs[6].ctype);
    assert EvalType(es[7].texpr, ModuleScope()) == Ok(fs[7].ctype);
    BuildsTo(es, ModuleScope(), fs);
  }

  /** Header entries 64 to 71 build to winspec.py's. */
  lemma Group8Builds()
    ensures Build(EntryGroup8(), ModuleScope()) == Ok(H.Group8())
  {
    var es := EntryGroup8();
    var fs := H.Group8();
    assert EvalType(es[0].texpr, ModuleScope()) == Ok(fs[0].ctype);
    assert EvalType(es[1].texpr, ModuleScope()) == Ok(fs[1].ctype);
    assert EvalType(es[2].texpr, ModuleScope()) == Ok(fs[2].ctype);
    assert EvalType(es[3].texpr, ModuleScope()) == Ok(fs[3].ctype);
    assert EvalType(es[4].texpr, ModuleScope()) == Ok(fs[4].ctype);
    assert EvalType(es[5].texpr, ModuleScope()) == Ok(fs[5].ctype);
    assert EvalType(es[6].texpr, ModuleScope()) == Ok(fs[6].ctype);
    assert EvalType(es[7].texpr, ModuleScope()) == Ok(fs[7].ctype);
    BuildsTo(es, ModuleScope(), fs);
  }

  /** Header entries 72 to 79 build to winspec.py's. */
  lemma Group9Builds()
    ensures Build(EntryGroup9(), ModuleScope()) == Ok(H.Group9())
  {
    var es := EntryGroup9();
    var fs := H.Group9();
    assert EvalType(es[0].texpr, ModuleScope()) == Ok(fs[0].ctype);
    assert EvalType(es[1].texpr, ModuleScope()) == Ok(fs[1].ctype);
    assert EvalType(es[2].texpr, ModuleScope()) == Ok(fs[2].ctype);
    assert EvalType(es[3].texpr, ModuleScope()) == Ok(fs[3].ctype);
    assert EvalType(es[4].texpr, ModuleScope()) == Ok(fs[4].ctype);
    assert EvalType(es[5].texpr, ModuleScope()) == Ok(fs[5].ctype);
    assert EvalType(es[6].texpr, ModuleScope()) == Ok(fs[6].ctype);
    assert EvalType(es[7].texpr, ModuleScope()) == Ok(fs[7].ctype);
    BuildsTo(es, ModuleScope(), fs);
  }

  /** Header entries 80 to 87 build to winspec.py's. */
  lemma Group10Builds()
    ensures Build(EntryGroup10(), ModuleScope()) == Ok(H.Group10())
  {
    var es := EntryGroup10();
    var fs := H.Group10();
    assert EvalType(es[0].texpr, ModuleScope()) == Ok(fs[0].ctype);
    assert EvalType(es[1].texpr, ModuleScope()) == Ok(fs[1].ctype);
    assert EvalType(es[2].texpr, ModuleScope()) == Ok(fs[2].ctype);
    assert EvalType(es[3].texpr, ModuleScope()) == Ok(fs[3].ctype);
    assert EvalType(es[4].texpr, ModuleScope()) == Ok(fs[4].ctype);
    assert EvalType(es[5].texpr, ModuleScope()) == Ok(fs[5].ctype);
    assert EvalType(es[6].texpr, ModuleScope()) == Ok(fs[6].ctype);
    assert EvalType(es[7].texpr, ModuleScope()) == Ok(fs[7].ctype);
    BuildsTo(es, ModuleScope(), fs);
  }

  /** Header entries 88 to 95 build to winspec.py's. */
  lemma Group11Builds()
    ensures Build(EntryGroup11(), ModuleScope()) == Ok(H.Group11())
  {
    var es := EntryGroup11();
    var fs := H.Group11();
    assert EvalType(es[0].texpr, ModuleScope()) == Ok(fs[0].ctype);
    assert EvalType(es[1].texpr, ModuleScope()) == Ok(fs[1].ctype);
    assert EvalType(es[2].texpr, ModuleScope()) == Ok(fs[2].ctype);
    assert EvalType(es[3].texpr, ModuleScope()) == Ok(fs[3].ctype);
    assert EvalType(es[4].texpr, ModuleScope()) == Ok(fs[4].ctype);
    assert EvalType(es[5].texpr, ModuleScope()) == Ok(fs[5].ctype);
    assert EvalType(es[6].texpr, ModuleScope()) == Ok(fs[6].ctype);
    assert EvalType(es[7].texpr, ModuleScope()) == Ok(fs[7].ctype);
    BuildsTo(es, ModuleScope(), fs);
  }

  /** Header entries 96 to 103 build to winspec.py's. */
  lemma Group12Builds()
    ensures Build(EntryGroup12(), ModuleScope()) == Ok(H.Group12())
  {
    var es := EntryGroup12();
    var fs := H.Group12();
    assert EvalType(es[0].texpr, ModuleScope()) == Ok(fs[0].ctype);
    assert EvalType(es[1].texpr, ModuleScope()) == Ok(fs[1].ctype);
    assert EvalType(es[2].texpr, ModuleScope()) == Ok(fs[2].ctype);
    assert EvalType(es[3].texpr, ModuleScope()) == Ok(fs[3].ctype);
    assert EvalType(es[4].texpr, ModuleScope()) == Ok(fs[4].ctype);
    assert EvalType(es[5].texpr, ModuleScope()) == Ok(fs[5].ctype);
    assert EvalType(es[6].texpr, ModuleScope()) == Ok(fs[6].ctype);
    assert EvalType(es[7].texpr, ModuleScope()) == Ok(fs[7].ctype);
    BuildsTo(es, ModuleScope(), fs);
  }

  /** Header entries 104 to 111 build to winspec.py's. */
  lemma Group13Builds()
    ensures Build(EntryGroup13(), ModuleScope()) == Ok(H.Group13())
  {
    var es := EntryGroup13();
    var fs := H.Group13();
    assert EvalType(es[0].texpr, ModuleScope()) == Ok(fs[0].ctype);
    assert EvalType(es[1].texpr, ModuleScope()) == Ok(fs[1].ctype);
    assert EvalType(es[2].texpr, ModuleScope()) == Ok(fs[2].ctype);
    assert EvalType(es[3].texpr, ModuleScope()) == Ok(fs[3].ctype);
    assert EvalType(es[4].texpr, ModuleScope()) == Ok(fs[4].ctype);
    assert EvalType(es[5].texpr, ModuleScope()) == Ok(fs[5].ctype);
    assert EvalType(es[6].texpr, ModuleScope()) == Ok(fs[6].ctype);
    assert EvalType(es[7].texpr, ModuleScope()) == Ok(fs[7].ctype);
    BuildsTo(es, ModuleScope(), fs);
  }

  /** Header entries 112 to 119 build to winspec.py's. */
  lemma Group14Builds()
    ensures Build(EntryGroup14(), ModuleScope()) == Ok(H.Group14())
  {
    var es := EntryGroup14();
    var fs := H.Group14();
    assert EvalType(es[0].texpr, ModuleScope()) == Ok(fs[0].ctype);
    assert EvalType(es[1].texpr, ModuleScope()) == Ok(fs[1].ctype);
    assert EvalType(es[2].texpr, ModuleScope()) == Ok(fs[2].ctype);
    assert EvalType(es[3].texpr, ModuleScope()) == Ok(fs[3].ctype);
    assert EvalType(es[4].texpr, ModuleScope()) == Ok(fs[4].ctype);
    assert EvalType(es[5].texpr, ModuleScope()) == Ok(fs[5].ctype);
    assert EvalType(es[6].texpr, ModuleScope()) == Ok(fs[6].ctype);
    assert EvalType(es[7].texpr, ModuleScope()) == Ok(fs[7].ctype);
    BuildsTo(es, ModuleScope(), fs);
  }

  /** Header entries 120 to 127 build to winspec.py's. */
  lemma Group15Builds()
    ensures Build(EntryGroup15(), ModuleScope()) == Ok(H.Group15())
  {
    var es := EntryGroup15();
    var fs := H.Group15();
    assert EvalType(es[0].texpr, ModuleScope()) == Ok(fs[0].ctype);
    assert EvalType(es[1].texpr, ModuleScope()) == Ok(fs[1].ctype);
    assert EvalType(es[2].texpr, ModuleScope()) == Ok(fs[2].ctype);
    assert EvalType(es[3].texpr, ModuleScope()) == Ok(fs[3].ctype);
    assert EvalType(es[4].texpr, ModuleScope()) == Ok(fs[4].ctype);
    assert EvalType(es[5].texpr, ModuleScope()) == Ok(fs[5].ctype);
    assert EvalType(es[6].texpr, ModuleScope()) == Ok(fs[6].ctype);
    assert EvalType(es[7].texpr, ModuleScope()) == Ok(fs[7].ctype);
    BuildsTo(es, ModuleScope(), fs);
  }

  /** Header entries 136 to 143 build to winspec.py's. */
  lemma Group17Builds()
    ensures Build(EntryGroup17(), ModuleScope()) == Ok(H.Group17())
  {
    var es := EntryGroup17();
    var fs := H.Group17();
    assert EvalType(es[0].texpr, ModuleScope()) == Ok(fs[0].ctype);
    assert EvalType(es[1].texpr, ModuleScope()) == Ok(fs[1].ctype);
    assert EvalType(es[2].texpr, ModuleScope()) == Ok(fs[2].ctype);
    assert EvalType(es[3].texpr, ModuleScope()) == Ok(fs[3].ctype);
    assert EvalType(es[4].texpr, ModuleScope()) == Ok(fs[4].ctype);
    assert EvalType(es[5].texpr, ModuleScope()) == Ok(fs[5].ctype);
    assert EvalType(es[6].texpr, ModuleScope()) == Ok(fs[6].ctype);
    assert EvalType(es[7].texpr, ModuleScope()) == Ok(fs[7].ctype);
    BuildsTo(es, ModuleScope(), fs);
  }

  /** Header entries 144 to 151 build to winspec.py's. */
  lemma Group18Builds()
    ensures Build(EntryGroup18(), ModuleScope()) == Ok(H.Group18())
  {
    var es := EntryGroup18();
    var fs := H.Group18();
    assert EvalType(es[0].texpr, ModuleScope()) == Ok(fs[0].ctype);
    assert EvalType(es[1].texpr, ModuleScope()) == Ok(fs[1].ctype);
    assert EvalType(es[2].texpr, ModuleScope()) == Ok(fs[2].ctype);
    assert EvalType(es[3].texpr, ModuleScope()) == Ok(fs[3].ctype);
    assert EvalType(es[4].texpr, ModuleScope()) == Ok(fs[4].ctype);
    assert EvalType(es[5].texpr, ModuleScope()) == Ok(fs[5].ctype);
    assert EvalType(es[6].texpr, ModuleScope()) == Ok(fs[6].ctype);
    assert EvalType(es[7].texpr, ModuleScope()) == Ok(fs[7].ctype);
    BuildsTo(es, ModuleScope(), fs);
  }

  /** ROIinfo builds to winspec.py's six WORDs. */
  lemma RoiInfoBuilds()
    ensures Build(RoiInfoEntries(), CtypesScope()) == Ok(H.RoiInfoFields())
  {
    var es := RoiInfoEntries();
    var fs := H.RoiInfoFields();
    assert EvalType(es[0].texpr, CtypesScope()) == Ok(fs[0].ctype);
    assert EvalType(es[1].texpr, CtypesScope()) == Ok(fs[1].ctype);
    assert EvalType(es[2].texpr, CtypesScope()) == Ok(fs[2].ctype);
    assert EvalType(es[3].texpr, CtypesScope()) == Ok(fs[3].ctype);
    assert EvalType(es[4].texpr, CtypesScope()) == Ok(fs[4].ctype);
    assert EvalType(es[5].texpr, CtypesScope()) == Ok(fs[5].ctype);
    BuildsTo(es, CtypesScope(), fs);
  }

  /** Entries 0 to 3 of the table. */
  lemma AxisCalibrationBuildsFrom0()
    ensures |AxisCalibrationEntries()| == 19 && |H.AxisCalibrationFields()| == 19
    ensures forall i :: 0 <= i < 4 ==>
      AxisCalibrationEntries()[i].name == H.AxisCalibrationFields()[i].name &&
      EvalType(AxisCalibrationEntries()[i].texpr, CtypesScope()) == Ok(H.AxisCalibrationFields()[i].ctype)
  {
    var es := AxisCalibrationEntries();
    var fs := H.AxisCalibrationFields();
    assert EvalType(es[0].texpr, CtypesScope()) == Ok(fs[0].ctype);
    assert EvalType(es[1].texpr, CtypesScope()) == Ok(fs[1].ctype);
    assert EvalType(es[2].texpr, CtypesScope()) == Ok(fs[2].ctype);
    assert EvalType(es[3].texpr, CtypesScope()) == Ok(fs[3].ctype);
  }

  /** Entries 4 to 7 of the table. */
  lemma AxisCalibrationBuildsFrom4()
    ensures |AxisCalibrationEntries()| == 19 && |H.AxisCalibrationFields()| == 19
    ensures forall i :: 4 <= i < 8 ==>
      AxisCalibrationEntries()[i].name == H.AxisCalibrationFields()[i].name &&
      EvalType(AxisCalibrationEntries()[i].texpr, CtypesScope()) == Ok(H.AxisCalibrationFields()[i].ctype)
  {
    var es := AxisCalibrationEntries();
    var fs := H.AxisCalibrationFields();
    assert EvalType(es[4].texpr, CtypesScope()) == Ok(fs[4].ctype);
    assert EvalType(es[5].texpr, CtypesScope()) == Ok(fs[5].ctype);
    assert EvalType(es[6].texpr, CtypesScope()) == Ok(fs[6].ctype);
    assert EvalType(es[7].texpr, CtypesScope()) == Ok(fs[7].ctype);
  }

  /** Entries 8 to 11 of the table. */
  lemma AxisCalibrationBuildsFrom8()
    ensures |AxisCalibrationEntries()| == 19 && |H.AxisCalibrationFields()| == 19
    ensures forall i :: 8 <= i < 12 ==>
      AxisCalibrationEntries()[i].name == H.AxisCalibrationFields()[i].name &&
      EvalType(AxisCalibrationEntries()[i].texpr, CtypesScope()) == Ok(H.AxisCalibrationFields()[i].ctype)
  {
    var es := AxisCalibrationEntries();
    var fs := H.AxisCalibrationFields();
    assert EvalType(es[8].texpr, CtypesScope()) == Ok(fs[8].ctype);
    assert EvalType(es[9].texpr, CtypesScope()) == Ok(fs[9].ctype);
    assert EvalType(es[10].texpr, CtypesScope()) == Ok(fs[10].ctype);
    assert EvalType(es[11].texpr, CtypesScope()) == Ok(fs[11].ctype);
  }

  /** Entries 12 to 15 of the table. */
  lemma AxisCalibrationBuildsFrom12()
    ensures |AxisCalibrationEntries()| == 19 && |H.AxisCalibrationFields()| == 19
    ensures forall i :: 12 <= i < 16 ==>
      AxisCalibrationEntries()[i].name == H.AxisCalibrationFields()[i].name &&
      EvalType(AxisCalibrationEntries()[i].texpr, CtypesScope()) == Ok(H.AxisCalibrationFields()[i].ctype)
  {
    var es := AxisCalibrationEntries();
    var fs := H.AxisCalibrationFields();
    assert EvalType(es[12].texpr, CtypesScope()) == Ok(fs[12].ctype);
    assert EvalType(es[13].texpr, CtypesScope()) == Ok(fs[13].ctype);
    assert EvalType(es[14].texpr, CtypesScope()) == Ok(fs[14].ctype);
    assert EvalType(es[15].texpr, CtypesScope()) == Ok(fs[15].ctype);
  }

  /** Entries 16 to 18 of the table. */
  lemma AxisCalibrationBuildsFrom16()
    ensures |AxisCalibrationEntries()| == 19 && |H.AxisCalibrationFields()| == 19
    ensures forall i :: 16 <= i < 19 ==>
      AxisCalibrationEntries()[i].name == H.AxisCalibrationFields()[i].name &&
      EvalType(AxisCalibrationEntries()[i].texpr, CtypesScope()) == Ok(H.AxisCalibrationFields()[i].ctype)
  {
    var es := AxisCalibrationEntries();
    var fs := H.AxisCalibrationFields();
    assert EvalType(es[16].texpr, CtypesScope()) == Ok(fs[16].ctype);
    assert EvalType(es[17].texpr, CtypesScope()) == Ok(fs[17].ctype);
    assert EvalType(es[18].texpr, CtypesScope()) == Ok(fs[18].ctype);
  }

  /** AxisCalibration builds to winspec.py's. */
  lemma AxisCalibrationBuilds()
    ensures Build(AxisCalibrationEntries(), CtypesScope()) == Ok(H.AxisCalibrationFields())
  {
    AxisCalibrationBuildsFrom0();
    AxisCalibrationBuildsFrom4();
    AxisCalibrationBuildsFrom8();
    AxisCalibrationBuildsFrom12();
    AxisCalibrationBuildsFrom16();
    BuildsTo(AxisCalibrationEntries(), CtypesScope(), H.AxisCalibrationFields());
  }

  /** With `Calibration` bound, group 16 builds to winspec.py's. */
  lemma Group16Builds()
    ensures Build(EntryGroup16(), CalibrationScope()) == Ok(H.Group16())
  {
    var es := EntryGroup16();
    var fs := H.Group16();
    assert EvalType(es[0].texpr, CalibrationScope()) == Ok(fs[0].ctype);
    assert EvalType(es[1].texpr, CalibrationScope()) == Ok(fs[1].ctype);
    assert EvalType(es[2].texpr, CalibrationScope()) == Ok(fs[2].ctype);
    assert EvalType(es[3].texpr, CalibrationScope()) == Ok(fs[3].ctype);
    assert EvalType(es[4].texpr, CalibrationScope()) == Ok(fs[4].ctype);
    assert EvalType(es[5].texpr, CalibrationScope()) == Ok(fs[5].ctype);
    assert EvalType(es[6].texpr, CalibrationScope()) == Ok(fs[6].ctype);
    assert EvalType(es[7].texpr, CalibrationScope()) == Ok(fs[7].ctype);
    BuildsTo(es, CalibrationScope(), fs);
  }

  /** Group 16 names `Calibration` at its sixth entry, xcalibration, and the name is not bound in the module. */
  lemma Group16Fails()
    ensures Build(EntryGroup16(), ModuleScope()) == Err(CalibrationName)
  {
    var es := EntryGroup16();
    var fs := H.Group16();
    assert EvalType(es[0].texpr, ModuleScope()) == Ok(fs[0].ctype);
    assert EvalType(es[1].texpr, ModuleScope()) == Ok(fs[1].ctype);
    assert EvalType(es[2].texpr, ModuleScope()) == Ok(fs[2].ctype);
    assert EvalType(es[3].texpr, ModuleScope()) == Ok(fs[3].ctype);
    assert EvalType(es[4].texpr, ModuleScope()) == Ok(fs[4].ctype);
    assert EvalType(es[5].texpr, ModuleScope()) == Err(CalibrationName);
  }

  /** Group k of the Header table builds in the module's scope, except group 16. */
  lemma GroupBuilds(k: nat)
    requires k < 19 && k != 16
    ensures |EntryGroups| == 19 && |H.Groups| == 19
    ensures Build(EntryGroups[k], ModuleScope()) == Ok(H.Groups[k])
  {
    H.GroupsShape();
    if k == 0 {
      Group0Builds();
    } else if k == 1 {
      Group1Builds();
    } else if k == 2 {
      Group2Builds();
    } else if k == 3 {
      Group3Builds();
    } else if k == 4 {
      Group4Builds();
    } else if k == 5 {
      Group5Builds();
    } else if k == 6 {
      Group6Builds();
    } else if k == 7 {
      Group7Builds();
    } else if k == 8 {
      Group8Builds();
    } else if k == 9 {
      Group9Builds();
    } else if k == 10 {
      Group10Builds();
    } else if k == 11 {
      Group11Builds();
    } else if k == 12 {
      Group12Builds();
    } else if k == 13 {
      Group13Builds();
    } else if k == 14 {
      Group14Builds();
    } else if k == 15 {
      Group15Builds();
    } else if k == 17 {
      Group17Builds();
    } else {
      Group18Builds();
    }
  }
  /** The Header table, entry by entry. */
  const HeaderEntries: seq<Entry> := Flatten(EntryGroups, 19)

  // ----- What the tables build to ---------------------------------------------------------

  /** ROIinfo is 12 bytes and AxisCalibration 489, as in winspec.py. */
  lemma StructureSizes()
    ensures Build(RoiInfoEntries(), CtypesScope()) == Ok(H.RoiInfoFields()) && Width(H.RoiInfo()) == 12
    ensures Build(AxisCalibrationEntries(), CtypesScope()) == Ok(H.AxisCalibrationFields())
    ensures Width(H.AxisCalibration()) == 489
  {
    RoiInfoBuilds();
    H.RoiInfoSize();
    AxisCalibrationBuilds();
    H.AxisCalibrationSize();
  }

  /** CalibrationScope binds what ModuleScope binds, and Calibration besides. */
  lemma ScopesAgree()
    ensures Extends(ModuleScope(), ModuleScope()) && Extends(ModuleScope(), CalibrationScope())
  {
  }

  /** The first n groups, for n up to 16, build to the first n groups of winspec.py's table. */
  lemma {:induction false} PrefixBuilds(n: nat, sc: Scope)
    requires n <= 16 && Extends(ModuleScope(), sc)
    ensures |EntryGroups| == 19 && |H.Groups| == 19
    ensures Build(Flatten(EntryGroups, n), sc) == Ok(H.Concat(H.Groups, n))
  {
    H.GroupsShape();
    if n > 0 {
      PrefixBuilds(n - 1, sc);
      GroupIn(n - 1, sc);
      FlattenStep(EntryGroups, H.Groups, n - 1, sc);
    }
  }

  /** Group k, other than 16, builds to winspec.py's in any scope that extends the module's. */
  lemma GroupIn(k: nat, sc: Scope)
    requires k < 19 && k != 16 && Extends(ModuleScope(), sc)
    ensures |EntryGroups| == 19 && |H.Groups| == 19
    ensures Build(EntryGroups[k], sc) == Ok(H.Groups[k])
  {
    GroupBuilds(k);
    BuildMono(EntryGroups[k], ModuleScope(), sc, |EntryGroups[k]|);
  }

  /** As written, building the Header raises NameError for `Calibration`. */
  lemma HeaderNameError()
    ensures Build(HeaderEntries, ModuleScope()) == Err(CalibrationName)
  {
    var sc := ModuleScope();
    ScopesAgree();
    PrefixBuilds(16, sc);
    Group16Fails();
    FlattenFails(EntryGroups, 16, sc, CalibrationName);
    FlattenFailed(EntryGroups, 17, sc);
    FlattenFailed(EntryGroups, 18, sc);
  }

  /**
   * So the module body stops at the Header class: the two structures build as
   * in winspec.py, and the Header table is never made.
   */
  lemma ModuleBodyFails()
    ensures ModuleBody() == Err(CalibrationName)
  {
    RoiInfoBuilds();
    AxisCalibrationInModule();
    HeaderStatementFails();
  }

  /** AxisCalibration builds the same once ROIinfo is bound. */
  lemma AxisCalibrationInModule()
    ensures AfterRoiInfo(H.RoiInfoFields()) == AfterAxisCalibration(H.RoiInfoFields(), H.AxisCalibrationFields())
  {
    var sc := CtypesScope()[RoiInfoName := H.RoiInfo()];
    AxisCalibrationBuilds();
    CtypesExtended();
    BuildMono(AxisCalibrationEntries(), CtypesScope(), sc, |AxisCalibrationEntries()|);
  }

  /** Binding ROIinfo keeps the names ctypes and the aliases bound. */
  lemma CtypesExtended()
    ensures Extends(CtypesScope(), CtypesScope()[RoiInfoName := H.RoiInfo()])
  {
    assert RoiInfoName !in CtypesScope();
  }

  /** The Header class statement, run in the scope the two structures leave, raises NameError. */
  lemma HeaderStatementFails()
    ensures AfterAxisCalibration(H.RoiInfoFields(), H.AxisCalibrationFields()) == Err(CalibrationName)
  {
    HeaderNameError();
  }

  /**
   * With `Calibration` read as AxisCalibration, the Header table is exactly
   * winspec.py's: the same 152 names and types, 4100 bytes.
   */
  lemma HeaderWithCalibration()
    ensures Build(HeaderEntries, CalibrationScope()) == Ok(H.HeaderFields)
    ensures Size(H.HeaderFields) == 4100
  {
    var sc := CalibrationScope();
    ScopesAgree();
    Prefix18Builds();
    GroupIn(18, sc);
    FlattenStep(EntryGroups, H.Groups, 18, sc);
    H.HeaderSize();
  }

  /** With `Calibration` bound, groups 0 to 16 build. */
  lemma Prefix17Builds()
    ensures |EntryGroups| == 19 && |H.Groups| == 19
    ensures Build(Flatten(EntryGroups, 17), CalibrationScope()) == Ok(H.Concat(H.Groups, 17))
  {
    ScopesAgree();
    PrefixBuilds(16, CalibrationScope());
    Group16Builds();
    FlattenStep(EntryGroups, H.Groups, 16, CalibrationScope());
  }

  /** With `Calibration` bound, groups 0 to 17 build. */
  lemma Prefix18Builds()
    ensures |EntryGroups| == 19 && |H.Groups| == 19
    ensures Build(Flatten(EntryGroups, 18), CalibrationScope()) == Ok(H.Concat(H.Groups, 18))
  {
    ScopesAgree();
    Prefix17Builds();
    GroupIn(17, CalibrationScope());
    FlattenStep(EntryGroups, H.Groups, 17, CalibrationScope());
  }
}
