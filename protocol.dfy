/** The command grammar of the power supply as `CtrlPower` speaks it: the
    wire strings, the two closed code tables, the checks made on arguments
    before anything is sent and the decoding of the responses. */
module Protocol {
  import opened Text

  // ---------------------------------------------------------------------
  // Exceptions

  /** The exceptions `CtrlPower` raises, one constructor per cause. */
  datatype Error =
    | TypeError(typeName: string)    // set_volt_value: the argument is not a float
    | NegativeVoltage(volt: Float)   // set_volt_value: below 0.0
    | VoltageAboveLimit(volt: Float) // set_volt_value: above MAX_VOLTage_PUT
    | NotANumber                     // corrected voltage check only: NaN
    | InvalidPowerMode(value: int)   // set_power_mode: not a key of SOUR_MODE
    | IdentityFormat(raw: string)    // select_device_info: not four fields
    | NotAnInteger(raw: string)      // int(res) raised
    | UnknownCode(code: int)         // the code table has no such key
    | ReadFailure                    // the instrument gave no response line
  {
    /** The Python exception class raised for this cause. */
    function ExceptionClass(): string
    {
      match this
      case TypeError(_) => "TypeError"
      case UnknownCode(_) => "KeyError"
      case ReadFailure => "VisaIOError"
      case _ => "ValueError"
    }
  }

  datatype Result<+T> = Ok(value: T) | Err(error: Error)

  /** The outcome of an operation that returns `None` or raises. */
  datatype Outcome = Pass | Fail(error: Error)

  // ---------------------------------------------------------------------
  // Wire strings

  const IdnQuery: string := "*IDN?"
  const ModeQuery: string := "MODE?"
  const VoltExternalQuery: string := "VOLT:EXT?"
  const VoltQuery: string := "VOLT?"
  const CurrentQuery: string := "MEAS:CURR?"
  const OutputOnCommand: string := "OUTPut ON"
  const OutputOffCommand: string := "OUTPut OFF"

  /** `f"MODE {input_value}"`: the keyword, one space, and an argument the
      instrument reads back as `n`. */
  function ModeCommand(n: int): (r: string)
    ensures |r| > 5 && r[..5] == "MODE "
    ensures ParseInt(r[5..]) == Some(n)
  {
    var arg := IntToDecimal(n);
    ParseIntDecimal(n);
    assert ("MODE " + arg)[5..] == arg;
    "MODE " + arg
  }

  /** `f"VOLT {volt_value}"`, where `repr` is how Python renders the float:
      the keyword, one space, and the rendering unchanged. */
  function VoltCommand(repr: Float -> string, volt: Float): (r: string)
    ensures |r| >= 5 && r[..5] == "VOLT "
    ensures r[5..] == repr(volt)
  {
    var arg := repr(volt);
    assert ("VOLT " + arg)[5..] == arg;
    "VOLT " + arg
  }

  // ---------------------------------------------------------------------
  // Code tables

  /** `CtrlPower.SOUR_MODE`: power-mode codes and their names. */
  const SourMode: map<int, string> := map[0 := "CV", 1 := "CC", 2 := "CVCP", 3 := "CCCP"]

  /** `CtrlPower.VOLT_EXTERNAL`: voltage-source codes and their names. */
  const VoltExternal: map<int, string> := map[0 := "Digital", 1 := "Analog"]

  /** The codes and names of `SOUR_MODE`. */
  lemma SourModeShape()
    ensures SourMode.Keys == {0, 1, 2, 3}
    ensures forall k :: k in SourMode <==> 0 <= k <= 3
    ensures SourMode.Values == {"CV", "CC", "CVCP", "CCCP"}
  {
  }

  /** The codes and names of `VOLT_EXTERNAL`. */
  lemma VoltExternalShape()
    ensures VoltExternal.Keys == {0, 1}
    ensures forall k :: k in VoltExternal <==> k == 0 || k == 1
    ensures VoltExternal.Values == {"Digital", "Analog"}
  {
  }

  /** `table[int(res)]`: the lookup raises when the response is no integer
      and when the integer is not a key. */
  function DecodeCode(table: map<int, string>, res: string): (r: Result<string>)
    ensures r.Ok? <==> ParseInt(res).Some? && ParseInt(res).value in table
    ensures r.Ok? ==> r.value == table[ParseInt(res).value]
    ensures ParseInt(res).None? ==> r == Err(NotAnInteger(res))
    ensures ParseInt(res).Some? && ParseInt(res).value !in table ==>
              r == Err(UnknownCode(ParseInt(res).value))
  {
    match ParseInt(res)
    case None => Err(NotAnInteger(res))
    case Some(code) => if code in table then Ok(table[code]) else Err(UnknownCode(code))
  }

  /** The power mode named by a `MODE?` response. */
  function DecodePowerMode(res: string): (r: Result<string>)
    ensures r.Ok? <==> ParseInt(res).Some? && 0 <= ParseInt(res).value <= 3
    ensures r.Ok? ==> r.value in {"CV", "CC", "CVCP", "CCCP"} && r.value == SourMode[ParseInt(res).value]
    ensures r.Err? ==> r.error.NotAnInteger? || r.error.UnknownCode?
  {
    SourModeShape();
    DecodeCode(SourMode, res)
  }

  /** The voltage source named by a `VOLT:EXT?` response. */
  function DecodeVoltExternal(res: string): (r: Result<string>)
    ensures r.Ok? <==> ParseInt(res) == Some(0) || ParseInt(res) == Some(1)
    ensures r.Ok? ==> r.value in {"Digital", "Analog"} && r.value == VoltExternal[ParseInt(res).value]
    ensures r.Err? ==> r.error.NotAnInteger? || r.error.UnknownCode?
  {
    VoltExternalShape();
    DecodeCode(VoltExternal, res)
  }

  /** The exact command text for a one-digit code such as a power mode:
      `MODE 0` to `MODE 3` carry the single digit, with no padding. */
  lemma ModeCommandDigit(n: int)
    requires 0 <= n < 10
    ensures ModeCommand(n) == "MODE " + [DigitChar(n)]
  {
  }

  /** The decimal text of an integer is looked up as that integer. */
  lemma DecodeCodeOfInt(table: map<int, string>, k: int)
    ensures DecodeCode(table, IntToDecimal(k)) ==
              if k in table then Ok(table[k]) else Err(UnknownCode(k))
  {
    ParseIntDecimal(k);
  }

  /** The decimal text of every code decodes to its mode name; every other
      integer is an unknown code. */
  lemma PowerModeCodes(k: int)
    ensures DecodePowerMode(IntToDecimal(k)) ==
              if k == 0 then Ok("CV")
              else if k == 1 then Ok("CC")
              else if k == 2 then Ok("CVCP")
              else if k == 3 then Ok("CCCP")
              else Err(UnknownCode(k))
  {
    DecodeCodeOfInt(SourMode, k);
    var r := DecodeCode(SourMode, IntToDecimal(k));
    assert DecodePowerMode(IntToDecimal(k)) == r;
    if k in SourMode {
      assert r == Ok(SourMode[k]);
    } else {
      assert k != 0 && k != 1 && k != 2 && k != 3;
      assert r == Err(UnknownCode(k));
    }
  }

  /** A `MODE?` response of "2" is the constant-voltage-constant-power
      mode; "9" is no mode at all. */
  lemma PowerModeResponses()
    ensures DecodePowerMode("2") == Ok("CVCP")
    ensures DecodePowerMode("9") == Err(UnknownCode(9))
  {
    assert IntToDecimal(2) == "2";
    assert IntToDecimal(9) == "9";
    PowerModeCodes(2);
    PowerModeCodes(9);
  }

  lemma VoltExternalCodes(k: int)
    ensures DecodeVoltExternal(IntToDecimal(k)) ==
              if k == 0 then Ok("Digital")
              else if k == 1 then Ok("Analog")
              else Err(UnknownCode(k))
  {
    DecodeCodeOfInt(VoltExternal, k);
    assert VoltExternal.Keys == {0, 1};
    assert DecodeVoltExternal(IntToDecimal(k)) == DecodeCode(VoltExternal, IntToDecimal(k));
  }

  /** The check `set_power_mode` makes before writing. */
  function CheckPowerModeArg(n: int): (o: Outcome)
    ensures o.Pass? <==> 0 <= n <= 3
    ensures o.Fail? ==> o.error == InvalidPowerMode(n)
  {
    if n !in SourMode then Fail(InvalidPowerMode(n)) else Pass
  }

  /** What `MODE n` sets is what a later `MODE?` answering `n` reports. */
  lemma ModeCommandReadsBack(n: int)
    requires CheckPowerModeArg(n).Pass?
    ensures ModeCommand(n)[5..] == IntToDecimal(n)
    ensures DecodePowerMode(ModeCommand(n)[5..]) == Ok(SourMode[n])
  {
    assert ModeCommand(n)[5..] == IntToDecimal(n);
    ParseIntDecimal(n);
  }

  // ---------------------------------------------------------------------
  // Identity

  /** The keys `select_device_info` gives the four identity fields. */
  const IdnMean: seq<string> := ["manufacturer", "device_type", "device_serial_numb", "software_version"]

  /** `dict(zip(keys, values))`: pairs up to the shorter sequence, a later
      duplicate key overriding an earlier one. Its keys are exactly the keys
      that found a value. */
  function ZipMap(keys: seq<string>, values: seq<string>): (m: map<string, string>)
    ensures forall k :: k in m <==> exists i :: 0 <= i < |keys| && i < |values| && keys[i] == k
  {
    if |keys| == 0 || |values| == 0 then map[]
    else
      var n := if |keys| < |values| then |keys| else |values|;
      ZipMap(keys[..n - 1], values[..n - 1])[keys[n - 1] := values[n - 1]]
  }

  /** With distinct keys and as many values, every key maps to its value. */
  lemma {:induction false} ZipMapAt(keys: seq<string>, values: seq<string>)
    requires |keys| == |values|
    requires forall i, j :: 0 <= i < j < |keys| ==> keys[i] != keys[j]
    ensures forall k :: k in ZipMap(keys, values) <==> k in keys
    ensures forall i :: 0 <= i < |keys| ==> ZipMap(keys, values)[keys[i]] == values[i]
  {
    if |keys| > 0 {
      var n := |keys|;
      var init, initValues := keys[..n - 1], values[..n - 1];
      ZipMapAt(init, initValues);
      var m := ZipMap(init, initValues);
      var last := keys[n - 1];
      assert ZipMap(keys, values) == m[last := values[n - 1]];
      assert keys == init + [last];
      assert last !in init by {
        forall i | 0 <= i < n - 1 ensures init[i] != last {
          assert init[i] == keys[i];
        }
      }
      forall i | 0 <= i < n ensures ZipMap(keys, values)[keys[i]] == values[i] {
        if i < n - 1 {
          assert init[i] == keys[i] && initValues[i] == values[i];
        }
      }
    }
  }

  /** The identity record decoded from an `*IDN?` response: exactly four
      comma-separated fields, zipped with `IdnMean`. */
  function ParseIdentity(res: string): (r: Result<map<string, string>>)
    ensures r.Ok? <==> Count(res, ',') == 3
    ensures r.Err? ==> r.error == IdentityFormat(res)
    ensures r.Ok? ==> r.value.Keys == {"manufacturer", "device_type", "device_serial_numb", "software_version"}
    ensures r.Ok? ==> forall i :: 0 <= i < 4 ==> r.value[IdnMean[i]] == Split(res, ',')[i]
  {
    var parts := Split(res, ',');
    if |IdnMean| != |parts| then Err(IdentityFormat(res))
    else
      IdentityOfParts(parts);
      Ok(ZipMap(IdnMean, parts))
  }

  /** The four identity keys are distinct: their lengths differ. */
  lemma IdnMeanDistinct()
    ensures forall i, j :: 0 <= i < j < |IdnMean| ==> IdnMean[i] != IdnMean[j]
  {
    assert |IdnMean[0]| == 12 && |IdnMean[1]| == 11 && |IdnMean[2]| == 18 && |IdnMean[3]| == 16;
  }

  /** Four fields zipped with `IdnMean` give the four identity keys, each
      bound to its field. */
  lemma IdentityOfParts(parts: seq<string>)
    requires |parts| == 4
    ensures ZipMap(IdnMean, parts).Keys == {"manufacturer", "device_type", "device_serial_numb", "software_version"}
    ensures forall i :: 0 <= i < 4 ==> ZipMap(IdnMean, parts)[IdnMean[i]] == parts[i]
  {
    IdnMeanDistinct();
    ZipMapAt(IdnMean, parts);
    assert (set k | k in IdnMean) == {IdnMean[0], IdnMean[1], IdnMean[2], IdnMean[3]};
  }

  /** No decoded identity value holds a comma. */
  lemma IdentityValuesCommaFree(res: string)
    requires ParseIdentity(res).Ok?
    ensures forall k :: k in ParseIdentity(res).value ==> ',' !in ParseIdentity(res).value[k]
  {
    var m := ParseIdentity(res).value;
    var parts := Split(res, ',');
    forall k | k in m
      ensures ',' !in m[k]
    {
      var i := if k == IdnMean[0] then 0 else if k == IdnMean[1] then 1
               else if k == IdnMean[2] then 2 else 3;
      assert m[k] == parts[i];
    }
  }

  /** The four identity values, in order, joined by commas give back the
      response they were decoded from. */
  lemma IdentityRecoversResponse(res: string)
    requires ParseIdentity(res).Ok?
    ensures var m := ParseIdentity(res).value;
            Join([m[IdnMean[0]], m[IdnMean[1]], m[IdnMean[2]], m[IdnMean[3]]], ',') == res
  {
    var m := ParseIdentity(res).value;
    var parts := Split(res, ',');
    assert [m[IdnMean[0]], m[IdnMean[1]], m[IdnMean[2]], m[IdnMean[3]]] == parts;
    JoinSplit(res, ',');
  }

  /** An identity line built from four comma-free fields decodes to exactly
      those fields, in order. */
  lemma IdentityOfFields(fields: seq<string>)
    requires |fields| == 4
    requires forall i :: 0 <= i < 4 ==> ',' !in fields[i]
    ensures ParseIdentity(Join(fields, ',')).Ok?
    ensures forall i :: 0 <= i < 4 ==> ParseIdentity(Join(fields, ',')).value[IdnMean[i]] == fields[i]
  {
    SplitJoin(fields, ',');
  }

  // ---------------------------------------------------------------------
  // Voltage setpoint

  /** `MAX_VOLTage_PUT`: the voltage the program refuses to exceed. */
  const MaxVoltagePut: int := 40

  /** A Python float: a finite value, an infinity or NaN. */
  datatype Float = Finite(value: real) | Infinity(negative: bool) | NaN

  /** IEEE comparison `f < r`: false whenever `f` is NaN, and never true
      together with `f > r`. */
  predicate FloatLess(f: Float, r: real)
    ensures FloatLess(f, r) ==> f != NaN && !FloatGreater(f, r)
    ensures f == Infinity(true) ==> FloatLess(f, r)
  {
    match f
    case Finite(v) => v < r
    case Infinity(negative) => negative
    case NaN => false
  }

  /** IEEE comparison `f > r`: false whenever `f` is NaN. */
  predicate FloatGreater(f: Float, r: real)
    ensures FloatGreater(f, r) ==> f != NaN
    ensures f == Infinity(false) ==> FloatGreater(f, r)
  {
    match f
    case Finite(v) => v > r
    case Infinity(negative) => !negative
    case NaN => false
  }

  /** Every float other than NaN is below, equal to, or above a real, and
      exactly one of these; NaN is neither below nor above. */
  lemma FloatTrichotomy(f: Float, r: real)
    ensures f != NaN ==> (FloatLess(f, r) || f == Finite(r) || FloatGreater(f, r))
    ensures !(FloatLess(f, r) && FloatGreater(f, r))
    ensures f == Finite(r) ==> !FloatLess(f, r) && !FloatGreater(f, r)
    ensures f == NaN ==> !FloatLess(f, r) && !FloatGreater(f, r)
  {
  }

  /** The argument of `set_volt_value`, which is not typed in the source. */
  datatype PyValue = PyFloat(f: Float) | PyInt(i: int) | PyBool(b: bool) | PyStr(s: string) | PyNone

  /** `type(x).__name__`. */
  function TypeName(x: PyValue): string
  {
    match x
    case PyFloat(_) => "float"
    case PyInt(_) => "int"
    case PyBool(_) => "bool"
    case PyStr(_) => "str"
    case PyNone => "NoneType"
  }

  /** The checks of `set_volt_value` exactly as written: type, then
      negative, then above the limit. NaN fails neither comparison. */
  function CheckVoltAsWritten(x: PyValue): (r: Result<Float>)
    ensures r.Ok? <==> x.PyFloat? && (x.f.NaN? || (x.f.Finite? && 0.0 <= x.f.value <= MaxVoltagePut as real))
    ensures r.Ok? ==> r.value == x.f
  {
    if !x.PyFloat? then Err(TypeError(TypeName(x)))
    else if FloatLess(x.f, 0.0) then Err(NegativeVoltage(x.f))
    else if FloatGreater(x.f, MaxVoltagePut as real) then Err(VoltageAboveLimit(x.f))
    else Ok(x.f)
  }

  /** The voltage check as evidently intended: a float within
      `0.0 ..= MAX_VOLTage_PUT`, with NaN refused as well. */
  function CheckVolt(x: PyValue): (r: Result<Float>)
    ensures r.Ok? <==> x.PyFloat? && x.f.Finite? && 0.0 <= x.f.value <= MaxVoltagePut as real
    ensures r.Ok? ==> r.value == x.f
    ensures !x.PyFloat? ==> r == Err(TypeError(TypeName(x)))
    ensures x.PyFloat? && FloatLess(x.f, 0.0) ==> r == Err(NegativeVoltage(x.f))
    ensures x.PyFloat? && !FloatLess(x.f, 0.0) && FloatGreater(x.f, MaxVoltagePut as real) ==>
              r == Err(VoltageAboveLimit(x.f))
    ensures x == PyFloat(NaN) ==> r == Err(NotANumber)
  {
    match CheckVoltAsWritten(x)
    case Err(e) => Err(e)
    case Ok(f) => if f.NaN? then Err(NotANumber) else Ok(f)
  }

  /** The guard as written lets NaN through, so `"VOLT nan"` would be sent;
      the corrected guard refuses it. */
  lemma NaNPassesVoltGuard()
    ensures CheckVoltAsWritten(PyFloat(NaN)) == Ok(NaN)
    ensures CheckVolt(PyFloat(NaN)) == Err(NotANumber)
  {
  }

  /** Apart from NaN, the corrected check is the check as written. */
  lemma CheckVoltAgreesOffNaN(x: PyValue)
    requires x != PyFloat(NaN)
    ensures CheckVolt(x) == CheckVoltAsWritten(x)
  {
  }

  /** The limit itself is accepted: the comparison is strict. */
  lemma VoltLimitAccepted()
    ensures CheckVolt(PyFloat(Finite(40.0))) == Ok(Finite(40.0))
    ensures CheckVolt(PyFloat(Finite(45.0))) == Err(VoltageAboveLimit(Finite(45.0)))
    ensures CheckVolt(PyFloat(Finite(-1.0))) == Err(NegativeVoltage(Finite(-1.0)))
    ensures CheckVolt(PyInt(12)) == Err(TypeError("int"))
  {
  }
}
