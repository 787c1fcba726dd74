/** The session over one power supply: `CtrlPower` and the instrument
    connection it writes to and reads from. */
module Session {
  import opened Text
  import opened Protocol
  import opened Clock

  // ---------------------------------------------------------------------
  // The connection

  /** The next response line the instrument gives, or a read failure when it
      gives none. */
  function NextLine(script: seq<string>): (r: Result<string>)
    ensures r.Ok? <==> |script| > 0
    ensures r.Ok? ==> r.value == script[0]
    ensures r.Err? ==> r.error == ReadFailure
  {
    if |script| == 0 then Err(ReadFailure) else Ok(script[0])
  }

  /** The response lines left once one has been read. */
  function RemainingLines(script: seq<string>): (rest: seq<string>)
    ensures |script| > 0 ==> script == [script[0]] + rest
    ensures |script| == 0 ==> rest == []
  {
    if |script| == 0 then [] else script[1..]
  }

  /** Reading a response line and decoding it: a read failure, the decoder's
      failure, or the decoded value. */
  function Answer<T>(script: seq<string>, decode: string -> Result<T>): (r: Result<T>)
    ensures |script| == 0 ==> r == Err(ReadFailure)
    ensures |script| > 0 ==> r == decode(script[0])
  {
    match NextLine(script)
    case Err(e) => Err(e)
    case Ok(line) => decode(line)
  }

  /** The line-terminated text channel to the instrument: every line written
      so far, and the response lines the instrument has still to give. */
  class Instrument {
    var written: seq<string>
    var responses: seq<string>

    /** A freshly opened connection to an instrument that will answer with
        `script`, one line per query. */
    constructor (script: seq<string>)
      ensures written == [] && responses == script
    {
      written := [];
      responses := script;
    }

    /** `instrument.write(command)` */
    method Write(command: string)
      modifies this
      ensures written == old(written) + [command]
      ensures responses == old(responses)
    {
      written := written + [command];
    }

    /** `instrument.query(command)`: write the command, then read one line. */
    method Query(command: string) returns (r: Result<string>)
      modifies this
      ensures written == old(written) + [command]
      ensures r == NextLine(old(responses))
      ensures responses == RemainingLines(old(responses))
    {
      written := written + [command];
      r := NextLine(responses);
      responses := RemainingLines(responses);
    }
  }

  // ---------------------------------------------------------------------
  // The cached device state

  /** The fields `CtrlPower` caches from the device. A sample is the empty
      tuple until the first reading, then four strings. */
  datatype CachedState = CachedState(
    deviceInfo: map<string, string>,
    powerMode: string,
    voltExternal: string,
    voltGiveValue: seq<string>,
    nowCurrentValue: seq<string>)

  /** The state `__init__` sets before its first query. */
  const InitialState: CachedState := CachedState(map[], "", "", [], [])

  /** The shape of every value a cached field can hold: empty, or of the
      shape a successful query leaves there. That is the four identity keys
      with comma-free values, a name from the code table, or a four-element
      sample row. */
  predicate WellFormed(s: CachedState)
  {
    && (s.deviceInfo == map[] ||
        (&& s.deviceInfo.Keys == {"manufacturer", "device_type", "device_serial_numb", "software_version"}
         && forall k :: k in s.deviceInfo ==> ',' !in s.deviceInfo[k]))
    && (s.powerMode == "" || s.powerMode in SourMode.Values)
    && (s.voltExternal == "" || s.voltExternal in VoltExternal.Values)
    && (|s.voltGiveValue| == 0 || |s.voltGiveValue| == 4)
    && (|s.nowCurrentValue| == 0 || |s.nowCurrentValue| == 4)
  }

  // ---------------------------------------------------------------------
  // The session

  class CtrlPower {
    const instrument: Instrument
    /** Only decides whether results are printed, which is not modelled. */
    const isForegroundMode: bool

    var deviceInfo: map<string, string>
    var powerMode: string
    var voltExternal: string
    var voltGiveValue: seq<string>
    var nowCurrentValue: seq<string>

    ghost function Cached(): CachedState
      reads this
    {
      CachedState(deviceInfo, powerMode, voltExternal, voltGiveValue, nowCurrentValue)
    }

    ghost predicate Valid()
      reads this
    {
      WellFormed(Cached())
    }

    /** The identity query has succeeded at least once. */
    ghost predicate Ready()
      reads this
    {
      Valid() && deviceInfo != map[]
    }

    /** The field initialisation of `__init__`, before the identity query. */
    constructor (instrument: Instrument, isForegroundMode: bool)
      ensures this.instrument == instrument && this.isForegroundMode == isForegroundMode
      ensures Valid() && Cached() == InitialState
    {
      this.instrument := instrument;
      this.isForegroundMode := isForegroundMode;
      deviceInfo := map[];
      powerMode := "";
      voltExternal := "";
      voltGiveValue := [];
      nowCurrentValue := [];
    }

    /** `CtrlPower(is_foreground_mode)`: open a connection to an instrument
        that will answer with `script`, initialise the fields and query the
        identity. The only line sent is `*IDN?`; when the identity cannot be
        read or decoded, construction raises and no session is returned. */
    static method Open(script: seq<string>, isForegroundMode: bool)
      returns (instrument: Instrument, r: Result<CtrlPower>)
      ensures fresh(instrument)
      ensures instrument.written == [IdnQuery]
      ensures instrument.responses == RemainingLines(script)
      ensures r.Ok? <==> Answer(script, ParseIdentity).Ok?
      ensures r.Err? ==> r.error == Answer(script, ParseIdentity).error
      ensures r.Ok? ==> && fresh(r.value)
                        && r.value.instrument == instrument
                        && r.value.isForegroundMode == isForegroundMode
                        && r.value.Ready()
                        && r.value.Cached() == InitialState.(deviceInfo := Answer(script, ParseIdentity).value)
    {
      instrument := new Instrument(script);
      var session := new CtrlPower(instrument, isForegroundMode);
      var o := session.SelectDeviceInfo();
      if o.Pass? {
        r := Ok(session);
      } else {
        r := Err(o.error);
      }
    }

    /** `select_device_info`: query `*IDN?` and, when the line has exactly
        four comma-separated fields, replace `deviceInfo` by them; otherwise
        raise and keep the previous identity. */
    method SelectDeviceInfo() returns (o: Outcome)
      requires Valid()
      modifies this, instrument
      ensures Valid() && (old(Ready()) ==> Ready())
      ensures instrument.written == old(instrument.written) + [IdnQuery]
      ensures instrument.responses == RemainingLines(old(instrument.responses))
      ensures var a := Answer(old(instrument.responses), ParseIdentity);
              && (o.Pass? <==> a.Ok?)
              && (a.Err? ==> o.error == a.error && Cached() == old(Cached()))
              && (a.Ok? ==> Ready() && Cached() == old(Cached()).(deviceInfo := a.value))
    {
      var res := instrument.Query(IdnQuery);
      if res.Err? {
        return Fail(res.error);
      }
      var info := ParseIdentity(res.value);
      if info.Err? {
        return Fail(info.error);
      }
      IdentityValuesCommaFree(res.value);
      deviceInfo := info.value;
      o := Pass;
    }

    /** `select_power_mode`: query `MODE?` and store the name of the mode
        code; a response that is no known code raises and leaves
        `powerMode` as it was. */
    method SelectPowerMode() returns (o: Outcome)
      requires Valid()
      modifies this, instrument
      ensures Valid() && (old(Ready()) ==> Ready())
      ensures instrument.written == old(instrument.written) + [ModeQuery]
      ensures instrument.responses == RemainingLines(old(instrument.responses))
      ensures var a := Answer(old(instrument.responses), DecodePowerMode);
              && (o.Pass? <==> a.Ok?)
              && (a.Err? ==> o.error == a.error && Cached() == old(Cached()))
              && (a.Ok? ==> Cached() == old(Cached()).(powerMode := a.value))
    {
      var res := instrument.Query(ModeQuery);
      if res.Err? {
        return Fail(res.error);
      }
      var mode := DecodePowerMode(res.value);
      if mode.Err? {
        return Fail(mode.error);
      }
      powerMode := mode.value;
      o := Pass;
    }

    /** `set_power_mode(input_value)`: refuse a value that is not a mode code
        before writing anything; otherwise write `MODE n`. */
    method SetPowerMode(inputValue: int) returns (o: Outcome)
      requires Valid()
      modifies instrument
      ensures o == CheckPowerModeArg(inputValue)
      ensures instrument.written ==
                if o.Pass? then old(instrument.written) + [ModeCommand(inputValue)]
                else old(instrument.written)
      ensures instrument.responses == old(instrument.responses)
      ensures Cached() == old(Cached())
    {
      o := CheckPowerModeArg(inputValue);
      if o.Fail? {
        return;
      }
      instrument.Write(ModeCommand(inputValue));
    }

    /** `select_volt_external`: query `VOLT:EXT?` and store the name of the
        voltage-source code; a response that is no known code raises and
        leaves `voltExternal` as it was. */
    method SelectVoltExternal() returns (o: Outcome)
      requires Valid()
      modifies this, instrument
      ensures Valid() && (old(Ready()) ==> Ready())
      ensures instrument.written == old(instrument.written) + [VoltExternalQuery]
      ensures instrument.responses == RemainingLines(old(instrument.responses))
      ensures var a := Answer(old(instrument.responses), DecodeVoltExternal);
              && (o.Pass? <==> a.Ok?)
              && (a.Err? ==> o.error == a.error && Cached() == old(Cached()))
              && (a.Ok? ==> Cached() == old(Cached()).(voltExternal := a.value))
    {
      var res := instrument.Query(VoltExternalQuery);
      if res.Err? {
        return Fail(res.error);
      }
      var source := DecodeVoltExternal(res.value);
      if source.Err? {
        return Fail(source.error);
      }
      voltExternal := source.value;
      o := Pass;
    }

    /** `select_volt_value`: query `VOLT?` and store the raw reading after
        the three parts of the time `now` at which it arrived. */
    method SelectVoltValue(now: DateTime) returns (o: Outcome)
      requires Valid()
      modifies this, instrument
      ensures Valid() && (old(Ready()) ==> Ready())
      ensures instrument.written == old(instrument.written) + [VoltQuery]
      ensures instrument.responses == RemainingLines(old(instrument.responses))
      ensures var line := NextLine(old(instrument.responses));
              && (o.Pass? <==> line.Ok?)
              && (line.Err? ==> o.error == line.error && Cached() == old(Cached()))
              && (line.Ok? ==> Cached() == old(Cached()).(voltGiveValue := Sample(now, line.value)))
    {
      var rst := instrument.Query(VoltQuery);
      if rst.Err? {
        return Fail(rst.error);
      }
      voltGiveValue := Sample(now, rst.value);
      o := Pass;
    }

    /** `set_volt_value(volt_value)`: refuse a non-float, a negative value and
        a value above `MAX_VOLTage_PUT`, in that order, before writing
        anything; otherwise write `VOLT <value>`. NaN is refused as well (the
        guard as written lets it through). */
    method SetVoltValue(voltValue: PyValue, repr: Float -> string) returns (o: Outcome)
      requires Valid()
      modifies instrument
      ensures o.Pass? <==> CheckVolt(voltValue).Ok?
      ensures o.Fail? ==> o.error == CheckVolt(voltValue).error
      ensures instrument.written ==
                if o.Pass? then old(instrument.written) + [VoltCommand(repr, voltValue.f)]
                else old(instrument.written)
      ensures instrument.responses == old(instrument.responses)
      ensures Cached() == old(Cached())
    {
      var checked := CheckVolt(voltValue);
      if checked.Err? {
        return Fail(checked.error);
      }
      instrument.Write(VoltCommand(repr, checked.value));
      o := Pass;
    }

    /** `select_current_value`: query `MEAS:CURR?` and store the raw reading
        after the three parts of the time `now` at which it arrived. */
    method SelectCurrentValue(now: DateTime) returns (o: Outcome)
      requires Valid()
      modifies this, instrument
      ensures Valid() && (old(Ready()) ==> Ready())
      ensures instrument.written == old(instrument.written) + [CurrentQuery]
      ensures instrument.responses == RemainingLines(old(instrument.responses))
      ensures var line := NextLine(old(instrument.responses));
              && (o.Pass? <==> line.Ok?)
              && (line.Err? ==> o.error == line.error && Cached() == old(Cached()))
              && (line.Ok? ==> Cached() == old(Cached()).(nowCurrentValue := Sample(now, line.value)))
    {
      var rst := instrument.Query(CurrentQuery);
      if rst.Err? {
        return Fail(rst.error);
      }
      nowCurrentValue := Sample(now, rst.value);
      o := Pass;
    }

    /** `ctrl_output_on`: write `OUTPut ON`; nothing is read. */
    method CtrlOutputOn()
      modifies instrument
      ensures instrument.written == old(instrument.written) + [OutputOnCommand]
      ensures instrument.responses == old(instrument.responses)
      ensures Cached() == old(Cached())
    {
      instrument.Write(OutputOnCommand);
    }

    /** `ctrl_output_off`: write `OUTPut OFF`; nothing is read. */
    method CtrlOutputOff()
      modifies instrument
      ensures instrument.written == old(instrument.written) + [OutputOffCommand]
      ensures instrument.responses == old(instrument.responses)
      ensures Cached() == old(Cached())
    {
      instrument.Write(OutputOffCommand);
    }
  }

  /** A caller's view of construction: an instrument that answers `*IDN?`
      with four comma-free fields yields a session holding those fields. */
  method IdentityScenario(fields: seq<string>)
    requires |fields| == 4 && forall i :: 0 <= i < 4 ==> ',' !in fields[i]
  {
    IdentityOfFields(fields);
    var instrument, r := CtrlPower.Open([Join(fields, ',')], false);
    assert r.Ok?;
    var session := r.value;
    assert session.deviceInfo["manufacturer"] == fields[0];
    assert session.deviceInfo["software_version"] == fields[3];
    assert instrument.written == ["*IDN?"];
  }

  /** A caller's view of the voltage guard: 45.0 and -1.0 send nothing,
      12.2 sends one `VOLT` line. */
  method SetpointScenario(session: CtrlPower, repr: Float -> string)
    requires session.Valid()
    modifies session.instrument
  {
    var log := session.instrument.written;
    var o := session.SetVoltValue(PyFloat(Finite(45.0)), repr);
    assert o == Fail(VoltageAboveLimit(Finite(45.0)));
    o := session.SetVoltValue(PyFloat(Finite(-1.0)), repr);
    assert o == Fail(NegativeVoltage(Finite(-1.0)));
    assert session.instrument.written == log;
    o := session.SetVoltValue(PyFloat(Finite(12.2)), repr);
    assert session.instrument.written == log + [VoltCommand(repr, Finite(12.2))];
  }

  /** A caller's view of a bad `MODE?` answer: the call fails and the cached
      mode is kept. */
  method ModeScenario(session: CtrlPower)
    requires session.Valid() && session.instrument.responses == ["9"]
    modifies session, session.instrument
  {
    var mode := session.powerMode;
    PowerModeResponses();
    var o := session.SelectPowerMode();
    assert o == Fail(UnknownCode(9));
    assert session.powerMode == mode;
  }
}
