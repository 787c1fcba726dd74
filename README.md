# A verified model of the `CtrlPower` power-supply session

`CtrlPower` (main.py) drives a programmable DC power supply over SCPI-style
text lines. It reads the identity, the power mode and the voltage source,
reads the voltage setpoint and the output current with a timestamp, sets the
power mode and the voltage, and turns the output on or off. It caches the
last values it read in five fields.

This project models that session in Dafny:

- `text.dfy` (module `Text`): the Python string and integer conversions the
  session depends on. These are `str.split` and `str.join` on one character,
  `str(int)`, `int(str)` on decimal text with surrounding whitespace, and
  the zero padding of `strftime`.
- `protocol.dfy` (module `Protocol`): the wire strings and the `SOUR_MODE`
  and `VOLT_EXTERNAL` code tables. It also holds the checks made on
  arguments before anything is sent, the decoding of the identity line and
  of the code responses, and `MAX_VOLTage_PUT`. Python floats are a `Float`
  datatype with NaN and the infinities.
- `clock.dfy` (module `Clock`): `get_datetime_now`, which renders a clock
  reading with `strftime` and splits it into three parts, and the four-part
  sample rows.
- `session.dfy` (module `Session`): the instrument connection as a class
  `Instrument`. It holds the log of every line written and the script of
  response lines still to come; a query writes one line, then consumes one
  response. `CtrlPower` is a class with the five cached fields. Each method
  states its whole new state: what is appended to the write log, what is
  consumed from the script, and which single cached field changes. It also
  states that nothing is written and nothing changes when an argument check
  fails. Every method keeps the invariant `Valid()`: each cached field is
  empty, or of the shape a successful query leaves there. That shape is
  the four identity keys with comma-free values, a name from the code
  table, or a four-element sample row.

Construction can raise, so it is modelled by the static method
`CtrlPower.Open`. It returns the fresh connection and either the session or
the error. The only line it writes is `*IDN?`.

Some facts about the code that shape the model:

- `CtrlPower` has no rate limiter. `CMD_MIN_INTERVAL_TIME_MS` (40 ms) is
  used only in `sleep` calls of the callers, so it is not modelled.
- The code has no session state beyond the five cached fields. It raises
  `TypeError`, `ValueError`, or `KeyError` (for a code missing from a
  table). `Error.ExceptionClass` gives that class for each cause.
- A failed identity query after construction keeps the previous identity.
  The session stays usable.

## Model

| member | source | states |
|---|---|---|
| `Text.Split` | main.py:101 | `str.split(',')`: one more field than separators, and no field contains the separator |
| `Text.JoinSplit` | main.py:101 | joining the split fields with the separator restores the original line |
| `Text.SplitJoin` | main.py:101 | splitting a join of separator-free fields gives back exactly those fields, in order |
| `Text.IntToDecimal` | main.py:132 | `str(i)` starts with a minus sign exactly for negative i, followed by non-empty decimal digits; otherwise it is decimal digits only. There is never a leading zero except in `"0"` itself |
| `Text.ParseInt` | main.py:118 | `int(res)` succeeds only on a text holding at least one decimal digit |
| `Text.NatToDecimal` | main.py:132 | `str(n)` is non-empty decimal digits without a leading zero |
| `Text.ParseIntOfText` | main.py:118 | `int(res)` accepts whitespace, an optional sign, decimal digits and whitespace, and gives the signed value of the digits, leading zeros included |
| `Text.ParseIntAccepted` | main.py:118 | conversely, every text `int(res)` accepts is whitespace, an optional sign, decimal digits and whitespace, so `"2x"` or `"2 2"` raises |
| `Text.ParseIntDecimal` | main.py:118 | `int(str(i)) == i` for every integer, as the code tables' keys are read back |
| `Text.ZeroPad` | main.py:33 | a padded strftime field is digits only and denotes the number. It is exactly the field width long, or the number's own decimal length when that is longer (never truncated) |
| `Text.ZeroPadWidth` | main.py:33 | a number below 10^w fills a width-w field exactly |
| `Protocol.ModeCommand` | main.py:132 | `MODE n` is the keyword, one space, and an argument that `int()` reads back as n |
| `Protocol.VoltCommand` | main.py:173 | `VOLT v` is the keyword, one space, and the float's rendering unchanged |
| `Protocol.ModeCommandDigit` | main.py:132 | for a one-digit code the command is exactly `MODE ` followed by that single digit, so `MODE 0` .. `MODE 3` |
| `Protocol.DecodeCode` | main.py:117-118 | `table[int(res)]` succeeds iff the response is an integer that is a key; otherwise it is a parse error carrying the raw line, or an unknown-code error carrying the code |
| `Protocol.DecodePowerMode` | main.py:59-62 | a `MODE?` response decodes iff it is an integer in 0..3 (whitespace, sign and leading zeros allowed, as `int()` does), and then to the `SOUR_MODE` name of that integer, one of CV, CC, CVCP, CCCP |
| `Protocol.PowerModeCodes` | main.py:59-62 | for every integer k, the decimal text of k decodes to CV/CC/CVCP/CCCP for 0/1/2/3, and to an unknown-code error for any other k |
| `Protocol.PowerModeResponses` | main.py:117-118 | response "2" is CVCP, response "9" is an unknown code |
| `Protocol.DecodeVoltExternal` | main.py:65-66 | a `VOLT:EXT?` response decodes iff it is the integer 0 or 1, and then to the `VOLT_EXTERNAL` name of that integer, Digital or Analog |
| `Protocol.VoltExternalCodes` | main.py:139-140 | for every integer k, its text decodes to Digital for 0, Analog for 1, and an unknown-code error otherwise |
| `Protocol.CheckPowerModeArg` | main.py:128-130 | `set_power_mode` accepts n iff 0 <= n <= 3, and otherwise raises with the offending value |
| `Protocol.ModeCommandReadsBack` | main.py:132 | the argument of `MODE n` is the decimal text of n, and a `MODE?` answer with that text decodes to the mode that was set |
| `Protocol.ZipMap` | main.py:106 | the keys of `dict(zip(keys, values))` are exactly the keys at positions that have a value |
| `Protocol.ZipMapAt` | main.py:106 | `dict(zip(keys, values))` with distinct keys has exactly those keys, each mapped to the value at its position |
| `Protocol.ParseIdentity` | main.py:96-106 | the identity decodes iff the line has exactly three commas (four fields). On success it has exactly the four keys, each mapped to the field at its position; on failure the error carries the raw line |
| `Protocol.IdentityValuesCommaFree` | main.py:101-106 | no decoded identity value contains a comma |
| `Protocol.IdentityRecoversResponse` | main.py:101-106 | the four decoded values, joined by commas in key order, are the response itself |
| `Protocol.IdentityOfFields` | main.py:101-106 | a line built from four comma-free fields decodes to those fields, unchanged and in order |
| `Protocol.FloatLess` | main.py:165 | the IEEE `f < r`: never true for NaN nor together with `f > r`; true for -inf |
| `Protocol.FloatGreater` | main.py:169 | the IEEE `f > r`: never true for NaN; true for +inf |
| `Protocol.FloatTrichotomy` | main.py:165-169 | a float other than NaN is below, equal to or above a bound, exactly one of these; NaN is neither below nor above |
| `Protocol.CheckVoltAsWritten` | main.py:161-171 | the guard as written accepts exactly the floats in 0.0..40 and NaN, and passes the float on unchanged |
| `Protocol.CheckVolt` | main.py:161-171 | the corrected guard accepts exactly the finite floats in 0.0..40. A non-float is a type error, below zero (also -inf) is a negative error, above 40 (also +inf) is an over-limit error, in that order; NaN is refused |
| `Protocol.NaNPassesVoltGuard` | main.py:165-173 | NaN passes the guard as written, and the corrected guard refuses it |
| `Protocol.CheckVoltAgreesOffNaN` | main.py:161-171 | on every input other than NaN the corrected guard is the guard as written |
| `Protocol.VoltLimitAccepted` | main.py:169 | 40.0 itself is accepted (the comparison is strict); 45.0, -1.0 and an int are refused, each with its own error |
| `Clock.Strftime` | main.py:33 | for a reading within `datetime`'s field ranges the text is 26 characters long, with its two spaces at positions 10 and 19 |
| `Clock.GetDatetimeNow` | main.py:31-33 | the timestamp always splits into exactly three parts: date, time of day and microseconds |
| `Clock.StrftimeSplits` | main.py:33 | splitting the strftime text at spaces gives the date, time and microsecond texts |
| `Clock.Sample` | main.py:150 | a sample row has four elements: the three timestamp parts, then the raw response unchanged |
| `Session.Instrument.Write` | main.py:191 | a write appends exactly that line to the log and reads nothing |
| `Session.Instrument.Query` | main.py:96 | a query appends the command to the log, then consumes one response line, or fails when there is none |
| `Session.CtrlPower.constructor` | main.py:83-87 | the cached fields start empty |
| `Session.CtrlPower.Open` | main.py:68-89 | the only line sent is `*IDN?`. A session is returned iff the first response decodes as an identity; it starts with only `deviceInfo` set. Otherwise the identity error is returned |
| `Session.CtrlPower.SelectDeviceInfo` | main.py:91-106 | sends `*IDN?`. On a four-field answer only `deviceInfo` changes, to the decoded record. Otherwise it raises and no field changes |
| `Session.CtrlPower.SelectPowerMode` | main.py:112-118 | sends `MODE?`. On a known code only `powerMode` changes, to its name. Otherwise it raises and no field changes |
| `Session.CtrlPower.SetPowerMode` | main.py:122-132 | writes exactly `MODE n` iff n is a mode code; otherwise it raises and writes nothing. No field changes |
| `Session.CtrlPower.SelectVoltExternal` | main.py:134-140 | sends `VOLT:EXT?`. On a known code only `voltExternal` changes, to its name. Otherwise it raises and no field changes |
| `Session.CtrlPower.SelectVoltValue` | main.py:144-150 | sends `VOLT?`; only `voltGiveValue` changes, to the timestamp parts followed by the raw reading |
| `Session.CtrlPower.SetVoltValue` | main.py:155-173 | refuses a non-float, a negative value and a value above 40, in that order, and writes nothing. NaN is refused as well (see Findings). Otherwise it writes exactly `VOLT <repr(v)>`. No field changes |
| `Session.CtrlPower.SelectCurrentValue` | main.py:175-181 | sends `MEAS:CURR?`; only `nowCurrentValue` changes, to the timestamp parts followed by the raw reading |
| `Session.CtrlPower.CtrlOutputOn` | main.py:186-191 | writes exactly `OUTPut ON`, reads nothing, changes no field |
| `Session.CtrlPower.CtrlOutputOff` | main.py:195-200 | writes exactly `OUTPut OFF`, reads nothing, changes no field |

## Left out

- Opening the resource (`pyvisa.ResourceManager`, `open_resource`), the line terminators and the one-second `sleep` after connecting. This is a foreign library. `Open` creates an `Instrument` whose responses are a given script instead.
- I/O errors on writing, and read timeouts other than an exhausted response script. The model has no timing.
- All `print` output and the `is_foreground_mode` branches. They only print. The flag is kept as a field.
- `CMD_MIN_INTERVAL_TIME_MS` and the `sleep` calls of the callers. `CtrlPower` itself has no rate limiting.
- `WriteProcess`, the CSV file, the argument parser and the interactive `input()` loop with its `float()` parsing. These are process, file and console glue.
- Python's float `repr`. `SetVoltValue` takes it as a function parameter `repr`, so `VOLT 12.2` is shown as `VOLT ` followed by `repr(12.2)`.
- Signed zero. `Float` has one `Finite(0.0)` for both `0.0` and `-0.0`. Both pass the guard, but Python writes `VOLT 0.0` for one and `VOLT -0.0` for the other, while `VoltCommand(repr, Finite(0.0))` is a single string.
- `datetime.now()`. The clock reading is a method parameter. `%Y` for years below 1000 is platform-dependent, and the model pads it to four digits.
- `int()` accepts underscores between digits, non-ASCII digits and non-ASCII whitespace. None of these is modelled. Around the digits the model skips only tab, line feed, vertical tab, form feed, carriage return and space, which are the ASCII characters `int()` skips.
- The integer string conversion length limit of current CPython (`sys.get_int_max_str_digits()`, 4300 digits by default). Above it, `int()` and `str()` raise `ValueError`, and leading zeros count towards the limit. The model has no limit. `ParseIntOfText`, `ParseIntDecimal` and `DecodePowerMode` therefore also accept texts of more than 4300 digits, which that Python refuses.
- Session.CtrlPower.SetPowerMode: takes an `int` only. Python's `in` test on the keys would also admit `True` or `1.0` and then write `MODE True` or `MODE 1.0`.
- Session.CtrlPower.SetVoltValue: refuses NaN, which the code as written sends as `VOLT nan` (see Findings). Instances of float subclasses, which `isinstance` accepts, are not represented.

## Findings

| source | as written | input that shows it | evidently intended | confidence | as-written member | corrected member |
|---|---|---|---|---|---|---|
| main.py:165-173 | `volt_value < 0.0` and `volt_value > MAX_VOLTage_PUT` are both false for NaN, so the guard passes and `VOLT nan` is written to the supply | `set_volt_value(float('nan'))` | only voltages within 0.0..40 reach the device (the comment on line 24 says output above 40 V is not allowed) | medium, not executed | `Protocol.NaNPassesVoltGuard` (about `Protocol.CheckVoltAsWritten`) | `Protocol.CheckVolt`, used by `Session.CtrlPower.SetVoltValue` |
