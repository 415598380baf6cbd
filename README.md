# LabJack U12 digital I/O controller, modelled in Dafny

`labjacku12.py` drives the digital lines of a LabJack U12 USB data-acquisition
device through three entry points of the vendor driver: `GetFirmwareVersion`,
`DigitalIO` and `PulseOut`. It keeps four 32-bit registers. `trisIO` and
`stateIO` are the direction and level registers of the four screw-terminal
lines (IO). `trisD` and `stateD` are the same registers for the sixteen DB25
lines (DIO). The module needs these copies because every `DigitalIO` call must
resubmit the full image of all four registers.

The model has three modules:

- `Bits` (`bits.dfy`) treats the registers as `bv32`, since each is a ctypes
  `c_long`. It holds the two merges the module performs:
  - the OR merge of `set_IO_to_output` / `set_DIO_to_output`;
  - the two-step masked merge of `write_to_IO` / `write_to_DIO`.

  It also has `Signed`, the signed reading `c_long.value` that the read
  operations return. Lemmas state the merges line by line, and prove that
  the masked merge is unique and idempotent and that the OR merge is
  monotone.
- `Pulses` (`pulses.dfy`) has `Chunks`, the reference definition of how
  `pulse_DIO` splits a pulse count into `PulseOut` calls of at most 32767
  pulses. Inductive lemmas give the shape of the chunks, their sum and their
  number.
- `LabJackU12` (`labjacku12.dfy`) has these parts:
  - the error datatype;
  - `CheckConnection`;
  - the `Controller` class, whose fields are the four cached registers and
    whose methods are the seven other operations of the module.

  The driver is a parameter of each method. `DigitalIO` is a function from
  the submitted arguments (`DigitalIOCall`) to the reply (`DigitalIOReply`).
  The reply holds the error code and what the driver left in the three
  registers passed by reference. `PulseOut` is the sequence of codes that
  its successive calls return.

  A ghost log `Sent` records every `DigitalIOCall` submitted. Each method's
  postcondition states three things:
  - the exact image submitted, with the merge applied before the call;
  - that the registers passed by reference then hold the driver's readback,
    whatever the code, so nothing is rolled back;
  - the outcome.

  `PulseDIO` is a loop proved against `Chunks`. The calls it issues are a
  prefix of the chunks, all with the same timing. The first nonzero code
  ends the train with a `PulseDIO` error carrying that code, and success
  means that every chunk was issued.

  Four example methods exercise the operations. The two `DigitalIO`
  examples, a set/write/read round trip and two direction merges, run
  against `Echo`, a driver that succeeds and reads back exactly what it was
  sent. The two pulse examples take a given sequence of `PulseOut` codes: a
  40000-pulse train whose calls all return 0, and a train whose second call
  returns 7.

Modelling notes:

- The caller's `data`, `bitmask`, `direction` and `DIOs` arguments are taken as
  `bv32`, the value `c_long` keeps of them. The source merges on unbounded
  Python ints and then wraps to 32 bits. Bitwise operators commute with
  taking the low 32 bits of two's complement integers, so the `bv32` merge
  is the same value. In particular `~bitmask` is the `bv32` complement
  `!bitmask`.
- `DigitalIO` receives `trisD`, `stateD` and `stateIO` by reference and
  `trisIO` by value (labjacku12.py:110-111 and the same call at every other
  site). After every call the model therefore gives `trisD`, `stateD` and
  `stateIO` the values the driver left in them. This applies to
  `set_*_to_output` and `write_to_*` as well as to the reads, whether or not
  the code is 0. `trisIO` keeps the merged value.
- `25000/f` is Python 2 integer division, so the model uses floor division
  (`FloorDiv`). With `pulses != 0` and `f == 0` Python raises
  `ZeroDivisionError` before any call. The model returns
  `Fail(ZeroDivisionError)` in that case instead of requiring `f != 0`. A
  negative `pulses` computes the half period and then issues no call.
- `check_connection` returns the int 0 or 1, not a boolean.
- After `set_IO_to_output(0x3, data=0x1)` and then
  `write_to_IO(0x2, bitmask=0x3)`, `read_IO()` returns `0x2` when the driver
  reads back what it was sent. The mask covers IO0, whose data bit is 0, so
  the second step of the masked merge (labjacku12.py:146) clears IO0. Only
  IO1 stays high. `RoundTripExample` proves this value.

## Model

| member | source | states |
|---|---|---|
| `LabJackU12.CheckConnection` | labjacku12.py:97-101 | the result is 1 exactly when the firmware version is at most 512 and 0 exactly when it is above 512; it cannot fail and reads no register |
| `LabJackU12.Status` | labjacku12.py:112-113 | a driver code of 0 is success; any other code becomes a `DeviceError` tagged with the operation and carrying that code verbatim |
| `LabJackU12.Controller.constructor` | labjacku12.py:88-91 | the four registers start at 0 (every line an input, every level low) and no call has been issued |
| `LabJackU12.Controller.Transact` | labjacku12.py:149-150 | a `DigitalIO` call submits the full cached image, then the three by-reference registers hold the driver's readback whatever the code, and `trisIO` is unchanged |
| `LabJackU12.Controller.ReadIO` | labjacku12.py:106-114 | submits the unchanged image with `updateDigital = 0`, takes the readback, and returns the IO levels read back as a signed `c_long` value when the code is 0, else a `ReadIO` error with that code |
| `LabJackU12.Controller.SetIOToOutput` | labjacku12.py:122-135 | submits `trisIO` ORed with `direction` and `stateIO` ORed with `data` (data defaults to 0) with `updateDigital = 1`; `trisIO` keeps the merged value even when the call fails; a nonzero code is a `SetIOtoOutput` error |
| `LabJackU12.Controller.WriteToIO` | labjacku12.py:141-152 | submits `stateIO` masked-merged with `data` under `bitmask` (default `0xF`) and every other register unchanged; `trisIO` is not touched; a nonzero code is a `WritetoIO` error |
| `LabJackU12.Controller.ReadDIO` | labjacku12.py:156-164 | as `ReadIO`, returning the DB25 levels read back, or a `ReadDIO` error |
| `LabJackU12.Controller.SetDIOToOutput` | labjacku12.py:172-181 | submits `trisD` ORed with `direction` and `stateD` ORed with `data` with the IO registers unchanged; a nonzero code is a `SetDIOtoOutput` error |
| `LabJackU12.Controller.WriteToDIO` | labjacku12.py:187-198 | submits `stateD` masked-merged with `data` under `bitmask` (default `0xFFFF`) and every other register unchanged; a nonzero code is a `WritetoDIO` error |
| `LabJackU12.Controller.PulseDIO` | labjacku12.py:203-227 | issues a prefix of `Chunks(pulses)` as `PulseOut` calls with `lowFirst = 0`, `bitSelect = DIOs`, `timeB1 = timeB2 = 25000/f` floored and `timeC1 = timeC2 = 1`; every call before the last returned 0; it succeeds exactly when all chunks were issued and returned 0; otherwise the failure is `ZeroDivisionError` with no call (`pulses != 0`, `f == 0`), or a `PulseDIO` error carrying the nonzero code of the last call issued; no register changes |
| `LabJackU12.FloorDiv` | labjacku12.py:206 | Python 2 `/` on ints: the quotient is the floor of `a / b` for either sign of `b` |
| `LabJackU12.HalfPeriodBounds` | labjacku12.py:206-211 | the half period `25000/f` lies in `-25000..25000` (non-negative for `f > 0`), so `c_long(B)` passes it unchanged |
| `Bits.Signed` | labjacku12.py:114 | `c_long.value` lies in the signed 32-bit range, agrees with the register modulo 2^32, and is negative exactly when the top bit is set |
| `Bits.MaskedMerge` | labjacku12.py:143-146 | after the two-step merge the register equals `data` under `bitmask` and equals its prior value outside `bitmask` |
| `Bits.MaskedMergeInside` | labjacku12.py:143-146 | every line inside the mask reads as the matching line of `data` after the merge |
| `Bits.MaskedMergeOutside` | labjacku12.py:143-146 | every line outside the mask reads as it did before the merge |
| `Bits.MaskedMergeUnique` | labjacku12.py:189-192 | the two equations of the masked merge determine the merged register uniquely |
| `Bits.MaskedMergeStable` | labjacku12.py:189-192 | writing data that the masked lines already hold leaves the register unchanged |
| `Bits.MaskedMergeIdempotent` | labjacku12.py:187-192 | applying the masked merge twice with the same `data` and `bitmask` gives the register of applying it once |
| `Bits.SetBits` | labjacku12.py:124-127 | the OR merge keeps every bit of the old register (nothing is un-configured) and sets every requested bit |
| `Bits.SetBitsSetsNothingElse` | labjacku12.py:174-175 | the OR merge sets no bit that is in neither the old register nor the request |
| `Bits.SetBitsNone` | labjacku12.py:122-127 | with the default `data = 0` the level register is unchanged |
| `Bits.SetBitsTwice` | labjacku12.py:172-175 | two merges from the power-on value 0 leave exactly the bitwise OR of `d1` and `d2` |
| `Pulses.ChunksShape` | labjacku12.py:213-222 | every chunk is in `1..32767` and every chunk but the last is exactly 32767 |
| `Pulses.ChunksSum` | labjacku12.py:213-223 | the chunks sum to `pulses` when it is positive and to 0 otherwise |
| `Pulses.ChunksCount` | labjacku12.py:204-223 | a positive count takes `ceil(pulses / 32767)` calls; a count that is not positive takes none |
| `Pulses.ChunksOf40000` | labjacku12.py:204-223 | 40000 pulses are issued as 32767 and then 7233 |
| `LabJackU12.RoundTripExample` | labjacku12.py:122-164 | from power-on, with a driver that echoes, `set_IO_to_output(0x3, 0x1)`, `write_to_IO(0x2, 0x3)`, `read_IO()` returns 2 |
| `LabJackU12.DirectionMergeExample` | labjacku12.py:172-181 | from power-on, with a driver that echoes, two `set_DIO_to_output` calls leave `trisD` equal to the bitwise OR of `d1` and `d2` and `stateD == 0` |
| `LabJackU12.PulseTrainExample` | labjacku12.py:203-227 | 40000 pulses at 500 Hz with every call succeeding issue exactly two calls, of 32767 and 7233 pulses, and succeed |
| `LabJackU12.PulseFailureExample` | labjacku12.py:213-227 | a four-chunk train whose second call returns 7 issues exactly two calls and fails with a `PulseDIO` error carrying 7 |

## Left out

- Loading `ljackuw.dll` and binding `GetFirmwareVersion`, `DigitalIO` and `PulseOut` (labjacku12.py:68-76) are foreign calls. They are replaced by the driver parameters described above.
- The handles `idnum` and `demo` (labjacku12.py:84-85) are passed through unchanged and are not modelled. The model also does not record that `idnum` is passed by reference and may be rewritten by the driver.
- The `outputD` placeholder is passed to every `DigitalIO` call and never read afterwards, so it is not modelled.
- Physical effects on the pins and the blocking duration of pulse trains are hardware behaviour. They are not modelled.
- A non-integer frequency `f` is not modelled. Under Python 2 it gives true division and a float `c_long` argument. `f` is an int in the model.
- Arguments that are not ints, which raise Python `TypeError`s inside ctypes, are not modelled.
- The text of the raised messages is not modelled. An error keeps only the operation name and the code.
- `LabJackU12.Controller.PulseDIO` takes the `PulseOut` codes indexed by call number rather than as a function of the call's arguments. It therefore does not model a driver whose code depends on anything else.
- The module has no locking. Concurrent use of the shared registers is not modelled.
