/** The LabJack U12 digital I/O controller.

    The controller caches the direction ("tris") and level ("state") registers
    of the two line groups of the device -- the four screw-terminal lines (IO)
    and the sixteen DB25 lines (DIO) -- because every DigitalIO transaction of
    the vendor driver takes the full image of all four registers.  Each
    operation merges the caller's request into the cached image, submits the
    whole image, and surfaces a nonzero driver code as an error tagged with the
    operation's name.

    The vendor driver is not part of this model.  Each operation that talks to
    it takes the driver as a parameter: a function from the submitted
    DigitalIO arguments to the driver's reply, or, for PulseOut, the sequence
    of codes its successive calls return.
 */
module LabJackU12 {
  import opened Bits
  import opened Pulses

  /** The names under which driver failures are raised. */
  datatype Operation =
    | ReadIO | SetIOtoOutput | WritetoIO
    | ReadDIO | SetDIOtoOutput | WritetoDIO
    | PulseDIO

  /** A driver failure carries the operation and the driver's code verbatim.
      `ZeroDivisionError` is what Python raises when `pulse_DIO` is asked for
      pulses at frequency 0. */
  datatype Error = DeviceError(op: Operation, code: int) | ZeroDivisionError

  datatype Outcome = Pass | Fail(error: Error)

  datatype Result<T> = Ok(value: T) | Err(error: Error)

  /** A driver code becomes the outcome of the operation that received it:
      0 is success, anything else is raised with that code. */
  function Status(op: Operation, code: int): (r: Outcome)
    ensures r.Pass? <==> code == 0
    ensures r.Fail? ==> r.error == DeviceError(op, code)
  {
    if code != 0 then Fail(DeviceError(op, code)) else Pass
  }

  /** Firmware versions above this value mean that no device answered. */
  const FirmwareThreshold: int := 512

  /** `check_connection`: 1 when the reported firmware version is plausible,
      0 otherwise.  It never fails and touches no register. */
  function CheckConnection(version: int): (connected: int)
    ensures connected == 1 <==> version <= FirmwareThreshold
    ensures connected == 0 <==> version > FirmwareThreshold
  {
    if version > FirmwareThreshold then 0 else 1
  }

  /** `updateDigital`: 0 asks the driver only to read, 1 to drive the outputs. */
  const ReadOnly: int := 0
  const UpdateOutputs: int := 1

  /** The register arguments of one DigitalIO call.  `trisD`, `stateD` and
      `stateIO` are passed by reference, `trisIO` by value. */
  datatype DigitalIOCall = DigitalIOCall(
    trisD: bv32, trisIO: bv32, stateD: bv32, stateIO: bv32, updateDigital: int)

  /** What a DigitalIO call returns: its error code and what it left in the
      three registers passed by reference. */
  datatype DigitalIOReply = DigitalIOReply(
    code: int, trisD: bv32, stateD: bv32, stateIO: bv32)

  type DigitalIODriver = DigitalIOCall -> DigitalIOReply

  /** The default `bitmask` of `write_to_IO` and `write_to_DIO`: every line of
      the group. */
  const AllIOLines: bv32 := 0xF
  const AllDIOLines: bv32 := 0xFFFF

  /** The arguments of one PulseOut call. */
  datatype PulseCall = PulseCall(
    lowFirst: int, bitSelect: bv32, numPulses: int,
    timeB1: int, timeC1: int, timeB2: int, timeC2: int)

  /** Python 2's `/` on ints: the quotient rounded towards minus infinity. */
  function FloorDiv(a: int, b: int): (q: int)
    requires b != 0
    ensures b > 0 ==> q * b <= a < q * b + b
    ensures b < 0 ==> q * b + b < a <= q * b
  {
    if b > 0 || a % b == 0 then a / b else a / b - 1
  }

  /** The timing parameter of `pulse_DIO`: driver clock ticks per half
      period. */
  function HalfPeriod(f: int): int
    requires f != 0
  {
    FloorDiv(25000, f)
  }

  /** The half period never leaves the `c_long` range, so passing it to the
      driver loses nothing. */
  lemma HalfPeriodBounds(f: int)
    requires f != 0
    ensures -25000 <= HalfPeriod(f) <= 25000
    ensures f > 0 ==> 0 <= HalfPeriod(f)
  {
  }

  /** The parameters every PulseOut call of `pulse_DIO` shares: high phase
      first, the selected lines, the half period for `f` in both phases and a
      cycle count of 1 in both phases. */
  predicate SharedPulseParameters(call: PulseCall, dios: bv32, f: int)
  {
    && f != 0
    && call.lowFirst == 0
    && call.bitSelect == dios
    && call.timeB1 == HalfPeriod(f) && call.timeB2 == HalfPeriod(f)
    && call.timeC1 == 1 && call.timeC2 == 1
  }

  class Controller {
    /** Direction registers (1 = output) and level registers of the DB25
        group (D) and the screw-terminal group (IO). */
    var trisD: bv32
    var trisIO: bv32
    var stateD: bv32
    var stateIO: bv32

    /** Every DigitalIO call issued so far, oldest first. */
    ghost var Sent: seq<DigitalIOCall>

    /** Power-on defaults: every line an input, every level low. */
    constructor ()
      ensures trisD == 0 && trisIO == 0 && stateD == 0 && stateIO == 0
      ensures Sent == []
    {
      trisD, trisIO, stateD, stateIO := 0, 0, 0, 0;
      Sent := [];
    }

    /** The full register image that a DigitalIO call submits. */
    function Image(updateDigital: int): (call: DigitalIOCall)
      reads this
    {
      DigitalIOCall(trisD, trisIO, stateD, stateIO, updateDigital)
    }

    /** The registers passed by reference hold what the driver left in them. */
    predicate HoldsReadback(reply: DigitalIOReply)
      reads this
    {
      trisD == reply.trisD && stateD == reply.stateD && stateIO == reply.stateIO
    }

    /** Submits the cached image and takes the driver's readback, whatever
        its code. */
    method Transact(driver: DigitalIODriver, updateDigital: int) returns (code: int)
      modifies this
      ensures Sent == old(Sent) + [old(Image(updateDigital))]
      ensures HoldsReadback(driver(old(Image(updateDigital))))
      ensures code == driver(old(Image(updateDigital))).code
      ensures trisIO == old(trisIO)
    {
      var call := Image(updateDigital);
      var reply := driver(call);
      Sent := Sent + [call];
      trisD, stateD, stateIO := reply.trisD, reply.stateD, reply.stateIO;
      code := reply.code;
    }

    /** `read_IO`: a read-only transaction with the cached image unchanged;
        the IO levels read back are returned as a signed `c_long` value. */
    method ReadIO(driver: DigitalIODriver) returns (r: Result<int>)
      modifies this
      ensures var call := DigitalIOCall(old(trisD), old(trisIO), old(stateD), old(stateIO), ReadOnly);
        && Sent == old(Sent) + [call]
        && HoldsReadback(driver(call))
        && (r.Ok? <==> driver(call).code == 0)
        && (r.Ok? ==> r.value == Signed(driver(call).stateIO))
        && (r.Err? ==> r.error == DeviceError(Operation.ReadIO, driver(call).code))
      ensures trisIO == old(trisIO)
    {
      var code := Transact(driver, ReadOnly);
      if code != 0 {
        return Err(DeviceError(Operation.ReadIO, code));
      }
      r := Ok(Signed(stateIO));
    }

    /** `set_IO_to_output`: ORs `direction` into the IO direction register
        and `data` into the IO levels before the call; a failing call rolls
        nothing back. */
    method SetIOToOutput(driver: DigitalIODriver, direction: bv32, data: bv32 := 0) returns (r: Outcome)
      modifies this
      ensures var call := DigitalIOCall(old(trisD), SetBits(old(trisIO), direction),
                                        old(stateD), SetBits(old(stateIO), data), UpdateOutputs);
        && Sent == old(Sent) + [call]
        && HoldsReadback(driver(call))
        && r == Status(Operation.SetIOtoOutput, driver(call).code)
      ensures trisIO == SetBits(old(trisIO), direction)
    {
      trisIO := SetBits(trisIO, direction);
      stateIO := SetBits(stateIO, data);
      var code := Transact(driver, UpdateOutputs);
      r := Status(Operation.SetIOtoOutput, code);
    }

    /** `write_to_IO`: the masked merge of `data` under `bitmask` into the IO
        levels, then a driving call; the directions are not touched. */
    method WriteToIO(driver: DigitalIODriver, data: bv32, bitmask: bv32 := AllIOLines) returns (r: Outcome)
      modifies this
      ensures var call := DigitalIOCall(old(trisD), old(trisIO), old(stateD),
                                        MaskedMerge(old(stateIO), data, bitmask), UpdateOutputs);
        && Sent == old(Sent) + [call]
        && HoldsReadback(driver(call))
        && r == Status(Operation.WritetoIO, driver(call).code)
      ensures trisIO == old(trisIO)
    {
      stateIO := MaskedMerge(stateIO, data, bitmask);
      var code := Transact(driver, UpdateOutputs);
      r := Status(Operation.WritetoIO, code);
    }

    /** `read_DIO`: as `read_IO`, returning the DB25 levels read back. */
    method ReadDIO(driver: DigitalIODriver) returns (r: Result<int>)
      modifies this
      ensures var call := DigitalIOCall(old(trisD), old(trisIO), old(stateD), old(stateIO), ReadOnly);
        && Sent == old(Sent) + [call]
        && HoldsReadback(driver(call))
        && (r.Ok? <==> driver(call).code == 0)
        && (r.Ok? ==> r.value == Signed(driver(call).stateD))
        && (r.Err? ==> r.error == DeviceError(Operation.ReadDIO, driver(call).code))
      ensures trisIO == old(trisIO)
    {
      var code := Transact(driver, ReadOnly);
      if code != 0 {
        return Err(DeviceError(Operation.ReadDIO, code));
      }
      r := Ok(Signed(stateD));
    }

    /** `set_DIO_to_output`: as `set_IO_to_output`, for the DB25 group. */
    method SetDIOToOutput(driver: DigitalIODriver, direction: bv32, data: bv32 := 0) returns (r: Outcome)
      modifies this
      ensures var call := DigitalIOCall(SetBits(old(trisD), direction), old(trisIO),
                                        SetBits(old(stateD), data), old(stateIO), UpdateOutputs);
        && Sent == old(Sent) + [call]
        && HoldsReadback(driver(call))
        && r == Status(Operation.SetDIOtoOutput, driver(call).code)
      ensures trisIO == old(trisIO)
    {
      trisD := SetBits(trisD, direction);
      stateD := SetBits(stateD, data);
      var code := Transact(driver, UpdateOutputs);
      r := Status(Operation.SetDIOtoOutput, code);
    }

    /** `write_to_DIO`: as `write_to_IO`, for the DB25 group. */
    method WriteToDIO(driver: DigitalIODriver, data: bv32, bitmask: bv32 := AllDIOLines) returns (r: Outcome)
      modifies this
      ensures var call := DigitalIOCall(old(trisD), old(trisIO),
                                        MaskedMerge(old(stateD), data, bitmask), old(stateIO), UpdateOutputs);
        && Sent == old(Sent) + [call]
        && HoldsReadback(driver(call))
        && r == Status(Operation.WritetoDIO, driver(call).code)
      ensures trisIO == old(trisIO)
    {
      stateD := MaskedMerge(stateD, data, bitmask);
      var code := Transact(driver, UpdateOutputs);
      r := Status(Operation.WritetoDIO, code);
    }

    /** `pulse_DIO`: emits `pulses` pulses on the lines selected by `dios` at
        roughly `f` Hz, as successive PulseOut calls of at most `MaxPulses`
        pulses each.  `codes(k)` is the code the k-th call returns.  The calls
        issued are a prefix of the chunks of `pulses`, all with the same
        timing, and the first nonzero code ends the train.  No register is
        touched. */
    method PulseDIO(dios: bv32, pulses: int, f: int, codes: nat -> int)
      returns (calls: seq<PulseCall>, r: Outcome)
      ensures pulses != 0 && f == 0 ==> calls == [] && r == Fail(ZeroDivisionError)
      ensures |calls| <= |Chunks(pulses)|
      ensures forall k :: 0 <= k < |calls| ==>
        calls[k].numPulses == Chunks(pulses)[k] && SharedPulseParameters(calls[k], dios, f)
      ensures forall k :: 0 <= k < |calls| - 1 ==> codes(k) == 0
      ensures r.Pass? <==>
        (pulses == 0 || f != 0) && |calls| == |Chunks(pulses)| && forall k :: 0 <= k < |calls| ==> codes(k) == 0
      ensures r.Fail? ==>
        if calls == [] then pulses != 0 && f == 0 && r.error == ZeroDivisionError
        else codes(|calls| - 1) != 0 && r.error == DeviceError(Operation.PulseDIO, codes(|calls| - 1))
    {
      calls, r := [], Pass;
      if pulses != 0 {
        if f == 0 {
          return [], Fail(ZeroDivisionError);
        }
        var b := HalfPeriod(f);
        var lowFirst, bitSelect := 0, dios;
        var timeB1, timeC1, timeB2, timeC2 := b, 1, b, 1;
        var remaining := pulses;
        while remaining > 0
          invariant |calls| <= |Chunks(pulses)|
          invariant Chunks(pulses)[|calls|..] == Chunks(remaining)
          invariant forall k :: 0 <= k < |calls| ==>
            calls[k].numPulses == Chunks(pulses)[k] && SharedPulseParameters(calls[k], dios, f)
          invariant forall k :: 0 <= k < |calls| ==> codes(k) == 0
          decreases remaining
        {
          var numPulses;
          if remaining > MaxPulses {
            numPulses := MaxPulses;
            remaining := remaining - MaxPulses;
          } else {
            numPulses := remaining;
            remaining := 0;
          }
          var code := codes(|calls|);
          calls := calls + [PulseCall(lowFirst, bitSelect, numPulses, timeB1, timeC1, timeB2, timeC2)];
          if code != 0 {
            return calls, Fail(DeviceError(Operation.PulseDIO, code));
          }
        }
      }
    }
  }

  /** A driver that succeeds and reads back exactly the image it was sent. */
  function Echo(call: DigitalIOCall): DigitalIOReply
  {
    DigitalIOReply(0, call.trisD, call.stateD, call.stateIO)
  }

  /** From power-on: IO0 and IO1 made outputs with IO0 high, then 0x2 written
      under the mask of both lines.  The mask covers IO0, whose data bit is 0,
      so the write clears IO0: reading the IO lines gives 0x2. */
  method RoundTripExample() returns (r: Result<int>)
    ensures r == Ok(2)
  {
    var c := new Controller();
    var configured := c.SetIOToOutput(Echo, 0x3, 0x1);
    assert c.stateIO == 0x1;
    var written := c.WriteToIO(Echo, 0x2, 0x3);
    assert c.stateIO == 0x2;
    r := c.ReadIO(Echo);
  }

  /** From power-on, two `set_DIO_to_output` calls leave the union of their
      directions and the levels untouched at 0. */
  method DirectionMergeExample(d1: bv32, d2: bv32) returns (trisD: bv32, stateD: bv32)
    ensures trisD == d1 | d2
    ensures stateD == 0
  {
    var c := new Controller();
    var first := c.SetDIOToOutput(Echo, d1);
    var second := c.SetDIOToOutput(Echo, d2);
    SetBitsTwice(d1, d2);
    trisD, stateD := c.trisD, c.stateD;
  }

  /** 40000 pulses at 500 Hz with every call succeeding: exactly two calls,
      of 32767 and 7233 pulses. */
  method PulseTrainExample(dios: bv32) returns (sizes: seq<int>, r: Outcome)
    ensures sizes == [32767, 7233]
    ensures r == Pass
  {
    var c := new Controller();
    var calls;
    calls, r := c.PulseDIO(dios, 40000, 500, k => 0);
    ChunksOf40000();
    sizes := seq(|calls|, k requires 0 <= k < |calls| => calls[k].numPulses);
  }

  /** 100000 pulses, whose train needs four calls, with the second call
      failing with code 7: exactly two calls are issued and the failure
      carries that code. */
  method PulseFailureExample(dios: bv32) returns (issued: nat, r: Outcome)
    ensures issued == 2
    ensures r == Fail(DeviceError(Operation.PulseDIO, 7))
  {
    var c := new Controller();
    var calls;
    var codes: nat -> int := k => if k == 1 then 7 else 0;
    calls, r := c.PulseDIO(dios, 100000, 500, codes);
    assert codes(0) == 0 && codes(1) == 7;
    assert Chunks(1699) == [1699];
    assert Chunks(34466) == [32767, 1699];
    assert Chunks(67233) == [32767, 32767, 1699];
    issued := |calls|;
  }
}
