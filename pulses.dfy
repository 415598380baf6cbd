/** How `pulse_DIO` splits a pulse count into `PulseOut` calls.

    The driver's pulse transaction emits at most 2^15 - 1 pulses per call, so a
    longer train is issued as successive full chunks followed by one chunk
    holding the remainder.  `Chunks` is the reference definition of the chunk
    sizes; the loop of `LabJackU12.Controller.PulseDIO` is proved against it.
 */
module Pulses {

  /** `max_pulses = (1<<15) - 1`. */
  const MaxPulses: int := 32767

  /** The sizes of the successive calls that emit `pulses` pulses: nothing for
      a count that is not positive, otherwise full chunks while more than a
      full chunk remains, then the rest. */
  function Chunks(pulses: int): seq<int>
    decreases pulses
  {
    if pulses <= 0 then []
    else if pulses > MaxPulses then [MaxPulses] + Chunks(pulses - MaxPulses)
    else [pulses]
  }

  function Sum(s: seq<int>): int
  {
    if s == [] then 0 else s[0] + Sum(s[1..])
  }

  /** Every chunk is a legal pulse count for one call, and every chunk but the
      last is a full one. */
  lemma {:induction false} ChunksShape(pulses: int)
    ensures forall k :: 0 <= k < |Chunks(pulses)| ==> 1 <= Chunks(pulses)[k] <= MaxPulses
    ensures forall k :: 0 <= k < |Chunks(pulses)| - 1 ==> Chunks(pulses)[k] == MaxPulses
  {
    if pulses > MaxPulses {
      ChunksShape(pulses - MaxPulses);
    }
  }

  /** The chunks add up to the requested count (to nothing for a count that is
      not positive). */
  lemma {:induction false} ChunksSum(pulses: int)
    ensures Sum(Chunks(pulses)) == if pulses > 0 then pulses else 0
  {
    if pulses > MaxPulses {
      ChunksSum(pulses - MaxPulses);
    }
  }

  /** A positive count takes ceil(pulses / MaxPulses) calls; any other count
      takes none. */
  lemma {:induction false} ChunksCount(pulses: int)
    ensures pulses > 0 ==> |Chunks(pulses)| == (pulses + MaxPulses - 1) / MaxPulses
    ensures pulses <= 0 ==> |Chunks(pulses)| == 0
  {
    if pulses > MaxPulses {
      ChunksCount(pulses - MaxPulses);
      assert (pulses + MaxPulses - 1) / MaxPulses == (pulses - 1) / MaxPulses + 1;
    }
  }

  /** 40000 pulses are issued as one full chunk and the remaining 7233. */
  lemma ChunksOf40000()
    ensures Chunks(40000) == [32767, 7233]
  {
    assert Chunks(7233) == [7233];
  }
}
