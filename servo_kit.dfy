/** The PCA9685 servo driver (`ServoKit(channels=16)`), reduced to what the arm
    program touches: one readable and writable angle per channel. */
module ServoDriver {

  import opened Wrappers

  /** Number of channels of the driver board. */
  const CHANNELS: nat := 16

  /** Largest angle the driver accepts; the driver rejects anything outside 0..180. */
  const ACTUATION_RANGE: int := 180

  type Channel = c: nat | c < CHANNELS

  /** One assignment `kit.servo[channel].angle = angle`. */
  datatype Write = Write(channel: Channel, angle: int)

  /** An angle the driver accepts. */
  predicate InRange(angle: int)
  {
    0 <= angle <= ACTUATION_RANGE
  }

  /** Every reading, when set, is an angle the driver accepted. */
  predicate ValidReadings(angles: seq<Option<int>>)
  {
    && |angles| == CHANNELS
    && forall ch :: 0 <= ch < |angles| && angles[ch].Some? ==> InRange(angles[ch].value)
  }

  class ServoKit {
    /** `kit.servo[ch].angle` for each channel; `None` until the channel is first driven. */
    var angles: seq<Option<int>>
    /** Every angle assignment made so far, oldest first. */
    ghost var trace: seq<Write>

    ghost predicate Valid()
      reads this
    {
      ValidReadings(angles)
    }

    /** At power-up no channel has been driven, so every angle reads as unset. */
    constructor ()
      ensures Valid()
      ensures forall ch :: 0 <= ch < CHANNELS ==> angles[ch] == None
      ensures trace == []
    {
      angles := seq(CHANNELS, _ => None);
      trace := [];
    }

    /** Reading `kit.servo[ch].angle`. */
    function Angle(ch: Channel): (a: Option<int>)
      requires Valid()
      reads this
      ensures a.Some? ==> InRange(a.value)
    {
      angles[ch]
    }

    /** Assigning `kit.servo[ch].angle = angle`: only that channel changes. */
    method SetAngle(ch: Channel, angle: int)
      requires Valid() && InRange(angle)
      modifies this
      ensures Valid()
      ensures angles == old(angles)[ch := Some(angle)]
      ensures trace == old(trace) + [Write(ch, angle)]
    {
      angles := angles[ch := Some(angle)];
      trace := trace + [Write(ch, angle)];
    }
  }
}
