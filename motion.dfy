/** Joint stepping (`smooth_move`) and whole-arm poses (`move_arm`): every joint
    is swept one degree at a time, one joint after the other. */
module Motion {

  import opened Wrappers
  import opened ServoDriver
  import opened Seqs

  // Channel of each joint on the driver board.
  const BASE_SERVO: Channel := 0
  const LIFT_SERVO: Channel := 1
  const CLENCH_SERVO: Channel := 2
  const WRIST_SERVO: Channel := 3
  const WRIST_ROTATE_SERVO: Channel := 4

  /** The angle a sweep starts from when the channel's reading is falsy. */
  const HOME_ANGLE: int := 90

  function Abs(x: int): nat
  {
    if x < 0 then -x else x
  }

  /** The start of a sweep, `kit.servo[i].angle or 90`: in Python both an unset
      reading (`None`) and a reading of exactly 0 are false, so both give 90. */
  function StartAngle(reading: Option<int>): (a: int)
    ensures a != 0
    ensures reading == None || reading == Some(0) ==> a == HOME_ANGLE
    ensures reading.Some? && reading.value != 0 ==> a == reading.value
    ensures reading.Some? && InRange(reading.value) ==> InRange(a)
  {
    match reading
    case None => HOME_ANGLE
    case Some(v) => if v != 0 then v else HOME_ANGLE
  }

  /** Python's `range(start, stop, step)` for a step of +1 or -1. */
  function Range(start: int, stop: int, step: int): seq<int>
    requires step == 1 || step == -1
    decreases if step == 1 then stop - start else start - stop
  {
    if (step == 1 && start < stop) || (step == -1 && start > stop) then
      [start] + Range(start + step, stop, step)
    else
      []
  }

  /** How many values `range(start, stop, step)` yields. */
  function RangeLength(start: int, stop: int, step: int): nat
    requires step == 1 || step == -1
  {
    if step == 1 then (if start < stop then stop - start else 0)
    else (if start > stop then start - stop else 0)
  }

  /** A range of step +-1 holds `RangeLength` consecutive values from `start`. */
  lemma {:induction false} RangeShape(start: int, stop: int, step: int)
    requires step == 1 || step == -1
    ensures |Range(start, stop, step)| == RangeLength(start, stop, step)
    ensures forall k :: 0 <= k < |Range(start, stop, step)| ==>
      Range(start, stop, step)[k] == if step == 1 then start + k else start - k
    decreases RangeLength(start, stop, step)
  {
    if (step == 1 && start < stop) || (step == -1 && start > stop) {
      RangeShape(start + step, stop, step);
      var r, rest := Range(start, stop, step), Range(start + step, stop, step);
      assert r == [start] + rest;
      forall k | 0 < k < |r|
        ensures r[k] == if step == 1 then start + k else start - k
      {
        assert r[k] == rest[k - 1];
      }
    }
  }

  /** The angles `smooth_move` assigns when it starts from `current`: the
      |target - current| + 1 consecutive integers from `current` to `target`. */
  function Sweep(current: int, target: int): seq<int>
  {
    seq(Abs(target - current) + 1, k => if target >= current then current + k else current - k)
  }

  /** The loop of `smooth_move`, `range(int(current), int(target) + step, step)`
      with `step = 1 if target > current else -1`, yields exactly the sweep. */
  lemma SweepIsRange(current: int, target: int)
    ensures Sweep(current, target) == Range(current, target + (if target > current then 1 else -1),
                                            if target > current then 1 else -1)
  {
    var step := if target > current then 1 else -1;
    RangeShape(current, target + step, step);
  }

  /** A sweep starts at `current` and ends at `target`; it is strictly
      increasing upwards, strictly decreasing downwards, and the single value
      `target` when the joint is already there. */
  lemma SweepShape(current: int, target: int)
    ensures |Sweep(current, target)| == Abs(target - current) + 1
    ensures Sweep(current, target)[0] == current
    ensures Sweep(current, target)[|Sweep(current, target)| - 1] == target
    ensures target > current ==> forall i, j :: 0 <= i < j < |Sweep(current, target)| ==>
      Sweep(current, target)[i] < Sweep(current, target)[j]
    ensures target < current ==> forall i, j :: 0 <= i < j < |Sweep(current, target)| ==>
      Sweep(current, target)[i] > Sweep(current, target)[j]
    ensures target == current ==> Sweep(current, target) == [target]
  {
  }

  /** The trace entries of assigning the angles `s` to channel `ch`, in order. */
  function Writes(ch: Channel, s: seq<int>): seq<Write>
  {
    seq(|s|, k requires 0 <= k < |s| => Write(ch, s[k]))
  }

  /** `smooth_move(servo_index, target_angle)`: reads the channel's angle (falsy
      readings count as 90) and assigns every integer from there to the target,
      one degree per step. Only channel `servo` changes, and it ends at `target`. */
  method SmoothMove(kit: ServoKit, servo: Channel, target: int)
    requires kit.Valid() && InRange(target)
    modifies kit
    ensures kit.Valid()
    ensures kit.angles == old(kit.angles)[servo := Some(target)]
    ensures kit.trace == old(kit.trace) + Writes(servo, Sweep(StartAngle(old(kit.angles[servo])), target))
  {
    var current := StartAngle(kit.Angle(servo));
    var step := if target > current then 1 else -1;
    var angles := Range(current, target + step, step);
    SweepIsRange(current, target);
    SweepInRange(current, target);
    ghost var start := kit.trace;
    for i := 0 to |angles|
      invariant kit.Valid()
      invariant kit.angles == old(kit.angles)[servo := if i == 0 then old(kit.angles[servo]) else Some(angles[i - 1])]
      invariant kit.trace == start + Writes(servo, angles[..i])
    {
      kit.SetAngle(servo, angles[i]);
      PrefixSnoc(angles, i);
      WritesAppend(servo, angles[..i], [angles[i]]);
    }
    assert angles[..|angles|] == angles;
  }

  /** Every angle of a sweep between two accepted angles is accepted too. */
  lemma SweepInRange(current: int, target: int)
    requires InRange(current) && InRange(target)
    ensures |Sweep(current, target)| > 0 && Sweep(current, target)[|Sweep(current, target)| - 1] == target
    ensures forall k :: 0 <= k < |Sweep(current, target)| ==> InRange(Sweep(current, target)[k])
  {
    SweepShape(current, target);
  }

  /** Assigning `a` then `b` leaves the entries of assigning `a + b`. */
  lemma WritesAppend(ch: Channel, a: seq<int>, b: seq<int>)
    ensures Writes(ch, a + b) == Writes(ch, a) + Writes(ch, b)
  {
  }

  /** The arguments of one `move_arm(base, lift, wrist, wrist_rotate, clench)` call. */
  datatype Pose = Pose(base: int, lift: int, wrist: int, wristRotate: int, clench: int)

  predicate PoseInRange(p: Pose)
  {
    InRange(p.base) && InRange(p.lift) && InRange(p.wrist) && InRange(p.wristRotate) && InRange(p.clench)
  }

  /** The channels `move_arm` drives. */
  predicate IsArmJoint(ch: nat)
  {
    ch == BASE_SERVO || ch == LIFT_SERVO || ch == CLENCH_SERVO || ch == WRIST_SERVO || ch == WRIST_ROTATE_SERVO
  }

  /** The angle pose `p` gives arm joint `ch`. */
  function Target(p: Pose, ch: Channel): int
    requires IsArmJoint(ch)
  {
    if ch == BASE_SERVO then p.base
    else if ch == LIFT_SERVO then p.lift
    else if ch == WRIST_SERVO then p.wrist
    else if ch == WRIST_ROTATE_SERVO then p.wristRotate
    else p.clench
  }

  /** The channel readings after `move_arm(p)`. */
  function ApplyPose(angles: seq<Option<int>>, p: Pose): (r: seq<Option<int>>)
    requires |angles| == CHANNELS
    ensures |r| == CHANNELS
    ensures ValidReadings(angles) && PoseInRange(p) ==> ValidReadings(r)
  {
    angles[BASE_SERVO := Some(p.base)][LIFT_SERVO := Some(p.lift)][WRIST_SERVO := Some(p.wrist)]
          [WRIST_ROTATE_SERVO := Some(p.wristRotate)][CLENCH_SERVO := Some(p.clench)]
  }

  /** After `move_arm(p)` every arm joint holds its target and every other
      channel keeps its reading. */
  lemma PoseReached(angles: seq<Option<int>>, p: Pose)
    requires |angles| == CHANNELS
    ensures forall ch: Channel :: IsArmJoint(ch) ==> ApplyPose(angles, p)[ch] == Some(Target(p, ch))
    ensures forall ch :: 0 <= ch < CHANNELS && !IsArmJoint(ch) ==> ApplyPose(angles, p)[ch] == angles[ch]
  {
  }

  /** The assignments `move_arm(p)` makes starting from `angles`: five complete
      sweeps in the order base, lift, wrist, wrist rotate, clench, each starting
      from that joint's own reading. */
  ghost function PoseTrace(angles: seq<Option<int>>, p: Pose): seq<Write>
    requires |angles| == CHANNELS
  {
    Writes(BASE_SERVO, Sweep(StartAngle(angles[BASE_SERVO]), p.base))
    + Writes(LIFT_SERVO, Sweep(StartAngle(angles[LIFT_SERVO]), p.lift))
    + Writes(WRIST_SERVO, Sweep(StartAngle(angles[WRIST_SERVO]), p.wrist))
    + Writes(WRIST_ROTATE_SERVO, Sweep(StartAngle(angles[WRIST_ROTATE_SERVO]), p.wristRotate))
    + Writes(CLENCH_SERVO, Sweep(StartAngle(angles[CLENCH_SERVO]), p.clench))
  }

  /** `move_arm(base, lift, wrist, wrist_rotate, clench)`: sweeps channels 0, 1,
      3, 4, 2 in that order, each to completion before the next starts. */
  method MoveArm(kit: ServoKit, base: int, lift: int, wrist: int, wristRotate: int, clench: int)
    requires kit.Valid() && PoseInRange(Pose(base, lift, wrist, wristRotate, clench))
    modifies kit
    ensures kit.Valid()
    ensures kit.angles == ApplyPose(old(kit.angles), Pose(base, lift, wrist, wristRotate, clench))
    ensures kit.trace == old(kit.trace) + PoseTrace(old(kit.angles), Pose(base, lift, wrist, wristRotate, clench))
  {
    ghost var a0, t0 := kit.angles, kit.trace;
    ghost var w0 := Writes(BASE_SERVO, Sweep(StartAngle(a0[BASE_SERVO]), base));
    ghost var w1 := Writes(LIFT_SERVO, Sweep(StartAngle(a0[LIFT_SERVO]), lift));
    ghost var w3 := Writes(WRIST_SERVO, Sweep(StartAngle(a0[WRIST_SERVO]), wrist));
    ghost var w4 := Writes(WRIST_ROTATE_SERVO, Sweep(StartAngle(a0[WRIST_ROTATE_SERVO]), wristRotate));
    ghost var w2 := Writes(CLENCH_SERVO, Sweep(StartAngle(a0[CLENCH_SERVO]), clench));
    SmoothMove(kit, BASE_SERVO, base);
    assert kit.trace == t0 + w0;
    SmoothMove(kit, LIFT_SERVO, lift);
    assert kit.trace == t0 + w0 + w1;
    SmoothMove(kit, WRIST_SERVO, wrist);
    assert kit.trace == t0 + w0 + w1 + w3;
    SmoothMove(kit, WRIST_ROTATE_SERVO, wristRotate);
    assert kit.trace == t0 + w0 + w1 + w3 + w4;
    SmoothMove(kit, CLENCH_SERVO, clench);
    assert kit.trace == t0 + w0 + w1 + w3 + w4 + w2;
    AppendAssoc(t0, w0, w1);
    AppendAssoc(t0, w0 + w1, w3);
    AppendAssoc(t0, w0 + w1 + w3, w4);
    AppendAssoc(t0, w0 + w1 + w3 + w4, w2);
  }

  /** The angles assigned to channel `ch` in `trace`, in order. */
  function OnChannel(trace: seq<Write>, ch: Channel): seq<int>
  {
    if trace == [] then []
    else (if trace[0].channel == ch then [trace[0].angle] else []) + OnChannel(trace[1..], ch)
  }

  lemma {:induction false} OnChannelAppend(a: seq<Write>, b: seq<Write>, ch: Channel)
    ensures OnChannel(a + b, ch) == OnChannel(a, ch) + OnChannel(b, ch)
  {
    if a != [] {
      assert (a + b)[0] == a[0] && (a + b)[1..] == a[1..] + b;
      OnChannelAppend(a[1..], b, ch);
    } else {
      assert a + b == b;
    }
  }

  lemma {:induction false} OnChannelWrites(c: Channel, s: seq<int>, ch: Channel)
    ensures OnChannel(Writes(c, s), ch) == if c == ch then s else []
  {
    if s != [] {
      assert Writes(c, s)[1..] == Writes(c, s[1..]);
      OnChannelWrites(c, s[1..], ch);
    }
  }

  lemma OnChannelOfFive(w0: seq<Write>, w1: seq<Write>, w3: seq<Write>, w4: seq<Write>, w2: seq<Write>, ch: Channel)
    ensures OnChannel(w0 + w1 + w3 + w4 + w2, ch) ==
      OnChannel(w0, ch) + OnChannel(w1, ch) + OnChannel(w3, ch) + OnChannel(w4, ch) + OnChannel(w2, ch)
  {
    OnChannelAppend(w0 + w1 + w3 + w4, w2, ch);
    OnChannelAppend(w0 + w1 + w3, w4, ch);
    OnChannelAppend(w0 + w1, w3, ch);
    OnChannelAppend(w0, w1, ch);
  }

  /** The channel view of five consecutive sweeps on the five arm joints. */
  lemma OnChannelOfSweeps(s0: seq<int>, s1: seq<int>, s3: seq<int>, s4: seq<int>, s2: seq<int>, ch: Channel)
    ensures OnChannel(Writes(BASE_SERVO, s0) + Writes(LIFT_SERVO, s1) + Writes(WRIST_SERVO, s3)
                      + Writes(WRIST_ROTATE_SERVO, s4) + Writes(CLENCH_SERVO, s2), ch) ==
      if ch == BASE_SERVO then s0
      else if ch == LIFT_SERVO then s1
      else if ch == WRIST_SERVO then s3
      else if ch == WRIST_ROTATE_SERVO then s4
      else if ch == CLENCH_SERVO then s2
      else []
  {
    var w0, w1, w3, w4, w2 := Writes(BASE_SERVO, s0), Writes(LIFT_SERVO, s1), Writes(WRIST_SERVO, s3),
                              Writes(WRIST_ROTATE_SERVO, s4), Writes(CLENCH_SERVO, s2);
    OnChannelOfFive(w0, w1, w3, w4, w2, ch);
    OnChannelWrites(BASE_SERVO, s0, ch);
    OnChannelWrites(LIFT_SERVO, s1, ch);
    OnChannelWrites(WRIST_SERVO, s3, ch);
    OnChannelWrites(WRIST_ROTATE_SERVO, s4, ch);
    OnChannelWrites(CLENCH_SERVO, s2, ch);
    SelectSweep(s0, s1, s3, s4, s2, ch);
  }

  lemma SelectSweep(s0: seq<int>, s1: seq<int>, s3: seq<int>, s4: seq<int>, s2: seq<int>, ch: Channel)
    ensures (if BASE_SERVO == ch then s0 else []) + (if LIFT_SERVO == ch then s1 else [])
            + (if WRIST_SERVO == ch then s3 else []) + (if WRIST_ROTATE_SERVO == ch then s4 else [])
            + (if CLENCH_SERVO == ch then s2 else []) ==
      if ch == BASE_SERVO then s0
      else if ch == LIFT_SERVO then s1
      else if ch == WRIST_SERVO then s3
      else if ch == WRIST_ROTATE_SERVO then s4
      else if ch == CLENCH_SERVO then s2
      else []
  {
    var e: seq<int> := [];
    if ch == BASE_SERVO {
      assert s0 + e + e + e + e == s0;
    } else if ch == LIFT_SERVO {
      assert e + s1 + e + e + e == s1;
    } else if ch == WRIST_SERVO {
      assert e + e + s3 + e + e == s3;
    } else if ch == WRIST_ROTATE_SERVO {
      assert e + e + e + s4 + e == s4;
    } else if ch == CLENCH_SERVO {
      assert e + e + e + e + s2 == s2;
    } else {
      assert e + e + e + e + e == e;
    }
  }

  /** Seen from any one channel, `move_arm(p)` assigns exactly that joint's
      sweep from its own reading to its target, and nothing to a channel that is
      not an arm joint. */
  lemma PoseTraceOnChannel(angles: seq<Option<int>>, p: Pose, ch: Channel)
    requires |angles| == CHANNELS
    ensures OnChannel(PoseTrace(angles, p), ch) ==
      if IsArmJoint(ch) then Sweep(StartAngle(angles[ch]), Target(p, ch)) else []
  {
    OnChannelOfSweeps(Sweep(StartAngle(angles[BASE_SERVO]), p.base),
                      Sweep(StartAngle(angles[LIFT_SERVO]), p.lift),
                      Sweep(StartAngle(angles[WRIST_SERVO]), p.wrist),
                      Sweep(StartAngle(angles[WRIST_ROTATE_SERVO]), p.wristRotate),
                      Sweep(StartAngle(angles[CLENCH_SERVO]), p.clench), ch);
  }

  /** The readings after `move_arm` is called with each pose of `poses` in turn. */
  function RunProgram(angles: seq<Option<int>>, poses: seq<Pose>): (r: seq<Option<int>>)
    requires |angles| == CHANNELS
    ensures |r| == CHANNELS
    decreases |poses|
  {
    if poses == [] then angles else RunProgram(ApplyPose(angles, poses[0]), poses[1..])
  }

  /** The assignments made by calling `move_arm` with each pose of `poses` in turn. */
  ghost function ProgramTrace(angles: seq<Option<int>>, poses: seq<Pose>): seq<Write>
    requires |angles| == CHANNELS
    decreases |poses|
  {
    if poses == [] then []
    else PoseTrace(angles, poses[0]) + ProgramTrace(ApplyPose(angles, poses[0]), poses[1..])
  }

  /** Running one more pose after a program leaves the arm as that pose does
      from where the program ended, and appends exactly that pose's sweeps. */
  lemma {:induction false} ProgramSnoc(angles: seq<Option<int>>, poses: seq<Pose>, p: Pose)
    requires |angles| == CHANNELS
    ensures RunProgram(angles, poses + [p]) == ApplyPose(RunProgram(angles, poses), p)
    ensures ProgramTrace(angles, poses + [p]) == ProgramTrace(angles, poses) + PoseTrace(RunProgram(angles, poses), p)
    decreases |poses|
  {
    if poses == [] {
      assert poses + [p] == [p] && [p][1..] == [];
      assert ProgramTrace(angles, [p]) == PoseTrace(angles, p) + [];
    } else {
      var next := ApplyPose(angles, poses[0]);
      assert (poses + [p])[0] == poses[0] && (poses + [p])[1..] == poses[1..] + [p];
      ProgramSnoc(next, poses[1..], p);
      var x, y, z := PoseTrace(angles, poses[0]), ProgramTrace(next, poses[1..]), PoseTrace(RunProgram(next, poses[1..]), p);
      assert x + (y + z) == (x + y) + z;
    }
  }

  /** A later pose overrides every arm joint an earlier one set. */
  lemma PoseOverrides(angles: seq<Option<int>>, p: Pose, q: Pose)
    requires |angles| == CHANNELS
    ensures ApplyPose(ApplyPose(angles, p), q) == ApplyPose(angles, q)
  {
    var a, b := ApplyPose(ApplyPose(angles, p), q), ApplyPose(angles, q);
    PoseReached(ApplyPose(angles, p), q);
    PoseReached(angles, p);
    PoseReached(angles, q);
    forall ch | 0 <= ch < CHANNELS ensures a[ch] == b[ch] {
      if IsArmJoint(ch) {
        assert a[ch] == Some(Target(q, ch)) == b[ch];
      }
    }
  }

  /** On completion of a non-empty program every arm joint holds the last
      pose's target, whatever came before, and other channels are untouched. */
  lemma {:induction false} ProgramEndsAtLastPose(angles: seq<Option<int>>, poses: seq<Pose>)
    requires |angles| == CHANNELS && |poses| > 0
    ensures RunProgram(angles, poses) == ApplyPose(angles, poses[|poses| - 1])
    decreases |poses|
  {
    if |poses| > 1 {
      ProgramEndsAtLastPose(ApplyPose(angles, poses[0]), poses[1..]);
      PoseOverrides(angles, poses[0], poses[|poses| - 1]);
    }
  }
}
