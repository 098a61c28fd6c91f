/** One pass of the main loop: interpret the recognised utterance, then drive
    the arm through the fixed waypoint list of the action it names. */
module Controller {

  import opened Wrappers
  import opened ServoDriver
  import opened Motion
  import opened Commands
  import opened Seqs

  /** What the loop announces: it did not understand, or which action it runs. */
  datatype Reply = Sorry | Executing(action: string, params: Params)

  /** The poses each action's branch passes to `move_arm`, in order. */
  function Waypoints(action: string): seq<Pose>
  {
    if action == "pick_place" then
      [Pose(90, 60, 30, 0, 0), Pose(90, 60, 30, 0, 30), Pose(120, 30, 0, 0, 30), Pose(120, 30, 0, 0, 0)]
    else if action == "parallel" then
      [Pose(90, 50, 20, 0, 30), Pose(90, 50, 20, 0, 0)]
    else if action == "rotate" then
      [Pose(90, 60, 30, 0, 30), Pose(90, 60, 30, 90, 30), Pose(90, 60, 30, 90, 0)]
    else
      []
  }

  /** One iteration of `while True`, from the parsed utterance on: a command
      with no action is answered with Sorry and moves nothing; otherwise the
      arm runs the action's waypoints, each joint ending at the last one. */
  method HandleCommand(kit: ServoKit, command: string) returns (reply: Reply)
    requires kit.Valid()
    modifies kit
    ensures kit.Valid()
    ensures ParseCommand(command).0.None? ==>
      reply == Sorry && kit.angles == old(kit.angles) && kit.trace == old(kit.trace)
    ensures ParseCommand(command).0.Some? ==>
      && reply == Executing(ParseCommand(command).0.value, ParseCommand(command).1)
      && kit.angles == RunProgram(old(kit.angles), Waypoints(ParseCommand(command).0.value))
      && kit.trace == old(kit.trace) + ProgramTrace(old(kit.angles), Waypoints(ParseCommand(command).0.value))
  {
    var (action, params) := ParseCommand(command);
    if action.None? {
      reply := Sorry;
      return;
    }
    reply := Executing(action.value, params);
    if action.value == "pick_place" {
      PickPlace(kit);
    } else if action.value == "parallel" {
      Parallel(kit);
    } else if action.value == "rotate" {
      Rotate(kit);
    } else if Contains(command, "exit") {
      // The shutdown branch: every action parse_command yields is handled above.
      assert false;
    }
  }

  /** The `pick_place` branch: four `move_arm` calls. */
  method PickPlace(kit: ServoKit)
    requires kit.Valid()
    modifies kit
    ensures kit.Valid()
    ensures kit.angles == RunProgram(old(kit.angles), Waypoints("pick_place"))
    ensures kit.trace == old(kit.trace) + ProgramTrace(old(kit.angles), Waypoints("pick_place"))
  {
    ghost var w, a0, t0 := Waypoints("pick_place"), kit.angles, kit.trace;
    MoveArm(kit, 90, 60, 30, 0, 0);
    PrefixSnoc(w, 0);
    Extend(a0, t0, w[..0], w[0], kit.angles, kit.trace);
    MoveArm(kit, 90, 60, 30, 0, 30);
    PrefixSnoc(w, 1);
    Extend(a0, t0, w[..1], w[1], kit.angles, kit.trace);
    MoveArm(kit, 120, 30, 0, 0, 30);
    PrefixSnoc(w, 2);
    Extend(a0, t0, w[..2], w[2], kit.angles, kit.trace);
    MoveArm(kit, 120, 30, 0, 0, 0);
    PrefixSnoc(w, 3);
    Extend(a0, t0, w[..3], w[3], kit.angles, kit.trace);
    assert w[..|w|] == w;
  }


  /** The `parallel` branch: two `move_arm` calls. */
  method Parallel(kit: ServoKit)
    requires kit.Valid()
    modifies kit
    ensures kit.Valid()
    ensures kit.angles == RunProgram(old(kit.angles), Waypoints("parallel"))
    ensures kit.trace == old(kit.trace) + ProgramTrace(old(kit.angles), Waypoints("parallel"))
  {
    ghost var w, a0, t0 := Waypoints("parallel"), kit.angles, kit.trace;
    MoveArm(kit, 90, 50, 20, 0, 30);
    PrefixSnoc(w, 0);
    Extend(a0, t0, w[..0], w[0], kit.angles, kit.trace);
    MoveArm(kit, 90, 50, 20, 0, 0);
    PrefixSnoc(w, 1);
    Extend(a0, t0, w[..1], w[1], kit.angles, kit.trace);
    assert w[..|w|] == w;
  }


  /** The `rotate` branch: three `move_arm` calls. */
  method Rotate(kit: ServoKit)
    requires kit.Valid()
    modifies kit
    ensures kit.Valid()
    ensures kit.angles == RunProgram(old(kit.angles), Waypoints("rotate"))
    ensures kit.trace == old(kit.trace) + ProgramTrace(old(kit.angles), Waypoints("rotate"))
  {
    ghost var w, a0, t0 := Waypoints("rotate"), kit.angles, kit.trace;
    MoveArm(kit, 90, 60, 30, 0, 30);
    PrefixSnoc(w, 0);
    Extend(a0, t0, w[..0], w[0], kit.angles, kit.trace);
    MoveArm(kit, 90, 60, 30, 90, 30);
    PrefixSnoc(w, 1);
    Extend(a0, t0, w[..1], w[1], kit.angles, kit.trace);
    MoveArm(kit, 90, 60, 30, 90, 0);
    PrefixSnoc(w, 2);
    Extend(a0, t0, w[..2], w[2], kit.angles, kit.trace);
    assert w[..|w|] == w;
  }


  /** After `move_arm(p)` has followed the poses `done`, the arm has run the
      program `done + [p]`. */
  lemma Extend(a0: seq<Option<int>>, t0: seq<Write>, done: seq<Pose>, p: Pose,
               angles: seq<Option<int>>, trace: seq<Write>)
    requires |a0| == CHANNELS
    requires angles == ApplyPose(RunProgram(a0, done), p)
    requires trace == t0 + ProgramTrace(a0, done) + PoseTrace(RunProgram(a0, done), p)
    ensures angles == RunProgram(a0, done + [p])
    ensures trace == t0 + ProgramTrace(a0, done + [p])
  {
    ProgramSnoc(a0, done, p);
    AppendAssoc(t0, ProgramTrace(a0, done), PoseTrace(RunProgram(a0, done), p));
  }

  /** Where each action leaves the arm: pick_place after 4 waypoints at
      base/lift/wrist/rotate/clench = 120/30/0/0/0, parallel after 2 at
      90/50/20/0/0, rotate after 3 at 90/60/30/90/0; other channels untouched. */
  lemma FinalPoses(angles: seq<Option<int>>)
    requires |angles| == CHANNELS
    ensures |Waypoints("pick_place")| == 4
    ensures RunProgram(angles, Waypoints("pick_place")) == ApplyPose(angles, Pose(120, 30, 0, 0, 0))
    ensures |Waypoints("parallel")| == 2
    ensures RunProgram(angles, Waypoints("parallel")) == ApplyPose(angles, Pose(90, 50, 20, 0, 0))
    ensures |Waypoints("rotate")| == 3
    ensures RunProgram(angles, Waypoints("rotate")) == ApplyPose(angles, Pose(90, 60, 30, 90, 0))
  {
    ProgramEndsAtLastPose(angles, Waypoints("pick_place"));
    ProgramEndsAtLastPose(angles, Waypoints("parallel"));
    ProgramEndsAtLastPose(angles, Waypoints("rotate"));
  }

  /** The fact behind the dead `elif "exit" in command` branch, stated on the
      waypoints: every command that yields an action has a non-empty waypoint
      list of its own, so one of the three motion branches runs. The branch
      itself is proved dead by the `assert false` in `HandleCommand`. */
  lemma ExitBranchUnreachable(command: string)
    ensures ParseCommand(command).0.Some? ==> |Waypoints(ParseCommand(command).0.value)| > 0
  {
  }

  lemma Absent(text: string, word: string)
    requires |word| > 0 && word[0] !in text
    ensures !Contains(text, word)
  {
    forall i: nat | i <= |text|
      ensures !OccursAt(text, word, i)
    {
      if i + |word| <= |text| {
        assert text[i..i + |word|][0] == text[i];
      }
    }
  }

  /** Saying "exit" does not stop the arm: it names no colour, so it is answered
      with Sorry like any other command that is not understood. */
  lemma SpokenExitNotUnderstood()
    ensures ParseCommand("exit") == (None, map[])
  {
    Absent("exit", "red");
    Absent("exit", "blue");
    ParseCommandSpec("exit");
  }

  /** Because a reading of 0 counts as unset, pick_place's second waypoint does
      not move the clench from 0 to 30 one degree at a time: it assigns
      90, 89, ..., 30, a jump to 90 followed by 61 one-degree values. */
  lemma PickPlaceClenchRestartsAtHome(angles: seq<Option<int>>)
    requires |angles| == CHANNELS
    ensures ApplyPose(angles, Waypoints("pick_place")[0])[CLENCH_SERVO] == Some(0)
    ensures OnChannel(PoseTrace(ApplyPose(angles, Waypoints("pick_place")[0]), Waypoints("pick_place")[1]), CLENCH_SERVO)
            == Sweep(HOME_ANGLE, 30)
    ensures |Sweep(HOME_ANGLE, 30)| == 61 && Sweep(HOME_ANGLE, 30)[0] == 90
  {
    var first := ApplyPose(angles, Waypoints("pick_place")[0]);
    PoseReached(angles, Waypoints("pick_place")[0]);
    PoseTraceOnChannel(first, Waypoints("pick_place")[1], CLENCH_SERVO);
    SweepShape(HOME_ANGLE, 30);
  }

  /** Wrist rotate is 0 in all four pick_place poses, yet every waypoint after
      the first starts it from 90 again, because the reading 0 counts as unset:
      each one assigns 90, 89, ..., 0 to it. */
  lemma PickPlaceWristRotateResweeps(angles: seq<Option<int>>, i: nat)
    requires |angles| == CHANNELS && 1 <= i < |Waypoints("pick_place")|
    ensures OnChannel(PoseTrace(RunProgram(angles, Waypoints("pick_place")[..i]), Waypoints("pick_place")[i]),
                      WRIST_ROTATE_SERVO)
            == Sweep(HOME_ANGLE, 0)
    ensures |Sweep(HOME_ANGLE, 0)| == 91 && Sweep(HOME_ANGLE, 0)[0] == 90 && Sweep(HOME_ANGLE, 0)[90] == 0
  {
    var w := Waypoints("pick_place");
    var done := w[..i];
    ProgramEndsAtLastPose(angles, done);
    assert done[|done| - 1] == w[i - 1];
    PoseReached(angles, w[i - 1]);
    assert Target(w[i - 1], WRIST_ROTATE_SERVO) == 0;
    PoseTraceOnChannel(RunProgram(angles, done), w[i], WRIST_ROTATE_SERVO);
    assert Target(w[i], WRIST_ROTATE_SERVO) == 0;
    SweepShape(HOME_ANGLE, 0);
  }
}
