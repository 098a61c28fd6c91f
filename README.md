# Voice-controlled 6-DOF arm: motion and command core

A Dafny model of the hardware-independent core of `6DOF-Robotic-Arm.py`, the
control program of a voice-driven robotic arm on a 16-channel PCA9685 servo
board. It covers the four parts of that program that decide what the arm
does:

- **Joint stepping** (`smooth_move`). The servo board is a `ServoKit` class
  holding one optional angle per channel. A ghost trace records every angle
  assignment in order. `SmoothMove` reads the channel, replaces a falsy
  reading (unset or exactly 0) by 90 and then assigns every integer of
  `range(current, target + step, step)` in a `for` loop.
- **Whole-arm pose** (`move_arm`). Five `smooth_move` calls in the fixed
  order base (0), lift (1), wrist (3), wrist rotate (4), clench (2).
- **Command interpreter** (`parse_command`). A pure search over the three
  phrase templates, in the dictionary's order, with substring containment and
  the nested red/blue colour loops.
- **Dispatch** (one pass of the main loop). A command with no action is
  answered with "Sorry"; otherwise the arm runs the action's fixed list of
  `move_arm` waypoints.

Files: `wrappers.dfy` (Option), `seqs.dfy` (module `Seqs`, sequence facts), `servo_kit.dfy` (module `ServoDriver`),
`motion.dfy` (module `Motion`), `commands.dfy` (module `Commands`),
`controller.dfy` (module `Controller`).

What is proved, in the program's terms:

- A sweep is the |target − current| + 1 consecutive integers from the start
  angle to the target. It is strictly increasing upwards and strictly
  decreasing downwards, and it is the single write `target` when the joint is
  already there. It is exactly what Python's `range` yields.
- `smooth_move` changes only its own channel and leaves it at the target.
- A reading of 0 counts as unset (`angle or 90`), so, given that a channel
  reads back exactly the angle last assigned (see "Left out"), a joint set to
  0 restarts its next sweep from 90. In `pick_place` the first waypoint sets
  the clench to 0. The second waypoint, which moves the clench from 0 to 30,
  assigns it 90, 89, …, 30: a jump to 90 first. Wrist rotate is 0 in all four
  pick_place waypoints, yet each of the last three assigns it 90, 89, …, 0, a
  swing up to 90 and a sweep back down.
- `move_arm` leaves each of the five joints at its argument and every other
  channel untouched. Seen from any one channel, its writes are exactly that
  joint's own sweep.
- `parse_command` tries pick_place, then rotate, then parallel. A template
  whose fixed words all occur still yields nothing when neither colour occurs.
  The parameters do not depend on word order: both colours always give
  `{"color1": "red", "color2": "blue"}`, even for the one-colour rotate
  template. One colour gives `{"color": …}`, red checked first.
- pick_place ends at base/lift/wrist/rotate/clench = 120/30/0/0/0 after 4
  waypoints. parallel ends at 90/50/20/0/0 after 2, and rotate at 90/60/30/90/0
  after 3. Any non-empty waypoint list ends at its last pose, whatever came
  before.
- The `elif "exit" in command` branch is dead. Every command that yields an
  action takes one of the three motion branches, and every other command has
  already been answered with "Sorry". Saying "exit" is itself answered with
  "Sorry".

Facts about the program that the model keeps:

- There are no presets, no exit action reached by speech and no error for
  an out-of-range angle.
- Colour binding is deterministic: whenever both colours occur, red is
  `color1` and blue is `color2`, whatever their order in the utterance.
- The one-colour rotate template also accepts two colours and then yields
  `color1` and `color2`.
- The two-colour templates also accept a single colour: pick_place's words
  with only "red" give pick_place with `{"color": "red"}`
  (6DOF-Robotic-Arm.py:92-94).
- A reading of 0, not only an unset one, is treated as 90.

## Model

| member | source | states |
|---|---|---|
| ServoDriver.ServoKit.constructor | 6DOF-Robotic-Arm.py:15 | a fresh 16-channel board reads every channel as unset and has made no assignment |
| ServoDriver.ServoKit.Angle | 6DOF-Robotic-Arm.py:52 | reading a channel gives its angle, which when set is within 0..180 |
| ServoDriver.ServoKit.SetAngle | 6DOF-Robotic-Arm.py:55 | assigning a channel's angle changes that channel only and appends the assignment to the trace |
| Motion.StartAngle | 6DOF-Robotic-Arm.py:52 | `angle or 90`: an unset reading and a reading of 0 both start the sweep at 90; any other reading is kept; the start is never 0 |
| Motion.RangeShape | 6DOF-Robotic-Arm.py:54 | `range(start, stop, ±1)` yields max(0, ±(stop − start)) values, the k-th being start ± k |
| Motion.SweepIsRange | 6DOF-Robotic-Arm.py:53-54 | the loop's `range(current, target + step, step)` with `step = 1 if target > current else -1` is exactly the sweep from current to target |
| Motion.SweepShape | 6DOF-Robotic-Arm.py:53-55 | a sweep has abs(target − current) + 1 elements, starts at current, ends at target, is strictly increasing when target > current, strictly decreasing when target < current, and is the single value target when they are equal |
| Motion.SweepInRange | 6DOF-Robotic-Arm.py:54-55 | every angle of a sweep between two accepted angles is itself accepted by the board, and the last one is the target |
| Motion.SmoothMove | 6DOF-Robotic-Arm.py:51-56 | only channel `servo_index` changes and it ends at the target; the trace gains exactly the sweep from the falsy-as-90 start to the target, in order |
| Motion.ApplyPose | 6DOF-Robotic-Arm.py:59-64 | a pose of accepted angles keeps all 16 channel readings accepted by the board |
| Motion.PoseReached | 6DOF-Robotic-Arm.py:59-64 | after a pose every arm joint holds its target and every other channel keeps its reading |
| Motion.MoveArm | 6DOF-Robotic-Arm.py:59-65 | channels end as the pose says; the trace gains five complete sweeps in the order 0, 1, 3, 4, 2, each starting from that joint's own reading |
| Motion.PoseTraceOnChannel | 6DOF-Robotic-Arm.py:59-64 | the writes one `move_arm` makes to any single channel are exactly that joint's sweep to its target, and none for a channel outside the arm |
| Motion.ProgramSnoc | 6DOF-Robotic-Arm.py:127-148 | running one more waypoint after a list leaves the channels as that pose does from where the list ended, and appends exactly that pose's sweeps to the trace |
| Motion.PoseOverrides | 6DOF-Robotic-Arm.py:127-148 | a later pose overrides every joint an earlier one set, so two poses in a row end as the second alone |
| Motion.ProgramEndsAtLastPose | 6DOF-Robotic-Arm.py:127-148 | running a non-empty list of poses leaves the channels as the last pose alone would |
| Commands.TemplateWords | 6DOF-Robotic-Arm.py:80-86 | the fixed words of the three templates are pick/up/and/put/over, rotate/90/degrees and place/parallel/to |
| Commands.ColorParamsSpec | 6DOF-Robotic-Arm.py:88-94 | both colours present always give color1 = red, color2 = blue; only red gives color = red; only blue gives color = blue; neither gives no parameters |
| Commands.ParseFrom | 6DOF-Robotic-Arm.py:85-95 | the template search returns `{}` with no action, and with an action returns the colour parameters of one of the remaining templates' actions |
| Commands.ParseCommand | 6DOF-Robotic-Arm.py:79-95 | the action is None or one of pick_place, rotate, parallel |
| Commands.ParseCommandSpec | 6DOF-Robotic-Arm.py:79-95 | the action is the first of pick_place, rotate, parallel whose fixed words all occur, provided a colour occurs, else None; None comes with `{}`, an action with the parameters the colours determine |
| Commands.ParsePickRedOverBlue | 6DOF-Robotic-Arm.py:81 | "pick up red and put over blue" parses to pick_place with color1 = red, color2 = blue |
| Commands.ParsePickBlueOverRed | 6DOF-Robotic-Arm.py:88-91 | "pick up blue and put over red" parses to the same parameters: the binding ignores word order |
| Controller.HandleCommand | 6DOF-Robotic-Arm.py:117-153 | no action: "Sorry" and no motion; an action: it is announced with its parameters and the arm runs that action's waypoints, channels and trace as the waypoint list determines |
| Controller.PickPlace | 6DOF-Robotic-Arm.py:127-135 | the pick_place branch drives the arm through its four waypoints in order |
| Controller.Parallel | 6DOF-Robotic-Arm.py:137-141 | the parallel branch drives the arm through its two waypoints in order |
| Controller.Rotate | 6DOF-Robotic-Arm.py:143-149 | the rotate branch drives the arm through its three waypoints in order |
| Controller.FinalPoses | 6DOF-Robotic-Arm.py:127-148 | pick_place has 4 waypoints and ends at 120/30/0/0/0, parallel has 2 and ends at 90/50/20/0/0, rotate has 3 and ends at 90/60/30/90/0 |
| Controller.ExitBranchUnreachable | 6DOF-Robotic-Arm.py:118-122 | every command that yields an action has a non-empty waypoint list, so the exit branch after the three motion branches is never reached |
| Controller.SpokenExitNotUnderstood | 6DOF-Robotic-Arm.py:118-122 | the utterance "exit" yields no action and empty parameters |
| Controller.PickPlaceClenchRestartsAtHome | 6DOF-Robotic-Arm.py:52 | after pick_place's first waypoint the clench reads 0, yet the second waypoint's clench writes are the 61 values 90 down to 30 |
| Controller.PickPlaceWristRotateResweeps | 6DOF-Robotic-Arm.py:127-135 | wrist rotate is 0 in every pick_place waypoint, yet each waypoint after the first writes it the 91 values 90 down to 0 |

## Left out

- Speech capture and recognition (`get_command`, 6DOF-Robotic-Arm.py:68-76) is blocking audio I/O through a foreign library. The recognised, lower-cased utterance is the `command` parameter of `HandleCommand`.
- Speech output (`speak`) and `debug_log` produce output only. Their only trace in the model is the `Reply` value.
- `detect_cubes` (YOLO and OpenCV) is an opaque library call. Its result is never used to move the arm.
- `time.sleep` delays are timing only.
- Angles are integers. The board's real reading is a float derived from the pulse width, and `int()` truncates it. The model reads back exactly the last integer assigned, so the restart from 90 after a write of 0 (`PickPlaceClenchRestartsAtHome`, `PickPlaceWristRotateResweeps`) holds only when the board reads 0 back as exactly 0.
- The board rejects angles outside 0..180 inside the ServoKit library, which is not part of this model. `SmoothMove`, `MoveArm` and `SetAngle` therefore require targets in 0..180 instead of modelling that error.
- Hardware setup and cleanup (ServoKit, GPIO, audio stream, camera) are left out, as are the endless `while True` loop and its `break`. One loop iteration after recognition is modelled.
- Templates are given already split into fixed words and placeholders. The string `replace(...).split()` that derives the words is not modelled; `TemplateWords` states the words it yields.
- Presets (save/load) are not modelled because the program has none.
