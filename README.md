# Keyboard interface of the Stanford quadruped controller, in Dafny

This project models the keyboard/joystick interface of a legged-robot
controller. In each control cycle the interface receives one operator
message, or nothing within the transport's timeout. It turns that into a
motion command for the gait controller.

- **Rising-edge detection.** The gait (`B`), hop (`X`) and activate (`V`)
  buttons arrive as levels. A trot, hop or activate event fires only when
  the button is at 1 now and was last seen at 0.
- **Memory update.** All three comparisons use the memory as it was before
  the cycle. The memory is then overwritten with the new levels. A timeout
  returns the default command and leaves the memory unchanged.
- **Scaling and integration.**
  - Forward velocity is `W` times the forward maximum.
  - Lateral velocity is `E` times the negated lateral maximum.
  - Yaw rate is `R` times the negated yaw maximum.
  - With `dt = 1 / message_rate`:
    - pitch is the current pitch plus `dt` times the filtered, deadbanded pitch target;
    - height is the current height minus `dt * z_speed * R`;
    - roll is the current roll plus `dt * roll_speed * -U`.
  - Yaw and height both read channel `R`. This is how the code is written,
    and the model keeps it.

Files:

- `types.dfy` (module `Types`): the message, the `Timeout | Received`
  input, the posture, the configuration and the command.
- `edge_detection.dfy` (module `EdgeDetection`): the toggle memory as a
  value, the per-cycle functions `Detect`, `Levels`, `Step` and `EventsOn`,
  and their behaviour over traces of cycles (`Fired`, `Final`).
  - `LastSeen` is a backward-scanning reference definition of the memory,
    used to check `Final`.
- `setpoints.dfy` (module `Setpoints`): the continuous part of the command,
  as pure functions, with lemmas on bounds, directions and step sizes.
  - The deadband and the clipped first-order filter are defined in
    `src/Utilities.py`, which is not part of this model.
  - They are therefore parameters: arbitrary total functions `Deadband` and
    `Filter`. Any fact that depends on their values takes that fact as a
    `requires`.
- `keyboard_interface.dfy` (module `Keyboard`): the class
  `KeyboardInterface`, with its three toggle-memory fields, its constructor
  and `GetCommand`. `GetCommand` mutates the fields exactly as the source
  does, and its contract ties the new state and the command to the
  functions above.
  - `RunTrace` drives an interface through any trace of inputs. It proves
    that the object's events and memory are `Fired` and `Final` of that
    trace, so the trace lemmas hold of `KeyboardInterface` itself.
  - Two client methods drive a fresh object through press/hold and
    press/timeout/hold sequences.

Inputs the code does not validate are not validated by the model either:

- A non-positive message rate is not rejected. The code fails only on 0,
  with a division error, so `GetCommand` requires only `messageRate != 0`,
  and a negative rate gives a negative `dt`.
- Axis values are not range-checked by the code or by the model. The bound
  lemmas take [-1, 1] as a hypothesis.

## Model

| member | source | states |
|---|---|---|
| `Keyboard.KeyboardInterface.constructor` | src/KeyboardInterface.py:44-51 | the configuration is stored and all three toggle memories start at 0 |
| `Keyboard.KeyboardInterface.GetCommand` | src/KeyboardInterface.py:58-112 | on timeout: returns the default command, no events, memory unchanged; otherwise: events are rising edges against the pre-call memory, memory becomes (B, X, V), and velocity, yaw, pitch, height and roll are the setpoint functions of the message, posture and configuration |
| `Keyboard.RunTrace` | src/KeyboardInterface.py:58-112 | calling `get_command` once per input of a trace yields, cycle by cycle, the events `Fired` gives for the trace from the object's starting memory, and leaves the memory `Final` gives |
| `Keyboard.PressAndHoldAfterConstruction` | src/KeyboardInterface.py:48-78 | on a fresh interface, a first message with B = 1 fires the trot event and a second B = 1 does not |
| `Keyboard.TimeoutKeepsMemory` | src/KeyboardInterface.py:65-112 | a timeout between two B = 1 messages yields the default command with no events, and it does not re-arm the button |
| `EdgeDetection.Fired` | src/KeyboardInterface.py:65-78 | a trace of cycles yields exactly one event record per cycle |
| `EdgeDetection.FinalAppend` | src/KeyboardInterface.py:76-78 | running one more cycle applies exactly that cycle's memory update to the memory left by the trace |
| `EdgeDetection.FinalIsLastSeen` | src/KeyboardInterface.py:76-78 | after any trace, the memory equals the levels of the most recent received message, or the starting memory if every cycle timed out |
| `EdgeDetection.FiredSplit` | src/KeyboardInterface.py:65-78 | running a concatenated trace equals running the first part, then the second part from the memory the first left |
| `EdgeDetection.FiredAt` | src/KeyboardInterface.py:65-73 | the events of cycle i are that cycle's input compared with the levels of the latest message received before i; a timeout cycle has no events |
| `EdgeDetection.TimeoutIsTransparent` | src/KeyboardInterface.py:109-112 | inserting a timeout anywhere in a trace inserts one no-event entry there and changes neither the other cycles' events nor the final memory |
| `EdgeDetection.LastSeenWhileHeld` | src/KeyboardInterface.py:65-76 | if every received message has B = 1 and at least one arrived, the remembered gait level is 1 |
| `EdgeDetection.HeldButtonFiresAtMostOnce` | src/KeyboardInterface.py:65-76 | while B is held at 1 (with timeouts in between allowed), no two cycles both fire the trot event |
| `EdgeDetection.HoldFiresOnFirstCycleOnly` | src/KeyboardInterface.py:65-76 | from a released gait memory, B held at 1 on consecutive messages fires the trot event on exactly the first cycle |
| `EdgeDetection.PressReleasePressFiresTwice` | src/KeyboardInterface.py:65-76 | from a released gait memory, B = 1, 0, 1 fires the trot event on the first and third cycles and not the second |
| `EdgeDetection.FirstPressFires` | src/KeyboardInterface.py:48-73 | from the initial memory, each event fires exactly when its button is at 1 |
| `Setpoints.MessageDt` | src/KeyboardInterface.py:86-87 | dt is the reciprocal of the message rate (dt * rate = 1) and is positive exactly when the rate is |
| `Setpoints.ForwardVelocityWithinLimits` | src/KeyboardInterface.py:81 | for W in [-1, 1], forward velocity lies within plus or minus max_x_velocity and has W's sign |
| `Setpoints.LateralVelocityWithinLimits` | src/KeyboardInterface.py:82 | for E in [-1, 1], lateral velocity lies within plus or minus max_y_velocity and has the sign opposite to E |
| `Setpoints.YawWithinLimits` | src/KeyboardInterface.py:84 | for R in [-1, 1], yaw rate lies within plus or minus max_yaw_rate and is negative exactly when R is positive |
| `Setpoints.HeightStep` | src/KeyboardInterface.py:101-102 | for R in [-1, 1], one cycle moves the height by at most z_speed * dt, and a positive R lowers it |
| `Setpoints.RollStep` | src/KeyboardInterface.py:104-105 | for U in [-1, 1], one cycle moves the roll by at most roll_speed * dt, and a positive U lowers it |
| `Setpoints.PitchAtEquilibrium` | src/KeyboardInterface.py:89-99 | the pitch setpoint equals the current pitch exactly when the filter returns a zero rate |
| `Setpoints.PitchStep` | src/KeyboardInterface.py:89-99 | if the filter's rate is within plus or minus max_pitch_rate, one cycle moves the pitch by at most max_pitch_rate * dt |
| `Setpoints.YawAndHeightShareChannel` | src/KeyboardInterface.py:84-102 | with positive gains, a negative yaw rate always comes with a lowered height and a positive one with a raised height, because both read R |
| `Setpoints.HeightScenario` | src/KeyboardInterface.py:86-102 | at 50 Hz, R = 1 and z_speed = 0.05 take height 0.1 to 0.099 |
| `Setpoints.PitchScenario` | src/KeyboardInterface.py:86-99 | at 50 Hz, a deadbanded target of 0.45 and a filter rate of 2.0 take pitch 0 to 0.04 |

## Left out

- UDP transport: building the subscriber and the publisher, and the
  blocking `get()` with its 0.3 s timeout, are network I/O. Their outcome is
  the `Input` value, `Timeout` or `Received(msg)`.
- `set_color` and the `do_print` message: both only print. The send in
  `set_color` is commented out.
- The `previous_state` and `message_rate = 50` fields: `get_command` never
  reads them.
- `deadband` and `clipped_first_order_filter`: `src/Utilities.py` is not
  part of this model. Both are parameters, so no property of theirs (dead
  zone, clipping bound) is assumed or proved. `PitchStep` and
  `PitchScenario` take what they need about the filter as hypotheses.
- `Command`, `State` and `BehaviorState` internals: `src/Command.py` and
  `src/State.py` are not part of this model.
  - `Command()` is the abstract value `Default`. The command fields that
    `get_command` never assigns are not modelled.
  - `Flags` takes `Default` to carry no events. This is an assumption
    about `Command()` in `src/Command.py`.
- Missing message keys: a `Message` has every channel, so the model has no
  `KeyError`. In the source a missing `B`, `X` or `V` raises before any
  memory is written.
- `GetCommand`: does not model the two uncaught errors that the source
  raises after the toggle memory has been overwritten at
  src/KeyboardInterface.py:76-78:
  - a `KeyError` for a missing `W`, `E`, `R`, `T`, `U` or `message_rate`
    key (lines 81-104);
  - the division error for `message_rate == 0` (line 87), which the model
    excludes with `requires messageRate != 0`.

  A caller that caught either error would see the memory updated while no
  command was returned. The model does not capture that partial update.
- Floating point: values are `real`, so rounding is not modelled.
  `np.array([x_vel, y_vel])` is a pair.
- Button levels are read as `int`. A level other than 0 or 1 is stored but
  never fires, as in the code.
- `src/RecordAction.py` (the data recorder): file output, wall-clock time
  and numpy reshaping. It is not part of the core.
