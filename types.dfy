/**
 * Values exchanged by the keyboard interface of the quadruped controller:
 * the operator message received each control cycle, the robot posture it
 * is integrated against, the configuration it is scaled by, and the motion
 * command it produces.
 */
module Types {

  /** One operator message. Field names are the message's channel keys. */
  datatype Message = Message(
    B: int,            // gait toggle button level
    X: int,            // hop toggle button level
    V: int,            // activate toggle button level
    W: real,           // forward axis
    E: real,           // lateral axis
    R: real,           // yaw axis, also read for height
    T: real,           // pitch axis
    U: real,           // roll axis
    messageRate: real  // claimed sampling rate in Hz
  )

  /** What the transport delivers in one cycle. */
  datatype Input = Timeout | Received(msg: Message)

  /** The robot body posture at the start of the cycle (read, never written). */
  datatype Posture = Posture(pitch: real, roll: real, height: real)

  /** The configuration options the command synthesis reads. */
  datatype Config = Config(
    maxXVelocity: real,
    maxYVelocity: real,
    maxYawRate: real,
    maxPitch: real,
    pitchDeadband: real,
    maxPitchRate: real,
    pitchTimeConstant: real,
    zSpeed: real,
    rollSpeed: real
  )

  /**
   * A motion command. `Default` is the freshly constructed command, whose
   * field values are not part of this model; `Motion` is one whose fields
   * have all been assigned by the keyboard interface.
   */
  datatype Command =
    | Default
    | Motion(
        trotEvent: bool,
        hopEvent: bool,
        activateEvent: bool,
        horizontalVelocity: (real, real),
        yawRate: real,
        pitch: real,
        height: real,
        roll: real
      )
}
