/**
 * The continuous part of a motion command: velocities and yaw rate scaled
 * from the operator's axes, and pitch, roll and height setpoints integrated
 * by one explicit Euler step from the current posture.
 *
 * The deadband and the clipped first-order filter are the controller's
 * utility functions. Their definitions are not part of this model, so they
 * are taken as arbitrary total functions, and every fact that depends on
 * what they return says so in its requires clause.
 */
module Setpoints {
  import opened Types

  /** deadband(value, width) */
  type Deadband = (real, real) -> real

  /** clipped_first_order_filter(current, target, max_rate, time_constant) */
  type Filter = (real, real, real, real) -> real

  /** Forward velocity from W, lateral velocity from E with its sign inverted. */
  function HorizontalVelocity(msg: Message, config: Config): (real, real)
  {
    (msg.W * config.maxXVelocity, msg.E * -config.maxYVelocity)
  }

  /** Yaw rate from R with its sign inverted. */
  function YawRate(msg: Message, config: Config): real
  {
    msg.R * -config.maxYawRate
  }

  /** The integration time step, the period of the claimed message rate. */
  function MessageDt(msg: Message): (dt: real)
    requires msg.messageRate != 0.0
    ensures dt * msg.messageRate == 1.0
    ensures dt > 0.0 <==> msg.messageRate > 0.0
  {
    1.0 / msg.messageRate
  }

  /** The pitch rate: the deadbanded pitch target passed through the filter. */
  function PitchRate(state: Posture, msg: Message, config: Config,
                     deadband: Deadband, filter: Filter): real
  {
    filter(state.pitch,
           deadband(msg.T * config.maxPitch, config.pitchDeadband),
           config.maxPitchRate,
           config.pitchTimeConstant)
  }

  function PitchSetpoint(state: Posture, msg: Message, config: Config,
                         deadband: Deadband, filter: Filter): real
    requires msg.messageRate != 0.0
  {
    state.pitch + MessageDt(msg) * PitchRate(state, msg, config, deadband, filter)
  }

  /** Height is driven by the R channel, downwards when R is positive. */
  function HeightSetpoint(state: Posture, msg: Message, config: Config): real
    requires msg.messageRate != 0.0
  {
    state.height - MessageDt(msg) * config.zSpeed * msg.R
  }

  /** Roll is driven by the negated U channel. */
  function RollSetpoint(state: Posture, msg: Message, config: Config): real
    requires msg.messageRate != 0.0
  {
    state.roll + MessageDt(msg) * config.rollSpeed * -msg.U
  }

  /** W in [-1, 1] commands at most max_x_velocity, in W's direction. */
  lemma ForwardVelocityWithinLimits(msg: Message, config: Config)
    requires -1.0 <= msg.W <= 1.0 && config.maxXVelocity >= 0.0
    ensures -config.maxXVelocity <= HorizontalVelocity(msg, config).0 <= config.maxXVelocity
    ensures config.maxXVelocity > 0.0 ==> (HorizontalVelocity(msg, config).0 > 0.0 <==> msg.W > 0.0)
  {
    BoundedScale(msg.W, config.maxXVelocity);
    if config.maxXVelocity > 0.0 {
      SignOfProduct(msg.W, config.maxXVelocity);
    }
    assert HorizontalVelocity(msg, config).0 == msg.W * config.maxXVelocity;
  }

  /** E in [-1, 1] commands at most max_y_velocity, against E's direction. */
  lemma LateralVelocityWithinLimits(msg: Message, config: Config)
    requires -1.0 <= msg.E <= 1.0 && config.maxYVelocity >= 0.0
    ensures -config.maxYVelocity <= HorizontalVelocity(msg, config).1 <= config.maxYVelocity
    ensures config.maxYVelocity > 0.0 ==> (HorizontalVelocity(msg, config).1 > 0.0 <==> msg.E < 0.0)
  {
    BoundedScale(msg.E, config.maxYVelocity);
    if config.maxYVelocity > 0.0 {
      SignOfProduct(msg.E, config.maxYVelocity);
    }
    assert HorizontalVelocity(msg, config).1 == msg.E * -config.maxYVelocity;
  }

  /** Yaw rate is bounded by the maximum and opposes R. */
  lemma YawWithinLimits(msg: Message, config: Config)
    requires -1.0 <= msg.R <= 1.0 && config.maxYawRate >= 0.0
    ensures -config.maxYawRate <= YawRate(msg, config) <= config.maxYawRate
    ensures config.maxYawRate > 0.0 ==> (YawRate(msg, config) < 0.0 <==> msg.R > 0.0)
  {
    BoundedScale(msg.R, config.maxYawRate);
    if config.maxYawRate > 0.0 {
      SignOfProduct(msg.R, config.maxYawRate);
    }
    assert YawRate(msg, config) == msg.R * -config.maxYawRate;
  }

  /**
   * One cycle moves the height by at most z_speed times the time step, and
   * a positive R lowers it.
   */
  lemma HeightStep(state: Posture, msg: Message, config: Config)
    requires msg.messageRate > 0.0
    requires -1.0 <= msg.R <= 1.0 && config.zSpeed >= 0.0
    ensures var dh := HeightSetpoint(state, msg, config) - state.height;
      -config.zSpeed * MessageDt(msg) <= dh <= config.zSpeed * MessageDt(msg)
    ensures config.zSpeed > 0.0 ==> (HeightSetpoint(state, msg, config) < state.height <==> msg.R > 0.0)
  {
    var dt := MessageDt(msg);
    var rate := dt * config.zSpeed;
    assert rate == config.zSpeed * dt;
    BoundedScale(msg.R, rate);
    assert HeightSetpoint(state, msg, config) - state.height == -(msg.R * rate);
    if config.zSpeed > 0.0 {
      SignOfProduct(msg.R, rate);
    }
  }

  /**
   * One cycle moves the roll by at most roll_speed times the time step, and
   * a positive U lowers it.
   */
  lemma RollStep(state: Posture, msg: Message, config: Config)
    requires msg.messageRate > 0.0
    requires -1.0 <= msg.U <= 1.0 && config.rollSpeed >= 0.0
    ensures var dr := RollSetpoint(state, msg, config) - state.roll;
      -config.rollSpeed * MessageDt(msg) <= dr <= config.rollSpeed * MessageDt(msg)
    ensures config.rollSpeed > 0.0 ==> (RollSetpoint(state, msg, config) < state.roll <==> msg.U > 0.0)
  {
    var dt := MessageDt(msg);
    var rate := dt * config.rollSpeed;
    assert rate == config.rollSpeed * dt;
    BoundedScale(msg.U, rate);
    assert RollSetpoint(state, msg, config) - state.roll == -(msg.U * rate);
    if config.rollSpeed > 0.0 {
      SignOfProduct(msg.U, rate);
    }
  }

  /** A filter at rest leaves the pitch where it is. */
  lemma PitchAtEquilibrium(state: Posture, msg: Message, config: Config,
                           deadband: Deadband, filter: Filter)
    requires msg.messageRate != 0.0
    ensures PitchSetpoint(state, msg, config, deadband, filter) == state.pitch
        <==> PitchRate(state, msg, config, deadband, filter) == 0.0
  {
    var dt := MessageDt(msg);
    var rate := PitchRate(state, msg, config, deadband, filter);
    assert dt != 0.0;
    if dt * rate == 0.0 {
      assert rate == 0.0;
    }
  }

  /**
   * If the filter keeps its rate within max_pitch_rate, one cycle moves the
   * pitch setpoint by at most max_pitch_rate times the time step.
   */
  lemma PitchStep(state: Posture, msg: Message, config: Config,
                  deadband: Deadband, filter: Filter)
    requires msg.messageRate > 0.0
    requires var rate := PitchRate(state, msg, config, deadband, filter);
      -config.maxPitchRate <= rate <= config.maxPitchRate
    ensures var dp := PitchSetpoint(state, msg, config, deadband, filter) - state.pitch;
      -config.maxPitchRate * MessageDt(msg) <= dp <= config.maxPitchRate * MessageDt(msg)
  {
    var dt := MessageDt(msg);
    var rate := PitchRate(state, msg, config, deadband, filter);
    assert dt * rate <= dt * config.maxPitchRate;
    assert dt * -config.maxPitchRate <= dt * rate;
  }

  /**
   * Yaw and height both read R: with positive gains, turning one way
   * always lowers the body, and the opposite turn raises it.
   */
  lemma YawAndHeightShareChannel(state: Posture, msg: Message, config: Config)
    requires msg.messageRate > 0.0 && config.maxYawRate > 0.0 && config.zSpeed > 0.0
    ensures YawRate(msg, config) < 0.0 <==> HeightSetpoint(state, msg, config) < state.height
    ensures YawRate(msg, config) > 0.0 <==> HeightSetpoint(state, msg, config) > state.height
  {
    var rate := MessageDt(msg) * config.zSpeed;
    assert HeightSetpoint(state, msg, config) - state.height == -(msg.R * rate);
    SignOfProduct(msg.R, rate);
    SignOfProduct(msg.R, config.maxYawRate);
  }

  /** Height at 50 Hz, full R, z_speed 0.05 from 0.1: one step down to 0.099. */
  lemma HeightScenario(msg: Message, config: Config)
    requires msg.messageRate == 50.0 && msg.R == 1.0 && config.zSpeed == 0.05
    ensures HeightSetpoint(Posture(0.0, 0.0, 0.1), msg, config) == 0.099
  {
    assert MessageDt(msg) == 0.02;
  }

  /**
   * Pitch at 50 Hz: with the deadband giving 0.45 for the target 0.5 and the
   * filter clipping the rate to 2.0, the setpoint moves from 0 to 0.04.
   */
  lemma PitchScenario(msg: Message, config: Config, deadband: Deadband, filter: Filter)
    requires msg.messageRate == 50.0 && msg.T == 1.0
    requires config.maxPitch == 0.5 && config.pitchDeadband == 0.05
    requires config.maxPitchRate == 2.0 && config.pitchTimeConstant == 0.1
    requires deadband(0.5, 0.05) == 0.45 && filter(0.0, 0.45, 2.0, 0.1) == 2.0
    ensures PitchSetpoint(Posture(0.0, 0.0, 0.0), msg, config, deadband, filter) == 0.04
  {
    assert MessageDt(msg) == 0.02;
  }

  lemma BoundedScale(a: real, k: real)
    requires -1.0 <= a <= 1.0 && k >= 0.0
    ensures -k <= a * k <= k
    ensures -k <= a * -k <= k
  {
    assert a * -k == -(a * k);
    if a >= 0.0 {
      assert a * k <= 1.0 * k;
    } else {
      assert -1.0 * k <= a * k;
    }
  }

  lemma SignOfProduct(a: real, k: real)
    requires k > 0.0
    ensures a * k > 0.0 <==> a > 0.0
    ensures a * k < 0.0 <==> a < 0.0
    ensures a * -k < 0.0 <==> a > 0.0
    ensures a * -k > 0.0 <==> a < 0.0
  {
    assert a * -k == -(a * k);
  }
}
