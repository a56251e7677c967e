/**
 * The keyboard interface: once per control cycle it turns the operator's
 * message (or a transport timeout) into a motion command, remembering the
 * toggle button levels between cycles.
 */
module Keyboard {
  import opened Types
  import opened EdgeDetection
  import opened Setpoints

  /** The discrete events a command carries; the default command carries none. */
  function Flags(command: Command): Events
  {
    match command
    case Default => NoEvents
    case Motion(trot, hop, activate, _, _, _, _, _) => Events(trot, hop, activate)
  }

  class KeyboardInterface {
    const config: Config
    var previousGaitToggle: int
    var previousHopToggle: int
    var previousActivateToggle: int

    /** The toggle memory as a value. */
    function Memory(): Toggles
      reads this
    {
      Toggles(previousGaitToggle, previousHopToggle, previousActivateToggle)
    }

    constructor (config: Config)
      ensures this.config == config
      ensures Memory() == Released
    {
      this.config := config;
      previousGaitToggle := 0;
      previousHopToggle := 0;
      previousActivateToggle := 0;
    }

    /**
     * One control cycle. On a timeout the default command is returned and
     * the memory is left alone; otherwise every event is detected against
     * the memory as it was before the call, the memory is overwritten with
     * the message's levels, and the continuous fields are computed.
     */
    method GetCommand(input: Input, state: Posture, deadband: Deadband, filter: Filter)
      returns (command: Command)
      requires input.Received? ==> input.msg.messageRate != 0.0
      modifies this
      ensures Memory() == Step(old(Memory()), input)
      ensures Flags(command) == EventsOn(old(Memory()), input)
      ensures input.Timeout? ==> command == Default
      ensures input.Received? ==> (
                command.Motion?
                && command.horizontalVelocity == HorizontalVelocity(input.msg, config)
                && command.yawRate == YawRate(input.msg, config)
                && command.pitch == PitchSetpoint(state, input.msg, config, deadband, filter)
                && command.height == HeightSetpoint(state, input.msg, config)
                && command.roll == RollSetpoint(state, input.msg, config))
    {
      if input.Timeout? {
        return Default;
      }
      var msg := input.msg;

      var gaitToggle := msg.B;
      var trotEvent := gaitToggle == 1 && previousGaitToggle == 0;
      var hopToggle := msg.X;
      var hopEvent := hopToggle == 1 && previousHopToggle == 0;
      var activateToggle := msg.V;
      var activateEvent := activateToggle == 1 && previousActivateToggle == 0;

      previousGaitToggle := gaitToggle;
      previousHopToggle := hopToggle;
      previousActivateToggle := activateToggle;

      command := Motion(
        trotEvent, hopEvent, activateEvent,
        HorizontalVelocity(msg, config),
        YawRate(msg, config),
        PitchSetpoint(state, msg, config, deadband, filter),
        HeightSetpoint(state, msg, config),
        RollSetpoint(state, msg, config));
    }
  }

  /** Every received message of the trace claims a non-zero rate. */
  ghost predicate RatesNonZero(trace: seq<Input>)
  {
    forall i :: 0 <= i < |trace| && trace[i].Received? ==> trace[i].msg.messageRate != 0.0
  }

  /**
   * Drives an interface through a trace, one call per cycle with that
   * cycle's posture. The events of every command and the memory left
   * behind are those the trace semantics gives, so the trace lemmas of
   * EdgeDetection hold of the object itself.
   */
  method RunTrace(keyboard: KeyboardInterface, trace: seq<Input>, postures: seq<Posture>,
                  deadband: Deadband, filter: Filter)
    returns (commands: seq<Command>)
    requires RatesNonZero(trace) && |postures| == |trace|
    modifies keyboard
    ensures |commands| == |trace|
    ensures forall i :: 0 <= i < |trace| ==> Flags(commands[i]) == Fired(old(keyboard.Memory()), trace)[i]
    ensures keyboard.Memory() == Final(old(keyboard.Memory()), trace)
  {
    ghost var start := keyboard.Memory();
    commands := [];
    var i := 0;
    while i < |trace|
      invariant 0 <= i <= |trace| && |commands| == i
      invariant keyboard.Memory() == Final(start, trace[..i])
      invariant forall k :: 0 <= k < i ==> Flags(commands[k]) == Fired(start, trace[..i])[k]
    {
      ghost var before := keyboard.Memory();
      var command := keyboard.GetCommand(trace[i], postures[i], deadband, filter);
      FiredSplit(start, trace[..i], [trace[i]]);
      assert trace[..i + 1] == trace[..i] + [trace[i]];
      assert [trace[i]][1..] == [];
      commands := commands + [command];
      i := i + 1;
    }
    assert trace[..i] == trace;
  }

  /**
   * After construction, the first message with the gait button pressed
   * fires the trot event, and the same button still held on the next
   * message does not.
   */
  method PressAndHoldAfterConstruction(config: Config, first: Message, second: Message,
                                       state: Posture, deadband: Deadband, filter: Filter)
    returns (firstCommand: Command, secondCommand: Command)
    requires first.B == 1 && second.B == 1
    requires first.messageRate != 0.0 && second.messageRate != 0.0
    ensures firstCommand.Motion? && firstCommand.trotEvent
    ensures secondCommand.Motion? && !secondCommand.trotEvent
  {
    var keyboard := new KeyboardInterface(config);
    firstCommand := keyboard.GetCommand(Received(first), state, deadband, filter);
    secondCommand := keyboard.GetCommand(Received(second), state, deadband, filter);
  }

  /** A timeout between two presses neither fires nor re-arms the button. */
  method TimeoutKeepsMemory(config: Config, first: Message, second: Message,
                            state: Posture, deadband: Deadband, filter: Filter)
    returns (timedOut: Command, after: Command)
    requires first.B == 1 && second.B == 1
    requires first.messageRate != 0.0 && second.messageRate != 0.0
    ensures timedOut == Default && Flags(timedOut) == NoEvents
    ensures after.Motion? && !after.trotEvent
  {
    var keyboard := new KeyboardInterface(config);
    var pressed := keyboard.GetCommand(Received(first), state, deadband, filter);
    timedOut := keyboard.GetCommand(Timeout, state, deadband, filter);
    after := keyboard.GetCommand(Received(second), state, deadband, filter);
  }
}
