/**
 * Rising-edge detection over the level-triggered gait (B), hop (X) and
 * activate (V) buttons, and its behaviour over traces of control cycles.
 */
module EdgeDetection {
  import opened Types

  /** The last-seen level of each toggle button. */
  datatype Toggles = Toggles(gait: int, hop: int, activate: int)

  /** The discrete events of one cycle. */
  datatype Events = Events(trot: bool, hop: bool, activate: bool)

  /** The memory right after construction: every button seen released. */
  const Released := Toggles(0, 0, 0)

  const NoEvents := Events(false, false, false)

  /** A button fires when it is pressed now and was released before. */
  predicate RisingEdge(level: int, previous: int)
  {
    level == 1 && previous == 0
  }

  /** All three buttons are compared against the same pre-cycle memory. */
  function Detect(memory: Toggles, msg: Message): Events
  {
    Events(RisingEdge(msg.B, memory.gait),
           RisingEdge(msg.X, memory.hop),
           RisingEdge(msg.V, memory.activate))
  }

  /** The memory a received message leaves behind. */
  function Levels(msg: Message): Toggles
  {
    Toggles(msg.B, msg.X, msg.V)
  }

  /** One cycle's memory update; a timeout leaves the memory alone. */
  function Step(memory: Toggles, input: Input): Toggles
  {
    match input
    case Timeout => memory
    case Received(msg) => Levels(msg)
  }

  /** One cycle's events; a timeout fires nothing. */
  function EventsOn(memory: Toggles, input: Input): Events
  {
    match input
    case Timeout => NoEvents
    case Received(msg) => Detect(memory, msg)
  }

  /** The events of every cycle of a trace, in order. */
  function Fired(memory: Toggles, trace: seq<Input>): (r: seq<Events>)
    ensures |r| == |trace|
    decreases |trace|
  {
    if trace == [] then []
    else [EventsOn(memory, trace[0])] + Fired(Step(memory, trace[0]), trace[1..])
  }

  /** The memory after running a whole trace. */
  function Final(memory: Toggles, trace: seq<Input>): Toggles
    decreases |trace|
  {
    if trace == [] then memory
    else Final(Step(memory, trace[0]), trace[1..])
  }

  /**
   * Reference definition of the memory: the levels of the most recent
   * received message, or the starting memory if every cycle timed out.
   */
  function LastSeen(memory: Toggles, trace: seq<Input>): Toggles
    decreases |trace|
  {
    if trace == [] then memory
    else match trace[|trace| - 1]
      case Timeout => LastSeen(memory, trace[..|trace| - 1])
      case Received(msg) => Levels(msg)
  }

  /** Every received message of the trace has the gait button at level 1. */
  ghost predicate GaitHeld(trace: seq<Input>)
  {
    forall i :: 0 <= i < |trace| && trace[i].Received? ==> trace[i].msg.B == 1
  }

  lemma {:induction false} FinalAppend(memory: Toggles, trace: seq<Input>, input: Input)
    ensures Final(memory, trace + [input]) == Step(Final(memory, trace), input)
    decreases |trace|
  {
    if trace == [] {
      assert [input][1..] == [];
    } else {
      assert (trace + [input])[1..] == trace[1..] + [input];
      FinalAppend(Step(memory, trace[0]), trace[1..], input);
    }
  }

  /** The running memory always holds the most recently received levels. */
  lemma {:induction false} FinalIsLastSeen(memory: Toggles, trace: seq<Input>)
    ensures Final(memory, trace) == LastSeen(memory, trace)
    decreases |trace|
  {
    if trace != [] {
      var front := trace[..|trace| - 1];
      assert trace == front + [trace[|trace| - 1]];
      FinalAppend(memory, front, trace[|trace| - 1]);
      FinalIsLastSeen(memory, front);
    }
  }

  lemma {:induction false} FiredSplit(memory: Toggles, a: seq<Input>, b: seq<Input>)
    ensures Fired(memory, a + b) == Fired(memory, a) + Fired(Final(memory, a), b)
    ensures Final(memory, a + b) == Final(Final(memory, a), b)
    decreases |a|
  {
    if a == [] {
      assert a + b == b;
    } else {
      assert (a + b)[1..] == a[1..] + b;
      FiredSplit(Step(memory, a[0]), a[1..], b);
    }
  }

  /**
   * The events of cycle i are those of that cycle's input compared against
   * the levels of the most recent message received before it.
   */
  lemma FiredAt(memory: Toggles, trace: seq<Input>, i: nat)
    requires i < |trace|
    ensures Fired(memory, trace)[i] == EventsOn(LastSeen(memory, trace[..i]), trace[i])
  {
    FiredSplit(memory, trace[..i], trace[i..]);
    assert trace == trace[..i] + trace[i..];
    FinalIsLastSeen(memory, trace[..i]);
  }

  /** A timeout fires nothing and leaves the memory as it was. */
  lemma TimeoutIsTransparent(memory: Toggles, a: seq<Input>, b: seq<Input>)
    ensures Fired(memory, a + [Timeout] + b)
         == Fired(memory, a + b)[..|a|] + [NoEvents] + Fired(memory, a + b)[|a|..]
    ensures Final(memory, a + [Timeout] + b) == Final(memory, a + b)
  {
    FiredSplit(memory, a, b);
    FiredSplit(memory, a, [Timeout] + b);
    assert a + [Timeout] + b == a + ([Timeout] + b);
    assert ([Timeout] + b)[1..] == b;
    var without := Fired(memory, a + b);
    assert without[..|a|] == Fired(memory, a);
    assert without[|a|..] == Fired(Final(memory, a), b);
  }

  lemma {:induction false} LastSeenWhileHeld(memory: Toggles, trace: seq<Input>, k: nat)
    requires GaitHeld(trace)
    requires k < |trace| && trace[k].Received?
    ensures LastSeen(memory, trace).gait == 1
    decreases |trace|
  {
    var n := |trace| - 1;
    if trace[n].Timeout? {
      var front := trace[..n];
      assert k < n && front[k] == trace[k];
      assert GaitHeld(front) by {
        forall i | 0 <= i < |front| && front[i].Received? ensures front[i].msg.B == 1 {
          assert front[i] == trace[i];
        }
      }
      LastSeenWhileHeld(memory, front, k);
    }
  }

  /**
   * While the gait button is held (whatever timeouts interrupt it), the
   * trot event fires on at most one cycle.
   */
  lemma HeldButtonFiresAtMostOnce(memory: Toggles, trace: seq<Input>, i: nat, j: nat)
    requires GaitHeld(trace)
    requires i < j < |trace|
    ensures !(Fired(memory, trace)[i].trot && Fired(memory, trace)[j].trot)
  {
    FiredAt(memory, trace, i);
    FiredAt(memory, trace, j);
    if Fired(memory, trace)[i].trot {
      var front := trace[..j];
      assert front[i] == trace[i];
      assert GaitHeld(front) by {
        forall k | 0 <= k < |front| && front[k].Received? ensures front[k].msg.B == 1 {
          assert front[k] == trace[k];
        }
      }
      LastSeenWhileHeld(memory, front, i);
    }
  }

  /**
   * Holding the gait button from a released start over consecutive
   * received messages fires the trot event on the first cycle only.
   */
  lemma HoldFiresOnFirstCycleOnly(memory: Toggles, trace: seq<Input>)
    requires memory.gait == 0
    requires forall i :: 0 <= i < |trace| ==> trace[i].Received? && trace[i].msg.B == 1
    ensures forall i :: 0 <= i < |trace| ==> (Fired(memory, trace)[i].trot <==> i == 0)
  {
    forall i | 0 <= i < |trace| ensures Fired(memory, trace)[i].trot <==> i == 0 {
      FiredAt(memory, trace, i);
      if i > 0 {
        LastSeenWhileHeld(memory, trace[..i], 0);
      }
    }
  }

  /** Press, release, press again: the trot event fires twice. */
  lemma PressReleasePressFiresTwice(memory: Toggles, first: Message, second: Message, third: Message)
    requires memory.gait == 0
    requires first.B == 1 && second.B == 0 && third.B == 1
    ensures var f := Fired(memory, [Received(first), Received(second), Received(third)]);
      f[0].trot && !f[1].trot && f[2].trot
  {
    var trace := [Received(first), Received(second), Received(third)];
    FiredAt(memory, trace, 0);
    FiredAt(memory, trace, 1);
    FiredAt(memory, trace, 2);
  }

  /** After construction, a gait press fires on the first message. */
  lemma FirstPressFires(msg: Message)
    ensures Detect(Released, msg).trot <==> msg.B == 1
    ensures Detect(Released, msg).hop <==> msg.X == 1
    ensures Detect(Released, msg).activate <==> msg.V == 1
  {
  }
}
