/**
 The keyboard controller: eight keys bound to directions on press and to
 stopping on release, a speed bar whose value the "Reset Speed" button copies
 into the drone's speed, and a takeoff/land button that chooses by the drone's
 flying flag.

 `State`, `Step` and `Run` give the controller's behaviour as values; the class
 `DroneController` is the object the program builds, and each of its methods
 is proved to change the state exactly as `Step` says.
 */
module Controller {
  import opened Tello
  import F = FlightCommands

  /** The speed the controller starts with, and the speed bar's initial setting. */
  const DefaultSpeed: int := 50

  /** The speed bar's lower end, upper end and resolution. */
  const BarFrom: int := 25
  const BarTo: int := 100
  const BarResolution: int := 25

  /** The largest magnitude the drone accepts on an RC channel. */
  const RcLimit: int := 100

  /**
   The values the speed bar can hold: from its lower end to its upper end, in
   resolution steps; that is exactly 25, 50, 75 and 100.
   */
  predicate IsBarValue(v: int)
    ensures IsBarValue(v) <==> v == 25 || v == 50 || v == 75 || v == 100
  {
    BarFrom <= v <= BarTo && (v - BarFrom) % BarResolution == 0
  }

  type BarValue = v: int | IsBarValue(v) witness DefaultSpeed

  /** The eight keys the controller listens to. */
  datatype Key = KeyW | KeyA | KeyS | KeyD | KeyUp | KeyDown | KeyLeft | KeyRight

  /** The direction name a key press is bound to: a known direction, whose key is `k` again. */
  function PressDirection(k: Key): (name: string)
    ensures F.ParseDirection(name).Some? && KeyFor(F.ParseDirection(name).value) == k
  {
    match k
    case KeyW => "upward"
    case KeyA => "yaw_left"
    case KeyS => "downward"
    case KeyD => "yaw_right"
    case KeyUp => "forward"
    case KeyDown => "backward"
    case KeyLeft => "left"
    case KeyRight => "right"
  }

  /** The key bound to a direction: the inverse of the binding table. */
  function KeyFor(d: F.Direction): Key
  {
    match d
    case Upward => KeyW
    case YawLeft => KeyA
    case Downward => KeyS
    case YawRight => KeyD
    case Forward => KeyUp
    case Backward => KeyDown
    case Left => KeyLeft
    case Right => KeyRight
  }

  /**
   What can happen: the pilot presses or releases a key, moves the bar or
   presses a button, or the SDK reports whether the drone is in the air.
   */
  datatype Event =
    | Press(key: Key)
    | Release(key: Key)
    | MoveBar(value: BarValue)
    | ResetSpeed
    | ToggleFlight
    | SdkReports(airborne: bool)

  /**
   The controller's observable state: the drone's speed attribute, the speed
   bar's value, the drone's flying flag and the commands sent so far.
   */
  datatype State = State(speed: int, bar: int, flying: bool, sent: seq<Command>)

  /** The state right after construction: on the ground, nothing sent, speed and bar at the default. */
  function Initial(): (st: State)
    ensures st.speed == st.bar == DefaultSpeed && !st.flying && st.sent == []
    ensures Inv(st)
  {
    State(DefaultSpeed, DefaultSpeed, false, [])
  }

  /**
   One event. A press starts flying in the bound direction at the speed the
   drone holds at that moment; a release of any key stops; "Reset Speed"
   copies the bar into the speed; the takeoff/land button lands when flying
   and takes off otherwise. Only the SDK changes the flying flag.
   */
  function Step(st: State, e: Event): (r: State)
    ensures st.sent <= r.sent && |r.sent| <= |st.sent| + 1
    ensures r.flying == if e.SdkReports? then e.airborne else st.flying
  {
    match e
    case Press(k) => st.(sent := st.sent + F.Dispatch(PressDirection(k), st.speed))
    case Release(_) => st.(sent := st.sent + [Rc(Zero)])
    case MoveBar(v) => st.(bar := v)
    case ResetSpeed => st.(speed := st.bar)
    case ToggleFlight => st.(sent := st.sent + [if st.flying then LandCommand else TakeoffCommand])
    case SdkReports(b) => st.(flying := b)
  }

  /** No event in the sequence is a report from the SDK. */
  predicate NoReports(events: seq<Event>)
  {
    forall i :: 0 <= i < |events| ==> !events[i].SdkReports?
  }

  /** A sequence of events, handled one after another. */
  function Run(st: State, events: seq<Event>): (r: State)
    ensures st.sent <= r.sent && |r.sent| <= |st.sent| + |events|
    ensures NoReports(events) ==> r.flying == st.flying
    decreases |events|
  {
    if events == [] then st else Run(Step(st, events[0]), events[1..])
  }

  function Last(s: seq<Command>): Command
    requires s != []
  {
    s[|s| - 1]
  }

  /** An RC vector the drone accepts as is, moving along one channel at most. */
  predicate SafeRc(v: RcVector)
  {
    && F.ActiveChannels(v) <= 1
    && -RcLimit <= v.leftRight <= RcLimit && -RcLimit <= v.forwardBackward <= RcLimit
    && -RcLimit <= v.upDown <= RcLimit && -RcLimit <= v.yaw <= RcLimit
  }

  predicate SafeCommand(c: Command)
  {
    c.Rc? ==> SafeRc(c.vector)
  }

  /** What holds in every state the controller can reach. */
  predicate Inv(st: State)
  {
    && IsBarValue(st.speed)
    && IsBarValue(st.bar)
    && forall i :: 0 <= i < |st.sent| ==> SafeCommand(st.sent[i])
  }

  /** The binding table is one-to-one and onto the eight directions. */
  lemma BindingsBijective(k: Key, d: F.Direction)
    ensures PressDirection(KeyFor(d)) == F.Name(d)
    ensures F.ParseDirection(PressDirection(k)).Some?
    ensures KeyFor(F.ParseDirection(PressDirection(k)).value) == k
  {
  }

  /** Two different keys are bound to two different directions. */
  lemma BindingsDistinct(k1: Key, k2: Key)
    requires k1 != k2
    ensures PressDirection(k1) != PressDirection(k2)
  {
  }

  /** The initial speed and the bar's initial setting agree, and the invariant holds at the start. */
  lemma InitialState()
    ensures Initial().speed == Initial().bar == 50
    ensures Inv(Initial())
  {
  }

  /** A press at a bar speed sends one command, moving at that speed along one channel. */
  lemma PressAtBarSpeed(k: Key, speed: int)
    requires IsBarValue(speed)
    ensures F.Dispatch(PressDirection(k), speed) == [Rc(F.DirectionVector(PressDirection(k), speed))]
    ensures SafeRc(F.DirectionVector(PressDirection(k), speed))
  {
  }

  /** Every event keeps the invariant. */
  lemma StepPreservesInv(st: State, e: Event)
    requires Inv(st)
    ensures Inv(Step(st, e))
  {
  }

  /** Every sequence of events keeps the invariant. */
  lemma {:induction false} RunPreservesInv(st: State, events: seq<Event>)
    requires Inv(st)
    ensures Inv(Run(st, events))
    decreases |events|
  {
    if events != [] {
      StepPreservesInv(st, events[0]);
      RunPreservesInv(Step(st, events[0]), events[1..]);
    }
  }

  /**
   In every session, whatever the pilot does, the speed stays on the bar and
   every RC command sent moves along one channel at most, within the drone's
   limits.
   */
  lemma SessionSafe(events: seq<Event>)
    ensures Inv(Run(Initial(), events))
  {
    InitialState();
    RunPreservesInv(Initial(), events);
  }

  /** Handling one more event is one more step. */
  lemma {:induction false} RunSnoc(st: State, events: seq<Event>, e: Event)
    ensures Run(st, events + [e]) == Step(Run(st, events), e)
    decreases |events|
  {
    if events == [] {
      assert [e][1..] == [];
    } else {
      assert (events + [e])[0] == events[0];
      assert (events + [e])[1..] == events[1..] + [e];
      RunSnoc(Step(st, events[0]), events[1..], e);
    }
  }

  /**
   After the release of any key, the last command sent is the vector at rest.
   This holds of the model, where every send is appended at once; the program
   sends a press's vector from a new thread and the release's stop directly,
   so after a quick tap the two may reach the drone in the other order.
   */
  lemma ReleaseStops(st: State, events: seq<Event>, k: Key)
    ensures Run(st, events + [Release(k)]).sent != []
    ensures Last(Run(st, events + [Release(k)]).sent) == Rc(Zero)
  {
    RunSnoc(st, events, Release(k));
  }

  /** In a session, every key press sends exactly one command, and it is not at rest. */
  lemma PressInSession(events: seq<Event>, k: Key)
    ensures var before := Run(Initial(), events);
      var v := F.DirectionVector(PressDirection(k), before.speed);
      v != Zero && Run(Initial(), events + [Press(k)]).sent == before.sent + [Rc(v)]
  {
    var before := Run(Initial(), events);
    SessionSafe(events);
    PressAtBarSpeed(k, before.speed);
    RunSnoc(Initial(), events, Press(k));
  }

  /** Without "Reset Speed", the speed does not change. */
  lemma {:induction false} SpeedStable(st: State, events: seq<Event>)
    requires forall i :: 0 <= i < |events| ==> !events[i].ResetSpeed?
    ensures Run(st, events).speed == st.speed
    decreases |events|
  {
    if events != [] {
      SpeedStable(Step(st, events[0]), events[1..]);
    }
  }

  /**
   After "Reset Speed", every later press up to the next reset uses the bar
   value read at the reset, even if the bar has been moved since.
   */
  lemma PressAfterReset(st: State, between: seq<Event>, k: Key)
    requires forall i :: 0 <= i < |between| ==> !between[i].ResetSpeed?
    ensures var mid := Run(st, [ResetSpeed] + between);
      Run(st, [ResetSpeed] + between + [Press(k)]).sent == mid.sent + F.Dispatch(PressDirection(k), st.bar)
  {
    assert ([ResetSpeed] + between)[1..] == between;
    SpeedStable(Step(st, ResetSpeed), between);
    RunSnoc(st, [ResetSpeed] + between, Press(k));
  }

  /** The takeoff/land button sends exactly one command: land when flying, takeoff otherwise. */
  lemma ToggleFlightChooses(st: State)
    ensures |Step(st, ToggleFlight).sent| == |st.sent| + 1
    ensures Last(Step(st, ToggleFlight).sent) == LandCommand <==> st.flying
    ensures Last(Step(st, ToggleFlight).sent) == TakeoffCommand <==> !st.flying
  {
  }

  /** Handling two sequences one after the other is handling their concatenation. */
  lemma {:induction false} RunAppend(st: State, first: seq<Event>, second: seq<Event>)
    ensures Run(st, first + second) == Run(Run(st, first), second)
    decreases |first|
  {
    if first == [] {
      assert first + second == second;
    } else {
      assert (first + second)[0] == first[0];
      assert (first + second)[1..] == first[1..] + second;
      RunAppend(Step(st, first[0]), first[1..], second);
    }
  }

  /**
   Once the SDK reports the drone airborne, the takeoff/land button lands it,
   whatever the pilot does in between as long as no other report arrives.
   */
  lemma LandAfterReport(st: State, events: seq<Event>, between: seq<Event>)
    requires NoReports(between)
    ensures var before := Run(st, events + [SdkReports(true)] + between);
      Run(st, events + [SdkReports(true)] + between + [ToggleFlight]).sent == before.sent + [LandCommand]
  {
    var reported := Run(st, events + [SdkReports(true)]);
    RunSnoc(st, events, SdkReports(true));
    assert reported.flying;
    RunAppend(st, events + [SdkReports(true)], between);
    assert Run(st, events + [SdkReports(true)] + between).flying;
    RunSnoc(st, events + [SdkReports(true)] + between, ToggleFlight);
  }

  /** A whole flight: take off, the SDK reports the drone airborne, then land. */
  lemma TakeoffThenLand()
    ensures Run(Initial(), [ToggleFlight, SdkReports(true), ToggleFlight]).sent == [TakeoffCommand, LandCommand]
  {
    var es := [ToggleFlight, SdkReports(true), ToggleFlight];
    assert es[1..] == [SdkReports(true), ToggleFlight];
    assert es[1..][1..] == [ToggleFlight];
    assert es[1..][1..][1..] == [];
  }

  /** The controller object: the drone it drives and the speed bar's value. */
  class DroneController {
    const drone: Drone
    var speedBar: BarValue

    /** The controller's state as a value. */
    function Snapshot(): State
      reads this, drone
    {
      State(drone.speed, speedBar, drone.isFlying, drone.sent)
    }

    /** The session invariant, as a property of the object. */
    ghost predicate Valid()
      reads this, drone
    {
      Inv(Snapshot())
    }

    /** Connect a new drone, give it the default speed and set the bar to the same. */
    constructor ()
      ensures fresh(drone)
      ensures Snapshot() == Initial()
      ensures Valid()
    {
      var d := new Drone();
      d.speed := DefaultSpeed;
      drone := d;
      speedBar := DefaultSpeed;
    }

    /** The pilot moves the speed bar. */
    method MoveSpeedBar(v: BarValue)
      requires Valid()
      modifies this`speedBar
      ensures Valid()
      ensures speedBar == v
      ensures Snapshot() == Step(old(Snapshot()), MoveBar(v))
    {
      speedBar := v;
    }

    /** "Reset Speed": the drone's speed becomes the bar's value; nothing else changes. */
    method UpdateSpeed()
      requires Valid()
      modifies drone`speed
      ensures Valid() && IsBarValue(drone.speed)
      ensures drone.speed == speedBar
      ensures Snapshot() == Step(old(Snapshot()), ResetSpeed)
    {
      drone.speed := speedBar;
    }

    /** The takeoff/land button. */
    method TakeoffLand()
      requires Valid()
      modifies drone`sent
      ensures Valid()
      ensures drone.sent == old(drone.sent) + [if drone.isFlying then LandCommand else TakeoffCommand]
      ensures Snapshot() == Step(old(Snapshot()), ToggleFlight)
    {
      if drone.isFlying {
        drone.Land();
      } else {
        drone.Takeoff();
      }
    }

    /** A key press: start flying in the bound direction at the drone's current speed. */
    method KeyPress(k: Key)
      requires Valid()
      modifies drone`sent
      ensures Valid()
      ensures drone.sent == old(drone.sent) + [Rc(F.DirectionVector(PressDirection(k), drone.speed))]
      ensures F.DirectionVector(PressDirection(k), drone.speed) != Zero
      ensures Snapshot() == Step(old(Snapshot()), Press(k))
    {
      PressAtBarSpeed(k, drone.speed);
      StepPreservesInv(Snapshot(), Press(k));
      F.StartFlying(PressDirection(k), drone, drone.speed);
    }

    /** A key release: stop. */
    method KeyRelease(k: Key)
      requires Valid()
      modifies drone`sent
      ensures Valid()
      ensures drone.sent == old(drone.sent) + [Rc(Zero)]
      ensures Snapshot() == Step(old(Snapshot()), Release(k))
    {
      F.StopFlying(drone);
    }

    /** The SDK's report that the drone is or is not in the air. */
    method ReceiveReport(airborne: bool)
      requires Valid()
      modifies drone`isFlying
      ensures Valid() && drone.isFlying == airborne
      ensures Snapshot() == Step(old(Snapshot()), SdkReports(airborne))
    {
      drone.ReportFlying(airborne);
    }

    /** The bindings and the buttons' commands: route an event to its handler. */
    method Handle(e: Event)
      requires Valid()
      modifies this`speedBar, drone`speed, drone`sent, drone`isFlying
      ensures Valid()
      ensures Snapshot() == Step(old(Snapshot()), e)
    {
      match e
      case Press(k) => KeyPress(k);
      case Release(k) => KeyRelease(k);
      case MoveBar(v) => MoveSpeedBar(v);
      case ResetSpeed => UpdateSpeed();
      case ToggleFlight => TakeoffLand();
      case SdkReports(b) => ReceiveReport(b);
    }
  }
}
