/**
 The flight commands: how a direction name and a speed become one RC command,
 and the two effects on the drone, flying with a vector and stopping.
 */
module FlightCommands {
  import opened Tello

  datatype Option<T> = None | Some(value: T)

  /** The eight directions the controller knows, by their meaning. */
  datatype Direction = Upward | Downward | Forward | Backward | YawLeft | YawRight | Left | Right

  /** The four RC channels, by their meaning. */
  datatype Channel = LeftRight | ForwardBackward | UpDown | Yaw

  /** The name under which a direction is passed to `start_flying`. */
  function Name(d: Direction): string
  {
    match d
    case Upward => "upward"
    case Downward => "downward"
    case Forward => "forward"
    case Backward => "backward"
    case YawLeft => "yaw_left"
    case YawRight => "yaw_right"
    case Left => "left"
    case Right => "right"
  }

  /** The direction a name stands for, if it stands for one. */
  function ParseDirection(name: string): (d: Option<Direction>)
    ensures d.Some? ==> Name(d.value) == name
    ensures d.None? ==> forall x :: Name(x) != name
  {
    if name == Name(Upward) then Some(Upward)
    else if name == Name(Downward) then Some(Downward)
    else if name == Name(Forward) then Some(Forward)
    else if name == Name(Backward) then Some(Backward)
    else if name == Name(YawLeft) then Some(YawLeft)
    else if name == Name(YawRight) then Some(YawRight)
    else if name == Name(Left) then Some(Left)
    else if name == Name(Right) then Some(Right)
    else None
  }

  /** The channel a direction moves along. */
  function ChannelOf(d: Direction): Channel
  {
    match d
    case Upward | Downward => UpDown
    case Forward | Backward => ForwardBackward
    case YawLeft | YawRight => Yaw
    case Left | Right => LeftRight
  }

  /** Whether a direction drives its channel positively (+1) or negatively (-1). */
  function SignOf(d: Direction): int
  {
    match d
    case Upward | Forward | YawRight | Right => 1
    case Downward | Backward | YawLeft | Left => -1
  }

  /** The value a vector carries on one channel. */
  function Component(v: RcVector, c: Channel): int
  {
    match c
    case LeftRight => v.leftRight
    case ForwardBackward => v.forwardBackward
    case UpDown => v.upDown
    case Yaw => v.yaw
  }

  /** The number of channels a vector does not leave at rest. */
  function ActiveChannels(v: RcVector): nat
  {
    (if v.leftRight != 0 then 1 else 0) + (if v.forwardBackward != 0 then 1 else 0)
    + (if v.upDown != 0 then 1 else 0) + (if v.yaw != 0 then 1 else 0)
  }

  function Negate(v: RcVector): RcVector
  {
    RcVector(-v.leftRight, -v.forwardBackward, -v.upDown, -v.yaw)
  }

  /** The opposite of a direction: same channel, other sign. */
  function Opposite(d: Direction): Direction
  {
    match d
    case Upward => Downward
    case Downward => Upward
    case Forward => Backward
    case Backward => Forward
    case YawLeft => YawRight
    case YawRight => YawLeft
    case Left => Right
    case Right => Left
  }

  /**
   The vector `start_flying` computes: all channels at rest, then the one
   channel named by the direction set to plus or minus the speed. A name that
   is not one of the eight leaves the vector at rest.
   */
  function DirectionVector(direction: string, speed: int): (v: RcVector)
    ensures ParseDirection(direction).None? ==> v == Zero
    ensures ParseDirection(direction).Some? ==>
      var d := ParseDirection(direction).value;
      forall c :: Component(v, c) == if c == ChannelOf(d) then SignOf(d) * speed else 0
  {
    var lr, fb, ud, yv := 0, 0, 0, 0;
    if direction == "upward" then RcVector(lr, fb, speed, yv)
    else if direction == "downward" then RcVector(lr, fb, -speed, yv)
    else if direction == "forward" then RcVector(lr, speed, ud, yv)
    else if direction == "backward" then RcVector(lr, -speed, ud, yv)
    else if direction == "yaw_left" then RcVector(lr, fb, ud, -speed)
    else if direction == "yaw_right" then RcVector(lr, fb, ud, speed)
    else if direction == "left" then RcVector(-speed, fb, ud, yv)
    else if direction == "right" then RcVector(speed, fb, ud, yv)
    else RcVector(lr, fb, ud, yv)
  }

  /**
   The commands one call of `start_flying` hands to the drone: the computed
   vector, once, unless every channel of it is at rest.
   */
  function Dispatch(direction: string, speed: int): (cmds: seq<Command>)
    ensures |cmds| <= 1
    ensures cmds != [] <==> DirectionVector(direction, speed) != Zero
    ensures forall i :: 0 <= i < |cmds| ==> cmds[i] == Rc(DirectionVector(direction, speed))
  {
    var v := DirectionVector(direction, speed);
    if v != Zero then [Rc(v)] else []
  }

  /** `fly`: forward the first four entries to the drone, in order. */
  method Fly(direction: seq<int>, drone: Drone)
    requires |direction| >= 4
    modifies drone`sent
    ensures drone.sent == old(drone.sent) + [Rc(RcVector(direction[0], direction[1], direction[2], direction[3]))]
  {
    drone.SendRcControl(direction[0], direction[1], direction[2], direction[3]);
  }

  /** `start_flying`: compute the vector and fly with it unless it is at rest. */
  method StartFlying(direction: string, drone: Drone, speed: int)
    modifies drone`sent
    ensures drone.sent == old(drone.sent) + Dispatch(direction, speed)
  {
    var v := DirectionVector(direction, speed);
    if [v.leftRight, v.forwardBackward, v.upDown, v.yaw] != [0, 0, 0, 0] {
      Fly([v.leftRight, v.forwardBackward, v.upDown, v.yaw], drone);
    }
  }

  /** `stop_flying`: send the vector at rest. */
  method StopFlying(drone: Drone)
    modifies drone`sent
    ensures drone.sent == old(drone.sent) + [Rc(Zero)]
  {
    drone.SendRcControl(0, 0, 0, 0);
  }

  /** Naming a direction and reading the name back gives the direction. */
  lemma ParseName(d: Direction)
    ensures ParseDirection(Name(d)) == Some(d)
  {
  }

  /**
   For each of the eight directions exactly the channel it names is set, to
   its sign times the speed; with a non-zero speed that is one active channel
   of magnitude |speed|.
   */
  lemma KnownDirection(d: Direction, speed: int)
    ensures Component(DirectionVector(Name(d), speed), ChannelOf(d)) == SignOf(d) * speed
    ensures forall c :: c != ChannelOf(d) ==> Component(DirectionVector(Name(d), speed), c) == 0
    ensures ActiveChannels(DirectionVector(Name(d), speed)) == if speed == 0 then 0 else 1
  {
  }

  /** The signs the source uses, direction by direction. */
  lemma DirectionTable(s: int)
    ensures DirectionVector("upward", s) == RcVector(0, 0, s, 0)
    ensures DirectionVector("downward", s) == RcVector(0, 0, -s, 0)
    ensures DirectionVector("forward", s) == RcVector(0, s, 0, 0)
    ensures DirectionVector("backward", s) == RcVector(0, -s, 0, 0)
    ensures DirectionVector("yaw_left", s) == RcVector(0, 0, 0, -s)
    ensures DirectionVector("yaw_right", s) == RcVector(0, 0, 0, s)
    ensures DirectionVector("left", s) == RcVector(-s, 0, 0, 0)
    ensures DirectionVector("right", s) == RcVector(s, 0, 0, 0)
  {
  }

  /** Opposite directions give negated vectors. */
  lemma OppositeNegates(d: Direction, speed: int)
    ensures Opposite(Opposite(d)) == d && ChannelOf(Opposite(d)) == ChannelOf(d)
    ensures DirectionVector(Name(Opposite(d)), speed) == Negate(DirectionVector(Name(d), speed))
  {
  }

  /** A name that is not one of the eight leaves the vector at rest and sends nothing. */
  lemma UnknownSendsNothing(direction: string, speed: int)
    requires forall d :: Name(d) != direction
    ensures DirectionVector(direction, speed) == Zero
    ensures Dispatch(direction, speed) == []
  {
  }

  /** A known direction sends exactly one command iff the speed is non-zero. */
  lemma KnownDispatch(d: Direction, speed: int)
    ensures Dispatch(Name(d), speed) == if speed == 0 then [] else [Rc(DirectionVector(Name(d), speed))]
  {
    KnownDirection(d, speed);
  }
}
