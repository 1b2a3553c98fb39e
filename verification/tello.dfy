/**
 The drone, seen from the controller: an abstract sink that records every
 command it is asked to send. The vendor SDK's wire protocol, its clamping of
 RC values and its own bookkeeping of `is_flying` are not part of this model;
 `isFlying` is whatever the SDK last reported, and the controller only reads it.
 */
module Tello {

  /** The four RC channels, in the order `send_rc_control` takes them. */
  datatype RcVector = RcVector(leftRight: int, forwardBackward: int, upDown: int, yaw: int)

  /** The vector with every channel at rest. */
  const Zero: RcVector := RcVector(0, 0, 0, 0)

  /** One command handed to the drone. */
  datatype Command = Rc(vector: RcVector) | TakeoffCommand | LandCommand

  class Drone {
    /** The speed attribute the controller attaches to the drone object. */
    var speed: int
    /** The SDK's flying flag; only the SDK changes it. */
    var isFlying: bool
    /** Every command sent so far, oldest first. */
    var sent: seq<Command>

    /** A new, connected drone: on the ground, nothing sent yet. */
    constructor ()
      ensures !isFlying && sent == []
    {
      isFlying := false;
      sent := [];
    }

    /** Send one RC command with the four channel values in SDK order. */
    method SendRcControl(leftRight: int, forwardBackward: int, upDown: int, yaw: int)
      modifies this`sent
      ensures sent == old(sent) + [Rc(RcVector(leftRight, forwardBackward, upDown, yaw))]
    {
      sent := sent + [Rc(RcVector(leftRight, forwardBackward, upDown, yaw))];
    }

    method Takeoff()
      modifies this`sent
      ensures sent == old(sent) + [TakeoffCommand]
    {
      sent := sent + [TakeoffCommand];
    }

    method Land()
      modifies this`sent
      ensures sent == old(sent) + [LandCommand]
    {
      sent := sent + [LandCommand];
    }

    /** The SDK records whether the drone is now in the air (after a takeoff or landing completes). */
    method ReportFlying(airborne: bool)
      modifies this`isFlying
      ensures isFlying == airborne
    {
      isFlying := airborne;
    }
  }
}
