# Keyboard drone controller, modelled in Dafny

The program is a desktop controller for a small quadcopter. Eight keys fly the
drone: pressing a key sends one radio-control (RC) velocity command that moves
the drone along one axis at the current speed. Releasing any key sends the
vector at rest. A speed bar (25, 50, 75 or 100) and a "Reset Speed" button set
the speed that later presses use. A takeoff/land button lands the drone when it
is flying and takes it off otherwise.

The model has three modules:

- `Tello` (`tello.dfy`): the drone as an abstract command sink. The class
  `Drone` holds the `speed` attribute the controller attaches to it, the SDK's
  `isFlying` flag and the log `sent` of every command handed to it.
  `SendRcControl`, `Takeoff` and `Land` append to that log. `ReportFlying` is
  the SDK updating `isFlying`.
- `FlightCommands` (`flight_commands.dfy`): the direction-to-vector mapping of
  `start_flying` as the function `DirectionVector`. `Dispatch` gives the commands
  one call hands to the drone. `Fly`, `StartFlying` and `StopFlying` are the
  effects on a `Drone`. `DirectionVector` is checked against a reference
  description: each `Direction` names a `Channel` (`ChannelOf`) and a sign
  (`SignOf`).
- `Controller` (`controller.dfy`): the key bindings, the speed bar and the
  takeoff/land button. `State`, `Step` and `Run` describe the controller as
  values. `Run` handles a sequence of events one after another: the pilot's
  actions and the SDK's reports of whether the drone is in the air. The class
  `DroneController` is the object the program builds. Each of its methods is
  proved to change the state exactly as `Step` says and to keep the session
  invariant `Valid()`. The lemmas over `Run` hold for every session. The speed
  always stays on the bar. Every RC command sent moves along at most one channel
  and stays within +/-100. Every key press sends one non-zero vector. A press
  uses the speed set by the most recent "Reset Speed". Once the SDK reports the
  drone airborne, the takeoff/land button lands it until another report arrives. In the model every release
  ends with the vector at rest. The program sends a press's vector from a new
  thread but a release's stop directly, so after a quick tap the two can reach
  the drone in the other order; the model does not capture that.

## Model

| member | source | states |
|---|---|---|
| `Tello.Drone.constructor` | adding_set_speed_bar.py:28-30 | a new drone is on the ground and has been sent nothing |
| `Tello.Drone.SendRcControl` | flight_commands.py:28 | exactly one RC command with the four given channel values, in order, is appended to the log |
| `Tello.Drone.Takeoff` | adding_set_speed_bar.py:69 | exactly one takeoff command is appended to the log |
| `Tello.Drone.Land` | adding_set_speed_bar.py:67 | exactly one land command is appended to the log |
| `Tello.Drone.ReportFlying` | adding_set_speed_bar.py:66 | stands for the SDK's update (outside this source) of the flag read here: the flag becomes the reported value, and nothing else changes |
| `FlightCommands.Name` | flight_commands.py:37-60 | definition: the eight strings the chain compares against, "upward", "downward", "forward", "backward", "yaw_left", "yaw_right", "left", "right"; `ParseName` proves no two directions share one |
| `FlightCommands.ParseDirection` | flight_commands.py:37-60 | a recognised name is the name of the direction returned; an unrecognised name is the name of no direction |
| `FlightCommands.DirectionVector` | flight_commands.py:35-60 | an unknown name gives the vector at rest; a known direction sets only its own channel, to its sign times the speed, and leaves the other three at 0 |
| `FlightCommands.Dispatch` | flight_commands.py:62-63 | at most one command is sent; one is sent if and only if the vector is not all zeros, and it is that vector |
| `FlightCommands.Fly` | flight_commands.py:14-29 | the first four entries reach the drone unchanged, in the order left/right, forward/backward, up/down, yaw, as one command |
| `FlightCommands.StartFlying` | flight_commands.py:32-63 | the drone's log grows by exactly the commands `Dispatch` gives for the direction and speed |
| `FlightCommands.StopFlying` | flight_commands.py:66-68 | exactly the vector (0, 0, 0, 0) is sent, whatever came before |
| `FlightCommands.ParseName` | flight_commands.py:37-60 | each of the eight direction names is recognised as its own direction |
| `FlightCommands.KnownDirection` | flight_commands.py:35-60 | for each known direction its channel carries sign times speed, every other channel is 0, and exactly one channel is active when the speed is non-zero |
| `FlightCommands.DirectionTable` | flight_commands.py:37-60 | the eight concrete vectors: upward +ud, downward -ud, forward +fb, backward -fb, yaw_left -yaw, yaw_right +yaw, left -lr, right +lr |
| `FlightCommands.OppositeNegates` | flight_commands.py:37-60 | upward/downward, forward/backward, yaw_left/yaw_right and left/right give negated vectors on the same channel |
| `FlightCommands.UnknownSendsNothing` | flight_commands.py:35-63 | a name that is none of the eight gives the vector at rest and sends nothing |
| `FlightCommands.KnownDispatch` | flight_commands.py:35-63 | a known direction sends exactly one command when the speed is non-zero and nothing when it is 0 |
| `Controller.IsBarValue` | adding_set_speed_bar.py:39-41 | the values of the bar from 25 to 100 with resolution 25 (the type `BarValue`) are exactly 25, 50, 75 and 100 |
| `Controller.PressDirection` | adding_set_speed_bar.py:78-99 | the press bindings w/a/s/d/Up/Down/Left/Right to upward/yaw_left/downward/yaw_right/forward/backward/left/right; every bound name is a recognised direction whose key is the pressed key again |
| `Controller.Initial` | adding_set_speed_bar.py:28-44 | the state after construction: speed 50 (line 35), bar 50 (line 44), on the ground, nothing sent, and the session invariant holds |
| `Controller.BindingsBijective` | adding_set_speed_bar.py:78-100 | every key press is bound to a recognised direction, and the table w/a/s/d/Up/Down/Left/Right to upward/yaw_left/downward/yaw_right/forward/backward/left/right is one-to-one and onto |
| `Controller.BindingsDistinct` | adding_set_speed_bar.py:78-99 | two different keys are bound to two different directions |
| `Controller.InitialState` | adding_set_speed_bar.py:34-44 | the initial speed and the bar's initial setting are both 50, and the session invariant holds at the start |
| `Controller.Step` | adding_set_speed_bar.py:57-100 | one event never removes or rewrites a sent command and sends at most one; the flying flag changes only on a report from the SDK, to the reported value |
| `Controller.Run` | adding_set_speed_bar.py:77-100 | a sequence of events only extends the log, by at most one command per event; without SDK reports the flying flag stays as it was |
| `Controller.PressAtBarSpeed` | adding_set_speed_bar.py:78-99 | at any bar speed a key press sends exactly one command, on one channel, within +/-100 |
| `Controller.StepPreservesInv` | adding_set_speed_bar.py:39-100 | every event keeps the speed and the bar on the bar's values and every sent command within limits |
| `Controller.RunPreservesInv` | adding_set_speed_bar.py:39-100 | the same for any sequence of events |
| `Controller.SessionSafe` | adding_set_speed_bar.py:34-100 | in every session from the start, the speed is 25..100 in steps of 25 and every RC command sent has at most one active channel, within +/-100 |
| `Controller.ReleaseStops` | adding_set_speed_bar.py:79-100 | after the release of any of the eight keys, the last command sent is (0, 0, 0, 0) |
| `Controller.PressInSession` | adding_set_speed_bar.py:78-99 | in every session, a key press sends exactly one command, the non-zero vector of its direction at the current speed |
| `Controller.SpeedStable` | adding_set_speed_bar.py:57-59 | no event other than "Reset Speed" changes the drone's speed |
| `Controller.PressAfterReset` | adding_set_speed_bar.py:57-99 | after "Reset Speed", later presses use the bar value read at the reset, even if the bar has moved since |
| `Controller.ToggleFlightChooses` | adding_set_speed_bar.py:64-69 | the takeoff/land button sends exactly one command: land when flying, takeoff otherwise |
| `Controller.RunAppend` | adding_set_speed_bar.py:77-100 | handling two event sequences one after the other is handling their concatenation |
| `Controller.LandAfterReport` | adding_set_speed_bar.py:64-67 | after any events, once the SDK reports the drone airborne, a later button press sends exactly a land command, whatever the pilot does in between as long as no other report arrives |
| `Controller.TakeoffThenLand` | adding_set_speed_bar.py:64-69 | from the start, button, airborne report, button sends exactly takeoff then land |
| `Controller.DroneController.constructor` | adding_set_speed_bar.py:17-44 | the new controller owns a fresh drone with speed 50, bar at 50, on the ground, nothing sent, and the session invariant holds |
| `Controller.DroneController.MoveSpeedBar` | adding_set_speed_bar.py:39-44 | moving the bar changes only the bar's value |
| `Controller.DroneController.UpdateSpeed` | adding_set_speed_bar.py:57-60 | the drone's speed becomes the bar's value, which is one of 25, 50, 75, 100, and nothing else changes |
| `Controller.DroneController.TakeoffLand` | adding_set_speed_bar.py:64-69 | land is sent when the drone is flying, takeoff otherwise, exactly one of the two |
| `Controller.DroneController.KeyPress` | adding_set_speed_bar.py:78-99 | a press sends exactly one command, the non-zero vector of the bound direction at the speed the drone holds at that moment |
| `Controller.DroneController.KeyRelease` | adding_set_speed_bar.py:79-100 | a release of any key sends the vector at rest |
| `Controller.DroneController.ReceiveReport` | adding_set_speed_bar.py:66 | the SDK's report sets the flying flag the button reads, and nothing else changes |
| `Controller.DroneController.Handle` | adding_set_speed_bar.py:47-100 | routing any event to its handler (key bindings, the "Reset Speed" and takeoff/land buttons, SDK reports) changes the state exactly as `Step` says and keeps the session invariant |

## Left out

- The window, widgets, packing, key binding, focus, the main loop and `after` scheduling are toolkit plumbing. Instead, the pilot's actions are the `Event` values that `Handle` routes to the handlers.
- The speed bar widget's own snapping of a dragged position to its resolution is toolkit behaviour. The model takes the bar's value as one of its four settings (`BarValue`).
- The video pipeline (frame reading, resizing, colour conversion, image display) and the `adding_videostream.py` variant are image processing done by foreign libraries.
- `Initial_setup.py` only opens a window with a label and a button that does nothing; it is toolkit plumbing.
- Threads and `time.sleep(0.05)`: each command sent from a new thread is modelled as appended to the log at once. The model therefore does not capture the order in which concurrent sends reach the drone. In particular, `Controller.ReleaseStops` holds of the model only: after a quick tap the press's threaded vector may reach the drone after the release's stop.
- The SDK: `connect`, `streamon`, `get_frame_read` and `end` are not modelled. The SDK's own clamping of RC values to +/-100 is not modelled either; `SessionSafe` shows the controller never needs it. When the SDK updates `is_flying` is not modelled: its reports are `SdkReports` events that may come at any point, and the controller only reads the flag.
- `Tello.Drone.constructor` leaves `speed` unconstrained. In the program, the attribute does not exist until the controller sets it to 50, which `Controller.DroneController.constructor` does.
- The unused `event` argument of `start_flying` and `stop_flying`, console messages, exception printing and `cleanup`/`exit()` are not modelled.
- Speeds are mathematical integers. The bar only yields 25 to 100, so no overflow or float arises.
