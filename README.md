# Maestro swing test, modelled in Dafny

The program drives a USB-attached Pololu Maestro servo controller. It
finds the controller among the USB devices, then sweeps eight servos back
and forth in a triangle wave until it has reversed twice and reached or
passed the midpoint. Finally it switches every servo off. This project models the
three parts of `main.cpp` that carry logic and proves properties of them:

- **Conversion** (`Conversion.dfy`): `set_position` turns an angle in degrees
  into a Maestro target in quarter-microseconds, `4 * (1472 + pos / 180 * 1856)`.
  It truncates the value toward zero as C++'s `double`-to-`int` conversion
  does, then clamps it to `[3200, 8576]`. `disable` sends the out-of-band
  target `0`.
- **Discovery** (`Discovery.dfy`): `initialise` searches the device list in
  order. It accepts the first device with vendor `0x1ffb` and one of the
  product ids `0x0089`, `0x008a`, `0x008b`, `0x008c`.
- **Device** (`Device.dfy`): the `Maestro` class. The opened device is kept
  as an index into the device list, and the outcome of opening it is an
  input that the source never checks. Every set-target control transfer is
  appended to a `log` field, so that what was sent can be stated.
- **Swing** (`Swing.dfy`): the loop of `main`. The state is the angle, the
  direction and the reversal count `i`. `Step` is one tick's update and
  `SwingTest` is the whole program. The clock is replaced by an input
  sequence of elapsed times. The speed (20 degrees per second) and the
  largest angle (40 degrees) are parameters of the step, fixed at those
  values in `SwingTest`.

Methods that change state are proved against specification functions:
`PositionCommand` for `SetPosition`, `Advance` for `Step`, `TickCommands` and
`DisableCommands` for the per-tick and shutdown transfers, and `Replay` and
`Transcript` for the whole sweep. The lemmas state the properties of those
functions.

## Model

| member | source | states |
|---|---|---|
| `Conversion.Truncate` | main.cpp:60 | The `double` to `int` conversion rounds toward zero: for `x >= 0` the result is the largest integer not above `x`; for `x < 0` it is the smallest integer not below `x`. |
| `Conversion.Unclamped` | main.cpp:60 | The unclamped target is linear in the angle: 5888 (4 * 1472) at angle 0 and 7424 (4 * 1856) quarter-microseconds per 180 degrees. |
| `Conversion.Clamp` | main.cpp:61-62 | The two clamps in sequence: the result is always in `[3200, 8576]`, equals its argument inside that range, and is the nearer bound outside it. |
| `Conversion.PositionCommand` | main.cpp:57-64 | Every target that `set_position` sends, for every angle, lies in `[3200, 8576]`. |
| `Conversion.CommandWithinBounds` | main.cpp:60-62 | When the unclamped value lies inside the bounds, the target is the truncation of `4 * (1472 + pos / 180 * 1856)`, within one quarter-microsecond below the exact value. |
| `Conversion.CommandOutsideBounds` | main.cpp:61-62 | A truncated value below 3200 sends 3200, and one above 8576 sends 8576. |
| `Conversion.CentreAngle` | main.cpp:60 | Angle 0 gives the centre target 5888 (1472 us). |
| `Conversion.DocumentedRangeUnclamped` | main.cpp:59-62 | Every angle in the documented range -60 to 60 degrees is inside the bounds, so its target is the floor of the formula and the clamps never act. |
| `Conversion.TruncateMonotone` | main.cpp:60 | Truncation toward zero never decreases as its argument grows. |
| `Conversion.PositionCommandMonotone` | main.cpp:60-62 | `set_position` is monotone: a larger angle never gives a smaller target. |
| `Conversion.MirroredCommands` | main.cpp:60-62 | The targets for `pos` and `-pos` add up to 11775 or 11776, so they mirror each other about the centre 5888 to within one quarter-microsecond, clamps included. |
| `Conversion.PositionNeverDisables` | main.cpp:60-62 | `set_position` never sends the target 0 that `disable` uses. |
| `Discovery.DeviceMatchesVendorProduct` | main.cpp:9-14 | A device matches exactly when its descriptor has both the given vendor id and the given product id. |
| `Discovery.MatchesSomeProduct` | main.cpp:29-30 | A device matches the vendor id together with one of the four product ids exactly when it is a Maestro (vendor `0x1ffb`, product in `{0x0089, 0x008a, 0x008b, 0x008c}`). |
| `Discovery.FindMaestro` | main.cpp:33-42 | The nested search finds nothing exactly when no device in the list is a Maestro. Otherwise it returns the index of a Maestro, and no earlier device is one. |
| `Device.Maestro.constructor` | main.cpp:23-26 | `valid` holds exactly when the list contains a Maestro, whether or not opening it succeeded. The handle is non-null exactly when a Maestro was found and the open succeeded, and is then the first Maestro in list order. The log starts empty. |
| `Device.Maestro.Initialise` | main.cpp:27-43 | Returns true exactly when the list contains a Maestro, even when its open fails. A successful open sets the handle to the first Maestro in list order. A failed open, or a search that finds nothing, leaves the handle unchanged. |
| `Device.Maestro.SetTarget` | main.cpp:52-55 | Appends exactly one transfer `(servo, command)` to the log. |
| `Device.Maestro.SetPosition` | main.cpp:57-64 | Appends exactly `(servo, PositionCommand(pos))`, a target within `[3200, 8576]`. |
| `Device.Maestro.Disable` | main.cpp:66-69 | Appends exactly `(servo, 0)`. |
| `Swing.Advance` | main.cpp:99-104 | A tick either keeps the move by `direction * speed * elapsed`, leaving direction and `i` unchanged, or leaves the angle unchanged, negates the direction and increments `i` by one. It reverses exactly when the attempted angle's magnitude exceeds `maxPos`. It keeps the direction a unit and keeps the angle within `maxPos`, whatever the elapsed time. |
| `Swing.Step` | main.cpp:99-104 | The loop body's add-then-undo update computes exactly `Advance`. |
| `Swing.Continues` | main.cpp:88 | For a unit direction, the loop goes on exactly when there have been fewer than two reversals, or the angle is still below the midpoint while moving up, or above it while moving down. |
| `Swing.ReplayBounded` | main.cpp:82-83 | Every state reached from a bounded start, such as `position = 0`, `direction = 1`, by any sequence of ticks keeps the angle within `maxPos` and the direction in `{1, -1}`. |
| `Swing.SweepNeverClamps` | main.cpp:85 | With `maxPos` at most 60, every angle a sweep commands and its negation are inside the clamping bounds. |
| `Swing.TickCommands` | main.cpp:94-97 | One tick sends one transfer per channel, in the tick's channel order, and every target is within `[3200, 8576]`. |
| `Swing.TickCommandsShape` | main.cpp:94-97 | A tick sends 8 transfers to channels 1, 2, 0, 3, 4, 5, 6, 7 in that order. The right servo gets the negated angle and every other servo the angle. Every target is within `[3200, 8576]`. The right servo's target mirrors the left's about 5888 to within one quarter-microsecond (the two targets sum to 11775 or 11776). |
| `Swing.TranscriptShape` | main.cpp:88-105 | A sweep of n ticks sends 8n transfers, and none of them is a disabling target. |
| `Swing.DisableCommands` | main.cpp:106-108 | The shutdown sends 8 transfers, all with the disabling target 0, and every channel 0 to 7 receives one. |
| `Swing.CommandAll` | main.cpp:94-97 | Appends exactly one tick's transfers, `TickCommands(position)`, to the log. |
| `Swing.DisableAll` | main.cpp:106-108 | Appends `(servo, 0)` for channels 1, 2, 0, 3, 4, 5, 6, 7 in that order. |
| `Swing.SwingTest` | main.cpp:72-110 | The whole run, from the state `0, 1, 0`. `found` says whether a Maestro exists, whatever the outcome of the open. The guard held before every tick that ran. The loop exits exactly when the guard `i < 2 or position * direction < 0` fails. Every state reached stays within 40 degrees. The transfers are the ticks' transcript, followed by the eight disables only when the loop exited. |

## Left out

- The libusb calls (`libusb_init`, `libusb_get_device_list`, `libusb_open`, `libusb_control_transfer`, `libusb_close`, `libusb_free_device_list`, `libusb_exit`) and the destructor: these are foreign I/O. The device list is an input sequence of descriptors. A transfer is a log entry, and its result is ignored as in the source.
- Device.Maestro.Initialise: the outcome of `libusb_open` is an input (`opens`), not something the model decides. The source ignores it: `initialise` returns true even when the open fails, and the handle then stays null. The model follows this, so `valid` does not imply that the handle is non-null.
- Device.Maestro.SetTarget: the log keeps the servo and target as `int`s, whereas the control transfer passes them as 16-bit unsigned `wIndex` and `wValue`, which would reduce values outside [0, 65535] modulo 65536. Every call the program makes is in range (channels 0 to 7, targets 0 or within [3200, 8576]), so no behaviour of the program is lost.
- A negative count from `libusb_get_device_list` (an error) is not modelled separately: the loop then does not run, which is the same as an empty list.
- The control transfer's request type `0x40`, the request code `REQUEST_SET_TARGET` and the 5000 ms timeout are not modelled. `protocol.h`, which defines the request code, is not part of this model.
- `main` never checks whether a device was found or opened. The model logs transfers in every case; it does not model what libusb does with a null handle.
- The wall clock (`std::chrono::system_clock`) is replaced by a sequence of elapsed times, which may be negative because that clock is not monotonic.
- Swing.SwingTest: termination of the sweep is not proved; it depends on the clock, and with zero elapsed times the loop need not end. When the elapsed sequence runs out before the guard fails, the model stops there, reports `finished` false and sends no disables, whereas the program would keep looping.
- Floating point: all arithmetic is over exact reals. IEEE-754 rounding is not modelled, including in the undo step `position -= ...`, which over reals restores the angle exactly. The overflow of the `double`-to-`int` conversion for huge angles (undefined behaviour in C++) is not modelled either; the model truncates exactly for every angle.
