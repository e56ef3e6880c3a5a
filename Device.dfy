/**
 * The `Maestro` wrapper object. The libusb context, device list and
 * handle are foreign state; the model keeps the index of the device that
 * was opened in place of the handle, takes the outcome of the open as a
 * parameter, and records every set-target control transfer, in order, in
 * `log`.
 */
module Device {
  import opened Conversion
  import opened Discovery

  /** One set-target control transfer: a servo channel and a target in quarter-microseconds. */
  datatype Transfer = Transfer(servo: int, command: int)

  class Maestro {
    /** Whether initialise found a Maestro; the open itself may still have failed. */
    var valid: bool
    /** The device that was opened, as an index into the device list; None is the null handle. */
    var handle: Option<nat>
    /** The set-target transfers issued so far, oldest first. */
    var log: seq<Transfer>

    /**
     * The constructor starts from a null handle and stores the result of
     * initialise. `opens` is the outcome of `libusb_open`, which the
     * source does not check.
     */
    constructor (devices: seq<Descriptor>, opens: bool)
      ensures valid <==> exists k :: 0 <= k < |devices| && IsMaestro(devices[k])
      ensures handle.Some? <==> valid && opens
      ensures handle.Some? ==> handle.value < |devices| && IsMaestro(devices[handle.value])
      ensures handle.Some? ==> forall k :: 0 <= k < handle.value ==> !IsMaestro(devices[k])
      ensures log == []
    {
      valid := false;
      handle := None;
      log := [];
      new;
      valid := Initialise(devices, opens);
    }

    /**
     * Tries to open the first Maestro in the device list, if there is one,
     * and reports whether it found one. The report does not depend on
     * whether the open succeeded (`opens`): a failed open leaves the
     * handle as it was, and so does a search that finds nothing.
     */
    method Initialise(devices: seq<Descriptor>, opens: bool) returns (found: bool)
      modifies this`handle
      ensures found <==> exists k :: 0 <= k < |devices| && IsMaestro(devices[k])
      ensures found && opens ==> handle.Some? && handle.value < |devices| && IsMaestro(devices[handle.value])
      ensures found && opens ==> forall k :: 0 <= k < handle.value ==> !IsMaestro(devices[k])
      ensures !(found && opens) ==> handle == old(handle)
    {
      var r := FindMaestro(devices);
      if r.Some? {
        if opens {
          handle := r;
        }
        return true;
      }
      return false;
    }

    /** Issues one set-target transfer. Its outcome is ignored, as in the source. */
    method SetTarget(servo: int, command: int)
      modifies this`log
      ensures log == old(log) + [Transfer(servo, command)]
    {
      log := log + [Transfer(servo, command)];
    }

    /** Converts an angle in degrees to a clamped target and sends it. */
    method SetPosition(servo: int, pos: real)
      modifies this`log
      ensures log == old(log) + [Transfer(servo, PositionCommand(pos))]
      ensures MinCommand <= log[|log| - 1].command <= MaxCommand
    {
      var command := Truncate(4.0 * (1472.0 + (pos / 180.0) * (2400.0 - 544.0)));
      if command < 4 * 800 {
        command := 4 * 800;
      }
      if command > 4 * 2144 {
        command := 4 * 2144;
      }
      SetTarget(servo, command);
    }

    /** Sends the out-of-band target 0, which stops the servo's pulses. */
    method Disable(servo: int)
      modifies this`log
      ensures log == old(log) + [Transfer(servo, DisabledCommand)]
    {
      SetTarget(servo, 0);
    }
  }
}
