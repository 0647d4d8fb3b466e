/**
 Reading one axis from the (optional) controller, degrading to the neutral
 value instead of failing.
 */
module AxisSource {
  import opened Wrappers

  /** What the overlay polls from the controller each frame. */
  datatype Joystick = Joystick(name: string, axes: seq<real>, buttons: nat)
  {
    function NumAxes(): nat { |axes| }
  }

  /** `None` when no controller was found at start-up. */
  type Device = Option<Joystick>

  /** Raw axis values lie in [-1.0, 1.0]. */
  predicate WellFormed(dev: Device) {
    dev.Some? ==> forall i :: 0 <= i < |dev.value.axes| ==> -1.0 <= dev.value.axes[i] <= 1.0
  }

  /** Safe read of axis `i`: the device's value when a device is present and
      `i` is below its axis count, and the neutral 0.0 otherwise. */
  function GetAxisValue(dev: Device, i: nat): (v: real)
    ensures dev.None? ==> v == 0.0
    ensures dev.Some? && i >= dev.value.NumAxes() ==> v == 0.0
    ensures dev.Some? && i < dev.value.NumAxes() ==> v == dev.value.axes[i]
  {
    match dev
    case None => 0.0
    case Some(joy) => if i < joy.NumAxes() then joy.axes[i] else 0.0
  }

  /** The read stays a bounded scalar whenever the device reports bounded values. */
  lemma GetAxisValueBounded(dev: Device, i: nat)
    requires WellFormed(dev)
    ensures -1.0 <= GetAxisValue(dev, i) <= 1.0
  {
  }

  /** A non-zero read can only come from a present device and an in-range index. */
  lemma NonNeutralMeansReadable(dev: Device, i: nat)
    requires GetAxisValue(dev, i) != 0.0
    ensures dev.Some? && i < dev.value.NumAxes()
  {
  }
}
