/**
 The per-frame render plan: which overlay elements are drawn, in which
 order and with which data, for a session and a device snapshot. Pixels,
 colours and fonts are not modelled; each element is one abstract item.
 */
module Renderer {
  import opened Wrappers
  import opened AxisMapping
  import opened AxisSource
  import opened Binding

  /** Half of the stick crosshair size (180 pixels), the reach of a full deflection. */
  const StickReach: int := 90

  /** How many raw axes the configuration overlay lists at most. */
  const ConfigRowLimit: nat := 10

  datatype Side = Left | Right

  /** One line of the configuration overlay's axis list. */
  datatype Row = Row(axis: nat, value: real, highlighted: bool)

  datatype DrawItem =
    | Background                                   // chroma-key fill
    | Stick(side: Side, x: real, y: real, invertX: bool, invertY: bool)
    | Label(side: Side)                            // "LEFT" / "RIGHT"
    | Values(lx: real, ly: real, rx: real, ry: real)
    | AllAxes(values: seq<real>)
    | Debug(name: string, numAxes: nat, numButtons: nat)
    | Guide                                        // key legend
    | NotConnected
    | ConfigOverlay(mapping: Mapping, rows: seq<Row>)

  function Abs(x: real): real {
    if x >= 0.0 then x else -x
  }

  /** Rows for axes `i`, `i + 1`, ... up to the first ten axes of the device;
      an axis is highlighted when it is deflected by more than half. */
  function ConfigRowsFrom(axes: seq<real>, i: nat): (rows: seq<Row>)
    requires i <= Min(|axes|, ConfigRowLimit)
    ensures |rows| == Min(|axes|, ConfigRowLimit) - i
    ensures forall j :: 0 <= j < |rows| ==>
      && rows[j].axis == i + j
      && rows[j].value == axes[i + j]
      && (rows[j].highlighted <==> (axes[i + j] > 0.5 || axes[i + j] < -0.5))
    decreases Min(|axes|, ConfigRowLimit) - i
  {
    if i == Min(|axes|, ConfigRowLimit) then []
    else
      [Row(i, axes[i], Abs(axes[i]) > 0.5)] + ConfigRowsFrom(axes, i + 1)
  }

  function ConfigRows(axes: seq<real>): seq<Row> {
    ConfigRowsFrom(axes, 0)
  }

  /** The values the four roles read this frame. */
  function Reading(s: State, joy: Joystick, role: Role): real {
    GetAxisValue(Some(joy), s.mapping.Get(role))
  }

  /** The two sticks and their labels, drawn whenever a device is present. */
  function StickLayer(s: State, joy: Joystick): seq<DrawItem> {
    [ Stick(Left, Reading(s, joy, LX), Reading(s, joy, LY), Inverted(LX), Inverted(LY)),
      Stick(Right, Reading(s, joy, RX), Reading(s, joy, RY), Inverted(RX), Inverted(RY)),
      Label(Left), Label(Right) ]
  }

  /** The elements drawn only while the UI is shown. */
  function Chrome(s: State, joy: Joystick): seq<DrawItem> {
    (if s.showValues then [Values(Reading(s, joy, LX), Reading(s, joy, LY), Reading(s, joy, RX), Reading(s, joy, RY))] else [])
    + (if s.showAllAxes then [AllAxes(joy.axes)] else [])
    + (if s.showDebug then [Debug(joy.name, joy.NumAxes(), joy.buttons)] else [])
    + [Guide]
  }

  /** Everything between the background and the configuration overlay. */
  function Body(s: State, dev: Device): seq<DrawItem> {
    match dev
    case None => [NotConnected]
    case Some(joy) => StickLayer(s, joy) + (if s.showUi then Chrome(s, joy) else [])
  }

  /** The configuration overlay, drawn on top only when a device is present. */
  function ConfigLayer(s: State, dev: Device): seq<DrawItem> {
    if s.configMode && dev.Some? then [ConfigOverlay(s.mapping, ConfigRows(dev.value.axes))] else []
  }

  /** The whole frame, back to front. */
  function RenderPlan(s: State, dev: Device): (plan: seq<DrawItem>)
    ensures |plan| >= 2 && plan[0] == Background
    ensures dev.None? ==> plan == [Background, NotConnected]
  {
    [Background] + Body(s, dev) + ConfigLayer(s, dev)
  }

  /** Python's `int()` on a float: truncation toward zero. */
  function Trunc(x: real): (n: int)
    ensures x >= 0.0 ==> 0 <= n && n as real <= x < n as real + 1.0
    ensures x < 0.0 ==> n <= 0 && n as real - 1.0 < x <= n as real
  {
    if x >= 0.0 then x.Floor else -((-x).Floor)
  }

  /** Pixel offset of a stick cap from its crosshair centre along one axis,
      after the role's sign inversion. */
  function StickOffset(v: real, invert: bool): (d: int)
    requires -1.0 <= v <= 1.0
    ensures -StickReach <= d <= StickReach
    ensures (if invert then -v else v) > 0.0 ==> d >= 0
    ensures (if invert then -v else v) < 0.0 ==> d <= 0
  {
    var w := if invert then -v else v;
    Trunc(w * StickReach as real)
  }
}
