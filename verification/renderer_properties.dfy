/**
 What the render plan promises: the sticks are never hidden while a device
 is present, the auxiliary chrome follows its toggles, and the configuration
 overlay is drawn last with one row per listed axis.
 */
module RendererProperties {
  import opened Wrappers
  import opened AxisMapping
  import opened AxisSource
  import opened Binding
  import opened BindingProperties
  import opened Renderer

  /** With a device present, both sticks (showing the mapped axes with the
      fixed inversions) and both labels are drawn for every toggle combination. */
  lemma SticksAlwaysDrawn(s: State, dev: Device)
    requires dev.Some?
    ensures Stick(Left, GetAxisValue(dev, s.mapping.Get(LX)), GetAxisValue(dev, s.mapping.Get(LY)), false, true) in RenderPlan(s, dev)
    ensures Stick(Right, GetAxisValue(dev, s.mapping.Get(RX)), GetAxisValue(dev, s.mapping.Get(RY)), false, true) in RenderPlan(s, dev)
    ensures Label(Left) in RenderPlan(s, dev) && Label(Right) in RenderPlan(s, dev)
  {
    var plan := RenderPlan(s, dev);
    assert plan[1..5] == StickLayer(s, dev.value);
  }

  /** Without a device nothing but the notice is drawn: no stick, no chrome,
      not even the configuration overlay. */
  lemma NoDeviceOnlyNotice(s: State)
    ensures NotConnected in RenderPlan(s, None)
    ensures forall it :: it in RenderPlan(s, None) ==> it == Background || it == NotConnected
  {
  }

  /** An item is in the frame exactly when it is the background, part of the
      body, or the configuration overlay. */
  lemma Members(s: State, dev: Device, it: DrawItem)
    ensures it in RenderPlan(s, dev) <==> it == Background || it in Body(s, dev) || it in ConfigLayer(s, dev)
  {
  }

  /** Numeric values appear exactly when a device is present, the UI is shown
      and the values toggle is on. */
  lemma ValuesFollowToggles(s: State, dev: Device)
    ensures (exists it :: it in RenderPlan(s, dev) && it.Values?) <==> dev.Some? && s.showUi && s.showValues
    ensures dev.Some? && s.showUi && s.showValues ==>
      Values(Reading(s, dev.value, LX), Reading(s, dev.value, LY), Reading(s, dev.value, RX), Reading(s, dev.value, RY))
        in RenderPlan(s, dev)
  {
    if dev.Some? && s.showUi && s.showValues {
      var it := Chrome(s, dev.value)[0];
      Members(s, dev, it);
    } else {
      forall it | it in RenderPlan(s, dev) ensures !it.Values? {
        Members(s, dev, it);
      }
    }
  }

  /** The all-axes panel appears exactly when a device is present, the UI is
      shown and the panel's toggle is on, and then lists every axis with no cap. */
  lemma AllAxesFollowToggles(s: State, dev: Device)
    ensures (exists it :: it in RenderPlan(s, dev) && it.AllAxes?) <==> dev.Some? && s.showUi && s.showAllAxes
    ensures forall it :: it in RenderPlan(s, dev) && it.AllAxes? ==> it == AllAxes(dev.value.axes)
  {
    forall it | it in RenderPlan(s, dev) && it.AllAxes?
      ensures dev.Some? && s.showUi && s.showAllAxes && it == AllAxes(dev.value.axes)
    {
      AllAxesOnlyFromChrome(s, dev, it);
    }
    if dev.Some? && s.showUi && s.showAllAxes {
      var it := AllAxes(dev.value.axes);
      assert it in Chrome(s, dev.value);
      Members(s, dev, it);
    }
  }

  lemma AllAxesOnlyFromChrome(s: State, dev: Device, it: DrawItem)
    requires it in RenderPlan(s, dev) && it.AllAxes?
    ensures dev.Some? && s.showUi && s.showAllAxes && it == AllAxes(dev.value.axes)
  {
    Members(s, dev, it);
    assert it in Body(s, dev);
    assert dev.Some? && it !in StickLayer(s, dev.value);
    assert s.showUi && it in Chrome(s, dev.value);
  }

  /** The debug block appears exactly when a device is present, the UI is
      shown and the debug toggle is on, and then reports the device's name,
      axis count and button count. */
  lemma DebugFollowsToggles(s: State, dev: Device)
    ensures (exists it :: it in RenderPlan(s, dev) && it.Debug?) <==> dev.Some? && s.showUi && s.showDebug
    ensures dev.Some? && s.showUi && s.showDebug ==>
      Debug(dev.value.name, dev.value.NumAxes(), dev.value.buttons) in RenderPlan(s, dev)
  {
    if dev.Some? && s.showUi && s.showDebug {
      var it := Debug(dev.value.name, dev.value.NumAxes(), dev.value.buttons);
      assert it in Chrome(s, dev.value);
      Members(s, dev, it);
    } else {
      forall it | it in RenderPlan(s, dev) ensures !it.Debug? {
        Members(s, dev, it);
      }
    }
  }

  /** The key legend appears exactly when a device is present and the UI is shown. */
  lemma GuideFollowsUi(s: State, dev: Device)
    ensures Guide in RenderPlan(s, dev) <==> dev.Some? && s.showUi
  {
    Members(s, dev, Guide);
    if dev.Some? && s.showUi {
      assert Guide in Chrome(s, dev.value);
    }
  }

  /** The configuration overlay is the last item exactly in configuration mode
      with a device present, appears nowhere else, shows the current mapping
      and lists min(axis count, 10) axes, highlighting those deflected by
      more than half. */
  lemma ConfigOverlayLast(s: State, dev: Device)
    ensures var plan := RenderPlan(s, dev);
      plan[|plan| - 1].ConfigOverlay? <==> s.configMode && dev.Some?
    ensures var plan := RenderPlan(s, dev);
      forall i :: 0 <= i < |plan| - 1 ==> !plan[i].ConfigOverlay?
    ensures s.configMode && dev.Some? ==>
      var last := RenderPlan(s, dev)[|RenderPlan(s, dev)| - 1];
      && last.mapping == s.mapping
      && |last.rows| == Min(dev.value.NumAxes(), 10)
      && forall j :: 0 <= j < |last.rows| ==>
           last.rows[j].axis == j && last.rows[j].value == dev.value.axes[j]
           && (last.rows[j].highlighted <==> Abs(dev.value.axes[j]) > 0.5)
  {
    var plan := RenderPlan(s, dev);
    var body := [Background] + Body(s, dev);
    assert forall it :: it in body ==> !it.ConfigOverlay?;
    assert plan == body + ConfigLayer(s, dev);
  }

  /** Toggling a display flag or configuration mode twice yields the very
      same frame as before. */
  lemma ToggleTwiceSameFrame(s: State, dev: Device)
    ensures RenderPlan(Run(s, Press([KeyD, KeyD])), dev) == RenderPlan(s, dev)
    ensures RenderPlan(Run(s, Press([KeyV, KeyV])), dev) == RenderPlan(s, dev)
    ensures RenderPlan(Run(s, Press([KeyS, KeyS])), dev) == RenderPlan(s, dev)
    ensures RenderPlan(Run(s, Press([KeyC, KeyC])), dev) == RenderPlan(s, dev)
  {
    ToggleTwice(s);
    ConfigToggle(s);
  }

  /** A is the one display toggle that is not undone by pressing it twice:
      the first press always turns the all-axes panel off, so the frame comes
      back unchanged exactly when that panel was not being drawn. */
  lemma ATwiceSameFrame(s: State, dev: Device)
    requires Inv(s)
    ensures RenderPlan(Run(s, Press([KeyA, KeyA])), dev) == RenderPlan(s, dev) <==> !(s.showAllAxes && dev.Some?)
  {
    ToggleTwice(s);
    var t := Run(s, Press([KeyA, KeyA]));
    TwoKeys(s, KeyA, KeyA);
    DisplayKeys(s);
    DisplayKeys(Step(s, KeyDown(KeyA)));
    if s.showAllAxes && dev.Some? {
      assert s.showUi && t.showUi && !t.showAllAxes;
      AllAxesFollowToggles(s, dev);
      AllAxesFollowToggles(t, dev);
      assert (exists it :: it in RenderPlan(s, dev) && it.AllAxes?);
      assert !(exists it :: it in RenderPlan(t, dev) && it.AllAxes?);
    }
  }

  /** Binding scenario: from start-up, C 3 L makes the left stick's X show
      raw axis 3 and the overlay's mapping summary report it. */
  lemma BindLeftXScenario(joy: Joystick)
    requires joy.NumAxes() > 3
    ensures var s := Run(Init, Press([KeyC, Digit(3), KeyL]));
      && s.mapping.Get(LX) == 3
      && RenderPlan(s, Some(joy))[1] == Stick(Left, joy.axes[3], joy.axes[1], false, true)
      && RenderPlan(s, Some(joy))[|RenderPlan(s, Some(joy))| - 1].mapping == Default.Set(LX, 3)
  {
    var s := BindLeftXState();
    var plan := RenderPlan(s, Some(joy));
    assert plan[1..5] == StickLayer(s, joy);
    ConfigOverlayLast(s, Some(joy));
  }

  lemma BindLeftXState() returns (s: State)
    ensures s == Run(Init, Press([KeyC, Digit(3), KeyL]))
    ensures s == Init.(configMode := true, mapping := Default.Set(LX, 3))
  {
    var s1 := Step(Init, KeyDown(KeyC));
    assert Press([KeyC, Digit(3), KeyL]) == Press([KeyC]) + Press([Digit(3), KeyL]);
    RunAppend(Init, Press([KeyC]), Press([Digit(3), KeyL]));
    assert Press([KeyC])[1..] == [];
    assert Run(Init, Press([KeyC])) == s1;
    SelectThenAssign(s1, 3, KeyL);
    s := Run(Init, Press([KeyC, Digit(3), KeyL]));
  }

  /** A stick offset is antisymmetric in the raw value. */
  lemma StickOffsetOdd(v: real, invert: bool)
    requires -1.0 <= v <= 1.0
    ensures StickOffset(-v, invert) == -StickOffset(v, invert)
  {
  }

  /** Default mapping, raw axis 0 at 0.8 and axis 1 at -0.3: the left cap
      sits 72 pixels right of and 27 pixels below the centre, the inverted
      Y cancelling the raw sign. */
  lemma LeftStickScenario()
    ensures StickOffset(0.8, Inverted(LX)) == 72
    ensures StickOffset(-0.3, Inverted(LY)) == 27
  {
  }
}
