# Controller overlay: key-driven state machine and render plan

A Dafny model of the core of `controller_overlay_improved.py`, a pygame overlay
that draws a game controller's two analog sticks on a chroma-key background
for streaming. The model covers:

- **AxisMapping** (`axis_mapping.dfy`): the four roles `lx`, `ly`, `rx`, `ry`,
  the role -> axis-index table with its default (0, 1, 3, 2), and the fixed
  per-role inversion (`ly` and `ry` negated).
- **AxisSource** (`axis_source.dfy`): `get_axis_value`. The controller is
  `Option<Joystick>`, where a joystick is its name, its axis values and its
  button count. A read gives the device value only for a present device and
  an index below the axis count. Otherwise it gives the neutral `0.0`.
- **Binding** (`binding.dfy`, `binding_properties.dfy`): the key handling of
  the main loop as a pure `Step(state, event)`. The session state holds the
  mapping, the pending `selected_axis`, `config_mode`, the four display
  toggles and `running`. A key press runs in two phases, as in the source:
  1. the toggle `if/elif` chain (`Toggle`);
  2. the configuration block (`Configure`), which reads `config_mode` after
     phase 1. It splits into `SelectDigit` and `AssignPending`.

  `Run` folds a batch of events.
- **Renderer** (`renderer.dfy`, `renderer_properties.dfy`): one frame as an
  abstract back-to-front list of draw items. The items are the background,
  both sticks with the values they show, both labels, numeric values, the
  all-axes panel, the debug block, the key legend, the "not connected" notice
  and the configuration overlay with its rows. `StickOffset` gives the pixel
  offset of a stick cap, with Python's truncating `int()`.
- **FrameLoop** (`frame_loop.dfy`): the `while running` loop over frames. Each
  frame drains its events and then draws.

Behaviour of the code that the model reproduces on purpose:

- `R` in configuration mode always restores the default mapping in phase 1.
  With a pending selection, phase 2 then binds that axis to `rx`. So `R`
  with pending `n` gives the default mapping with `rx := n`.
- The inner reset branch of the phase-2 `R` case (lines 235-238) can never
  run. `Binding.AssignPending` marks it with `assert false`, which the
  verifier discharges.
- `C` does not clear the pending selection. A selection made before leaving
  configuration mode is still pending after re-entering it.
- A digit pressed while a selection is pending changes no state. Line 217
  compares it with the axis count only to decide whether to log. The
  selected digit itself is never checked against the axis count.
- Events after a quit in the same batch are still processed, and that frame
  is still drawn.
- The numeric-values block prints `lx`, `ly`, `rx`, `ry` under the captions
  "RX", "RY", "LX", "LY". The model keeps the values in drawing order and
  leaves out the captions.

More behaviour of the code a reader might not expect:

- Toggling configuration mode does not clear the selection.
- The all-axes panel lists every axis, not at most ten.
- Without a device, configuration mode draws no overlay at all, not even the
  mapping summary.
- Reset does not simply clear the selection: with a selection pending, `R`
  assigns right X after resetting.
- Pressing a display toggle twice restores the frame for D, V and S, but not
  always for A. The first A press always turns the all-axes panel off, so A
  twice changes the frame whenever that panel was on and a device is present.

## Model

| member | source | states |
|---|---|---|
| AxisMapping.Mapping.Set | controller_overlay_improved.py:221-242 | rebinding one role stores the index for that role and leaves the other three roles unchanged |
| AxisMapping.Defaults | controller_overlay_improved.py:78-89 | the start-up mapping is lx=0, ly=1, rx=3, ry=2, all below 10; only the two Y roles are inverted |
| AxisMapping.SetKeepsDigitRange | controller_overlay_improved.py:211-242 | storing a digit keeps every role's index in 0..9 |
| AxisSource.GetAxisValue | controller_overlay_improved.py:140-148 | 0.0 with no device or an index at or above the axis count; otherwise the device's value at that index; never fails |
| AxisSource.GetAxisValueBounded | controller_overlay_improved.py:140-148 | the read stays in [-1, 1] when the device's values do |
| AxisSource.NonNeutralMeansReadable | controller_overlay_improved.py:143-148 | a non-zero read implies a present device and an in-range index |
| Binding.Toggle | controller_overlay_improved.py:189-207 | phase 1 keeps the invariant, never touches the selection, clears running exactly on Escape, and flips config mode exactly on C |
| Binding.SelectDigit | controller_overlay_improved.py:211-218 | the digit phase changes only the pending selection and keeps the invariant |
| Binding.AssignPending | controller_overlay_improved.py:221-242 | assignment changes only the mapping and the selection, and keeps the invariant; the reset branch at 235-238 is unreachable |
| Binding.Configure | controller_overlay_improved.py:210-242 | phase 2 changes only the mapping and the selection, and keeps the invariant |
| Binding.Step | controller_overlay_improved.py:185-242 | one event keeps the invariant (indices in 0..9, all-axes implies UI); running never comes back on and changes only on quit/Escape; config mode flips exactly on C |
| Binding.Run | controller_overlay_improved.py:185-242 | a batch of events keeps the invariant, and running never comes back on |
| BindingProperties.DigitKey | controller_overlay_improved.py:210-218 | in config mode with nothing pending, a digit becomes the selection with no axis-count check; with a selection pending, or outside config mode, the state is unchanged |
| BindingProperties.RoleKey | controller_overlay_improved.py:221-242 | L/Y/T with pending n in config mode set lx/ly/ry to n (the key-to-role table `Binding.RoleOf`) and clear the selection, changing nothing else; otherwise they are no-ops |
| BindingProperties.ResetKey | controller_overlay_improved.py:205-238 | R in config mode: the exact default with nothing pending; the default with rx := n and the selection cleared when n is pending; a no-op outside config mode |
| BindingProperties.ConfigToggle | controller_overlay_improved.py:203-210 | C flips only config mode and keeps the mapping and the pending selection; C twice restores the state |
| BindingProperties.DisplayKeys | controller_overlay_improved.py:191-202 | A flips the UI and forces all-axes off; S flips all-axes only while the UI is shown; D and V flip their own flag; each changes nothing else |
| BindingProperties.ToggleTwice | controller_overlay_improved.py:191-202 | D, V and S pressed twice are the identity; A pressed twice is the identity iff all-axes was off |
| BindingProperties.StopEvents | controller_overlay_improved.py:185-190 | window close and Escape only clear running; other events and keys change nothing |
| BindingProperties.InitialSession | controller_overlay_improved.py:89-96 | the start-up session `Binding.Init`: default mapping, no selection (line 183), config mode off, debug/values/UI on, all-axes off, running (line 182) |
| BindingProperties.ReachableInv | controller_overlay_improved.py:81-96 | the start-up state satisfies the invariant, and so does every state reachable from it |
| BindingProperties.RunAppend | controller_overlay_improved.py:185-242 | processing two batches in turn equals processing their concatenation |
| BindingProperties.RunningAfterBatch | controller_overlay_improved.py:182-190 | running after a batch iff running before it and the batch holds no quit or Escape |
| BindingProperties.SelectThenAssign | controller_overlay_improved.py:210-242 | in config mode with nothing pending, a digit n then a role key binds that role to n and leaves nothing pending; after R the other roles are back at their defaults |
| BindingProperties.AssignWithoutSelection | controller_overlay_improved.py:221-242 | L/Y/T with no pending selection are no-ops |
| BindingProperties.SelectionSurvivesConfigExit | controller_overlay_improved.py:203-225 | from start-up, C 3 C C L binds lx to 3: the selection outlives leaving config mode |
| Renderer.ConfigRowsFrom | controller_overlay_improved.py:173-177 | the overlay lists axes 0 .. min(count,10)-1 in order with their values, and a row is highlighted iff the absolute value exceeds 0.5 |
| Renderer.RenderPlan | controller_overlay_improved.py:244-292 | the frame starts with the chroma fill; with no device it is only the fill and the "not connected" notice |
| Renderer.Trunc | controller_overlay_improved.py:112-113 | int() truncates toward zero: the result lies within one of x on the zero side |
| Renderer.StickOffset | controller_overlay_improved.py:101-113 | the cap offset stays within ±90 pixels for values in [-1,1] and is never of the opposite sign to the value after inversion |
| RendererProperties.SticksAlwaysDrawn | controller_overlay_improved.py:246-259 | with a device present, both sticks, showing the mapped axes with the fixed inversions, and both labels are drawn under every toggle combination |
| RendererProperties.NoDeviceOnlyNotice | controller_overlay_improved.py:285-292 | with no device the frame holds only the fill and the notice: no stick, no chrome, no config overlay |
| RendererProperties.ValuesFollowToggles | controller_overlay_improved.py:262-268 | numeric values appear iff a device is present, the UI is shown and show_values is on, and they carry the lx, ly, rx, ry reads in drawing order |
| RendererProperties.AllAxesFollowToggles | controller_overlay_improved.py:270-274 | the all-axes panel appears iff a device is present, the UI is shown and show_all_axes is on, and it carries every axis with no cap |
| RendererProperties.DebugFollowsToggles | controller_overlay_improved.py:276-280 | the debug block appears iff a device is present, the UI is shown and show_debug is on, and it carries the name, axis count and button count |
| RendererProperties.GuideFollowsUi | controller_overlay_improved.py:282-284 | the key legend appears iff a device is present and the UI is shown |
| RendererProperties.ConfigOverlayLast | controller_overlay_improved.py:150-179 | the config overlay is the last item iff config mode is on and a device is present, appears nowhere else, shows the mapping, and has min(count,10) rows highlighted iff the absolute value exceeds 0.5 |
| RendererProperties.ToggleTwiceSameFrame | controller_overlay_improved.py:191-204 | pressing D, V, S or C twice gives the very same frame |
| RendererProperties.ATwiceSameFrame | controller_overlay_improved.py:195-198 | for a reachable session, A pressed twice gives the same frame iff the all-axes panel was not being drawn (it was off, or no device is present) |
| RendererProperties.BindLeftXScenario | controller_overlay_improved.py:221-254 | from start-up, C 3 L makes the left stick show raw axis 3 and the overlay's mapping report lx=3 |
| RendererProperties.StickOffsetOdd | controller_overlay_improved.py:104-113 | negating the raw value negates the cap offset |
| RendererProperties.LeftStickScenario | controller_overlay_improved.py:101-113 | raw 0.8 on lx gives offset 72; raw -0.3 on the inverted ly gives offset 27 |
| FrameLoop.Loop | controller_overlay_improved.py:182-295 | at most one plan per frame; none once stopped; the first frame is drawn after its whole batch of events is applied |
| FrameLoop.FramesDrawn | controller_overlay_improved.py:182-295 | a running loop draws every frame up to and including the first one whose batch stops it, and no later frame |

## Left out

- Window creation, the window caption, fonts and text rendering, `pygame.display.update` and the 60 Hz `clock.tick` (lines 9-17, 59, 135-138, 294-295): these are library I/O.
- `keep_window_on_top` and its daemon thread (lines 20-56): OS window-manager calls and concurrency that never touch the modelled state.
- Joystick enumeration and initialisation (lines 62-75): the device is a parameter of the model instead. Its presence is fixed at start-up in the program, while the model lets each frame carry its own snapshot.
- All `print` logging, including the message for a second digit (line 218) and the read-error message in `get_axis_value` (lines 146-147).
- The device never fails anywhere in the model. In the program a failing read inside the `try` of `get_axis_value` (lines 142-147) is caught and yields `0.0`, while the unguarded reads `joy.get_axis` (lines 175 and 273), `get_numaxes` (lines 173, 217 and 272) and `get_name`/`get_numaxes`/`get_numbuttons` (lines 278-280) would raise out of the main loop. Neither failure is modelled.
- AxisSource.GetAxisValue: the caught-exception path to `0.0` (lines 145-147) is not modelled; the model reaches `0.0` only through the fall-through at line 148, for an absent device or an out-of-range index.
- Pixel positions, colours, the scrim's alpha, the crosshair lines and the text of each item: the render plan records which elements appear and what data they carry, not how they look.
- Renderer.StickOffset: computed over exact reals. A float product that rounds just below an integer before `int()` could land one pixel lower. Floating point is not modelled.
- `draw_throttle` (lines 121-133): it is never called.
- Process teardown after the loop (`pygame.quit`, `sys.exit`, lines 297-298).
