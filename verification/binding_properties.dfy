/**
 Properties of the key-event state machine: the exact effect of each key,
 the invariants every event sequence keeps, and the rebinding protocol.
 */
module BindingProperties {
  import opened Wrappers
  import opened AxisMapping
  import opened Binding

  /** In configuration mode a digit with nothing pending becomes the pending
      selection, whatever the device's axis count; with a selection already
      pending it changes nothing, and outside configuration mode it is ignored. */
  lemma DigitKey(s: State, d: DigitValue)
    ensures s.configMode && s.selected.None? ==> Step(s, KeyDown(Digit(d))) == s.(selected := Some(d))
    ensures s.configMode && s.selected.Some? ==> Step(s, KeyDown(Digit(d))) == s
    ensures !s.configMode ==> Step(s, KeyDown(Digit(d))) == s
  {
  }

  /** L, Y and T bind the pending axis to left X, left Y and right Y and clear
      the selection; without a pending selection, or outside configuration
      mode, they do nothing. */
  lemma RoleKey(s: State, k: Key)
    requires k in {KeyL, KeyY, KeyT}
    ensures s.configMode && s.selected.Some? ==>
      Step(s, KeyDown(k)) == s.(mapping := s.mapping.Set(RoleOf(k).value, s.selected.value), selected := None)
    ensures s.configMode && s.selected.None? ==> Step(s, KeyDown(k)) == s
    ensures !s.configMode ==> Step(s, KeyDown(k)) == s
  {
  }

  /** R in configuration mode first restores the default mapping; with a
      pending selection it then also binds that axis to right X and clears the
      selection. Outside configuration mode it does nothing. */
  lemma ResetKey(s: State)
    ensures s.configMode && s.selected.None? ==> Step(s, KeyDown(KeyR)) == s.(mapping := Default)
    ensures s.configMode && s.selected.Some? ==>
      Step(s, KeyDown(KeyR)) == s.(mapping := Default.Set(RX, s.selected.value), selected := None)
    ensures !s.configMode ==> Step(s, KeyDown(KeyR)) == s
  {
  }

  /** C only flips configuration mode: mapping and pending selection are kept,
      so pressing it twice restores the session exactly. */
  lemma ConfigToggle(s: State)
    ensures Step(s, KeyDown(KeyC)) == s.(configMode := !s.configMode)
    ensures Run(s, Press([KeyC, KeyC])) == s
  {
    TwoKeys(s, KeyC, KeyC);
  }

  /** The display toggles, in or out of configuration mode: A flips the UI and
      always turns the all-axes panel off, S flips that panel only while the
      UI is shown, D and V flip their own flag. */
  lemma DisplayKeys(s: State)
    ensures Step(s, KeyDown(KeyA)) == s.(showUi := !s.showUi, showAllAxes := false)
    ensures s.showUi ==> Step(s, KeyDown(KeyS)) == s.(showAllAxes := !s.showAllAxes)
    ensures !s.showUi ==> Step(s, KeyDown(KeyS)) == s
    ensures Step(s, KeyDown(KeyD)) == s.(showDebug := !s.showDebug)
    ensures Step(s, KeyDown(KeyV)) == s.(showValues := !s.showValues)
  {
  }

  /** D, V and S pressed twice give back the same session; A pressed twice
      does so exactly when the all-axes panel was off. */
  lemma ToggleTwice(s: State)
    ensures Run(s, Press([KeyD, KeyD])) == s
    ensures Run(s, Press([KeyV, KeyV])) == s
    ensures Run(s, Press([KeyS, KeyS])) == s
    ensures Run(s, Press([KeyA, KeyA])) == s <==> !s.showAllAxes
  {
    TwoKeys(s, KeyD, KeyD);
    TwoKeys(s, KeyV, KeyV);
    TwoKeys(s, KeyS, KeyS);
    TwoKeys(s, KeyA, KeyA);
    DisplayKeys(s);
    DisplayKeys(Step(s, KeyDown(KeyD)));
    DisplayKeys(Step(s, KeyDown(KeyV)));
    DisplayKeys(Step(s, KeyDown(KeyS)));
    DisplayKeys(Step(s, KeyDown(KeyA)));
  }

  /** Quitting, by window close or Escape, only clears `running`. */
  lemma StopEvents(s: State)
    ensures Step(s, Quit) == s.(running := false)
    ensures Step(s, KeyDown(Escape)) == s.(running := false)
    ensures Step(s, OtherEvent) == s
    ensures Step(s, KeyDown(OtherKey)) == s
  {
  }

  lemma TwoKeys(s: State, a: Key, b: Key)
    ensures Run(s, Press([a, b])) == Step(Step(s, KeyDown(a)), KeyDown(b))
  {
    var events := Press([a, b]);
    assert events[0] == KeyDown(a) && events[1] == KeyDown(b);
    var s1 := Step(s, KeyDown(a));
    assert Run(s, events) == Run(s1, events[1..]);
    assert events[1..][0] == KeyDown(b) && events[1..][1..] == [];
    assert Run(s1, events[1..]) == Run(Step(s1, KeyDown(b)), []);
  }

  /** The program starts with the default mapping, nothing pending, outside
      configuration mode, with debug, values and UI shown, the all-axes panel
      hidden, and the loop running. */
  lemma InitialSession()
    ensures Init.mapping == Default && Init.selected.None? && !Init.configMode
    ensures Init.showDebug && Init.showValues && Init.showUi && !Init.showAllAxes
    ensures Init.running
  {
  }

  /** The start-up session satisfies the invariant, so does every session an
      event sequence reaches from it. */
  lemma ReachableInv(events: seq<Event>)
    ensures Inv(Init)
    ensures Inv(Run(Init, events))
  {
  }

  /** Processing two batches one after the other is processing their concatenation. */
  lemma {:induction false} RunAppend(s: State, a: seq<Event>, b: seq<Event>)
    ensures Run(s, a + b) == Run(Run(s, a), b)
    decreases |a|
  {
    if |a| == 0 {
      assert a + b == b;
    } else {
      assert (a + b)[0] == a[0];
      assert (a + b)[1..] == a[1..] + b;
      RunAppend(Step(s, a[0]), a[1..], b);
    }
  }

  /** The loop keeps running after a batch exactly when it was running before
      and the batch holds no quit or Escape. */
  lemma {:induction false} RunningAfterBatch(s: State, events: seq<Event>)
    ensures Run(s, events).running <==> s.running && !HasStop(events)
    decreases |events|
  {
    if |events| > 0 {
      RunningAfterBatch(Step(s, events[0]), events[1..]);
      assert forall i :: 1 <= i < |events| ==> events[1..][i - 1] == events[i];
    }
  }

  /** The rebinding protocol: with nothing pending in configuration mode, a
      digit followed by a role key binds that role to the digit and leaves
      nothing pending; R additionally restores the defaults of the other roles. */
  lemma SelectThenAssign(s: State, n: DigitValue, k: Key)
    requires s.configMode && s.selected.None?
    requires k in {KeyL, KeyY, KeyR, KeyT}
    ensures Run(s, Press([Digit(n), k])).mapping.Get(RoleOf(k).value) == n
    ensures Run(s, Press([Digit(n), k])).selected.None?
    ensures k != KeyR ==> Run(s, Press([Digit(n), k])) == s.(mapping := s.mapping.Set(RoleOf(k).value, n))
    ensures k == KeyR ==> Run(s, Press([Digit(n), k])) == s.(mapping := Default.Set(RX, n))
  {
    TwoKeys(s, Digit(n), k);
  }

  /** A role key with no pending selection is a no-op. */
  lemma AssignWithoutSelection(s: State, k: Key)
    requires s.selected.None? && k in {KeyL, KeyY, KeyT}
    ensures Step(s, KeyDown(k)) == s
  {
    RoleKey(s, k);
  }

  /** A pending selection survives leaving and re-entering configuration
      mode: from start-up, C 3 C C L binds left X to axis 3. */
  lemma SelectionSurvivesConfigExit()
    ensures Run(Init, Press([KeyC, Digit(3), KeyC, KeyC, KeyL])).mapping == Default.Set(LX, 3)
    ensures Run(Init, Press([KeyC, Digit(3), KeyC, KeyC, KeyL])).selected.None?
  {
    var first, middle, last := Press([KeyC, Digit(3)]), Press([KeyC, KeyC]), Press([KeyL]);
    assert Press([KeyC, Digit(3), KeyC, KeyC, KeyL]) == first + middle + last;
    RunAppend(Init, first + middle, last);
    RunAppend(Init, first, middle);
    TwoKeys(Init, KeyC, Digit(3));
    var s2 := Run(Init, first);
    assert s2 == Init.(configMode := true, selected := Some(3));
    ConfigToggle(s2);
    assert last[1..] == [];
  }
}
