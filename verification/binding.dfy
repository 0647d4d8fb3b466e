/**
 The keyboard-driven state machine of the overlay's main loop: display
 toggles, quitting, and the two-step "select an axis digit, then press a role
 key" rebinding protocol of configuration mode.
 */
module Binding {
  import opened Wrappers
  import opened AxisMapping

  type DigitValue = d: nat | d < 10

  /** The keys the loop distinguishes; every other key is `OtherKey`. */
  datatype Key =
    | Escape
    | KeyD     // toggle debug block
    | KeyV     // toggle numeric values
    | KeyA     // toggle all UI chrome
    | KeyS     // toggle all-axes panel
    | KeyC     // toggle configuration mode
    | KeyR     // reset mapping / assign right X
    | KeyL     // assign left X
    | KeyY     // assign left Y
    | KeyT     // assign right Y
    | Digit(d: DigitValue)
    | OtherKey

  /** A window event: the close request, a key press, or anything else. */
  datatype Event = Quit | KeyDown(key: Key) | OtherEvent

  /** The whole mutable session of the main loop. */
  datatype State = State(
    mapping: Mapping,
    selected: Option<nat>,
    configMode: bool,
    showDebug: bool,
    showValues: bool,
    showUi: bool,
    showAllAxes: bool,
    running: bool)

  /** The session as the program starts it. */
  const Init: State := State(Default, None, false, true, true, true, false, true)

  /** What every reachable session satisfies: all indices a digit can name,
      and the all-axes panel only enabled while the UI is shown. */
  predicate Inv(s: State) {
    && DigitRange(s.mapping)
    && (s.selected.Some? ==> s.selected.value < 10)
    && (s.showAllAxes ==> s.showUi)
  }

  /** Events that end the loop once the current frame is finished. */
  predicate IsStop(e: Event) {
    e.Quit? || e == KeyDown(Escape)
  }

  /** Whether a batch holds an event that ends the loop. */
  predicate HasStop(events: seq<Event>) {
    exists i :: 0 <= i < |events| && IsStop(events[i])
  }

  /** The role a role-assignment key binds, if any. */
  function RoleOf(k: Key): (r: Option<Role>)
    ensures r.Some? <==> k in {KeyL, KeyY, KeyR, KeyT}
  {
    match k
    case KeyL => Some(LX)
    case KeyY => Some(LY)
    case KeyR => Some(RX)
    case KeyT => Some(RY)
    case _ => None
  }

  /** First phase of a key press: the toggle chain (one branch at most). */
  function Toggle(s: State, k: Key): (r: State)
    ensures Inv(s) ==> Inv(r)
    ensures r.selected == s.selected
    ensures r.running == (s.running && k != Escape)
    ensures r.configMode != s.configMode <==> k == KeyC
  {
    match k
    case Escape => s.(running := false)
    case KeyD => s.(showDebug := !s.showDebug)
    case KeyV => s.(showValues := !s.showValues)
    case KeyA => s.(showUi := !s.showUi, showAllAxes := false)
    case KeyS => if s.showUi then s.(showAllAxes := !s.showAllAxes) else s
    case KeyC => s.(configMode := !s.configMode)
    case KeyR => if s.configMode then s.(mapping := Default) else s
    case _ => s
  }

  /** Digit handling of configuration mode: a digit is taken only when no
      selection is pending; a second digit is ignored. */
  function SelectDigit(s: State, k: Key): (r: State)
    ensures Inv(s) ==> Inv(r)
    ensures r.(selected := s.selected) == s
  {
    if k.Digit? && s.selected.None? then s.(selected := Some(k.d)) else s
  }

  /** Role assignment of configuration mode, given a pending selection. */
  function AssignPending(s: State, k: Key): (r: State)
    requires s.configMode && s.selected.Some?
    ensures Inv(s) ==> Inv(r)
    ensures r.(mapping := s.mapping, selected := s.selected) == s
  {
    var n := s.selected.value;
    match k
    case KeyL => s.(mapping := s.mapping.Set(LX, n), selected := None)
    case KeyY => s.(mapping := s.mapping.Set(LY, n), selected := None)
    case KeyR =>
      if s.configMode && s.selected.Some? then
        s.(mapping := s.mapping.Set(RX, n), selected := None)
      else
        // The reset alternative of this inner test is dead: both of its
        // conditions already hold under the enclosing guards.
        assert false; s
    case KeyT => s.(mapping := s.mapping.Set(RY, n), selected := None)
    case _ => s
  }

  /** Second phase of a key press, run on the state the first phase left. */
  function Configure(s: State, k: Key): (r: State)
    ensures Inv(s) ==> Inv(r)
    ensures r.(mapping := s.mapping, selected := s.selected) == s
  {
    if !s.configMode then s
    else
      var s1 := SelectDigit(s, k);
      if s1.selected.Some? then AssignPending(s1, k) else s1
  }

  /** One event of the loop. */
  function Step(s: State, e: Event): (r: State)
    ensures Inv(s) ==> Inv(r)
    ensures r.running ==> s.running
    ensures !IsStop(e) ==> r.running == s.running
    ensures r.configMode != s.configMode <==> e == KeyDown(KeyC)
  {
    match e
    case Quit => s.(running := false)
    case KeyDown(k) => Configure(Toggle(s, k), k)
    case OtherEvent => s
  }

  /** A batch of events, processed in order. Every event is handled even
      after a stop event earlier in the batch. */
  function Run(s: State, events: seq<Event>): (r: State)
    decreases |events|
    ensures Inv(s) ==> Inv(r)
    ensures r.running ==> s.running
  {
    if |events| == 0 then s else Run(Step(s, events[0]), events[1..])
  }

  function Press(keys: seq<Key>): (events: seq<Event>)
    ensures |events| == |keys|
    ensures forall i :: 0 <= i < |keys| ==> events[i] == KeyDown(keys[i])
  {
    seq(|keys|, i requires 0 <= i < |keys| => KeyDown(keys[i]))
  }
}
