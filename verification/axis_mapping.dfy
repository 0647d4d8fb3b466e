/**
 The role -> physical-axis assignment of the overlay: four fixed roles, each
 always bound to some non-negative axis index, plus the fixed per-role sign
 inversion applied when a stick is drawn.
 */
module AxisMapping {

  /** The four semantic slots the overlay visualises. */
  datatype Role = LX | LY | RX | RY

  /** One index per role; every role always has an index (it may be out of
      range for the current device, in which case reads degrade to neutral). */
  datatype Mapping = Mapping(lx: nat, ly: nat, rx: nat, ry: nat)
  {
    function Get(role: Role): nat {
      match role
      case LX => lx
      case LY => ly
      case RX => rx
      case RY => ry
    }

    /** Rebinds one role and leaves the other three alone. */
    function Set(role: Role, n: nat): (m: Mapping)
      ensures m.Get(role) == n
      ensures forall other: Role :: other != role ==> m.Get(other) == Get(other)
    {
      match role
      case LX => this.(lx := n)
      case LY => this.(ly := n)
      case RX => this.(rx := n)
      case RY => this.(ry := n)
    }
  }

  /** The start-up assignment: left stick on axes 0/1, right stick X on 3 and
      right stick Y (the throttle axis) on 2. */
  const Default: Mapping := Mapping(0, 1, 3, 2)

  /** Whether the value read for a role is negated before drawing. */
  function Inverted(role: Role): bool {
    role == LY || role == RY
  }

  /** Every role is bound to an index a single digit key can name. */
  predicate DigitRange(m: Mapping) {
    forall role: Role :: m.Get(role) < 10
  }

  /** The start-up table: left stick on 0/1, right X on 3, right Y on 2,
      within digit range, with only the two Y roles inverted. */
  lemma Defaults()
    ensures Default.Get(LX) == 0 && Default.Get(LY) == 1
    ensures Default.Get(RX) == 3 && Default.Get(RY) == 2
    ensures DigitRange(Default)
    ensures !Inverted(LX) && Inverted(LY) && !Inverted(RX) && Inverted(RY)
  {
  }

  /** Storing a digit keeps every role within 0..9. */
  lemma SetKeepsDigitRange(m: Mapping, role: Role, n: nat)
    requires DigitRange(m) && n < 10
    ensures DigitRange(m.Set(role, n))
  {
  }
}
