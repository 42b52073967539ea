/** The three layout modes the shell switches between. The mode is never
    stored: it is derived from the viewport width through the `md:` (768 px)
    and `xl:` (1280 px) min-width breakpoints the layout components use. */
module Breakpoints {

  /** Lower bound of the `md:` breakpoint. */
  const TabletMin: nat := 768

  /** Lower bound of the `xl:` breakpoint. */
  const DesktopMin: nat := 1280

  datatype LayoutMode = Mobile | Tablet | Desktop

  /** The mode in force at a viewport width. */
  function ModeOf(width: nat): (m: LayoutMode)
    ensures m == Mobile <==> width < TabletMin
    ensures m == Tablet <==> TabletMin <= width < DesktopMin
    ensures m == Desktop <==> DesktopMin <= width
  {
    if width >= DesktopMin then Desktop
    else if width >= TabletMin then Tablet
    else Mobile
  }

  /** Position of a mode from narrowest to widest. */
  function Rank(m: LayoutMode): nat {
    match m
    case Mobile => 0
    case Tablet => 1
    case Desktop => 2
  }

  /** Widening the viewport never moves to a narrower mode. */
  lemma ModeMonotone(w1: nat, w2: nat)
    requires w1 <= w2
    ensures Rank(ModeOf(w1)) <= Rank(ModeOf(w2))
  {
  }
}
