/** The two scroll-offset thresholds: the scroll-to-top button (script.js:61-67)
    and the navbar shadow (script.js:200-206). */
module ScrollEffects {

  /** Past this vertical offset the scroll-to-top button gets `visible`. */
  const ScrollTopThreshold: real := 400.0

  /** Past this vertical offset the navbar gets the stronger box shadow. */
  const ShadowThreshold: real := 100.0

  /** The two `boxShadow` values the navbar handler writes. */
  datatype Shadow = Light | Strong

  /** Whether the scroll-to-top button carries `visible` after a scroll to `scrollY`. */
  function ScrollTopVisible(scrollY: real): (visible: bool)
    ensures visible <==> scrollY > ScrollTopThreshold
  {
    scrollY > ScrollTopThreshold
  }

  /** The navbar shadow after a scroll to `scrollY`. */
  function NavbarShadow(scrollY: real): (s: Shadow)
    ensures s == Strong <==> scrollY > ShadowThreshold
    ensures ScrollTopVisible(scrollY) ==> s == Strong
  {
    if scrollY > ShadowThreshold then Strong else Light
  }

  /** Scrolling further down never hides the button nor weakens the shadow. */
  lemma Monotone(y1: real, y2: real)
    requires y1 <= y2
    ensures ScrollTopVisible(y1) ==> ScrollTopVisible(y2)
    ensures NavbarShadow(y1) == Strong ==> NavbarShadow(y2) == Strong
  {
  }
}
