/** The mobile menu and the dropdowns of the navigation bar (script.js:11-58).
    Every `active` class is a boolean; `document.body.style.overflow` is the
    boolean `locked` (true for 'hidden', false for ''). */
module Navigation {

  /** The state the navigation handlers read and write. */
  datatype NavView = NavView(
    hamburger: bool,         // `active` on #hamburger
    menu: bool,              // `active` on #nav-menu
    overlay: bool,           // `active` on #mobile-overlay
    locked: bool,            // body overflow is 'hidden'
    dropdowns: seq<bool>)    // `active` on each `.dropdown` of the menu, in document order

  /** What a click lands on. A click runs the handlers of the element it lands on,
      then bubbles to the document-level handler of script.js:35-39. */
  datatype Click =
    | Hamburger                     // #hamburger, outside every dropdown
    | Overlay                       // #mobile-overlay, outside every dropdown
    | DropdownTrigger(index: nat)   // the `.dropdown > a` of dropdown `index`
    | PlainLink                     // a `li:not(.dropdown) > a` outside every dropdown
    | SubLink(plainToo: bool)       // a `.dropdown-menu a`; `plainToo` when its `li` also
                                    // matches `li:not(.dropdown) > a`, so that handler runs first
    | Elsewhere(insideDropdown: bool)  // any other element whose own listeners touch neither
                                       // these flags nor the body's overflow (so not a gallery item)

  predicate ValidClick(dropdownCount: nat, e: Click) {
    e.DropdownTrigger? ==> e.index < dropdownCount
  }

  predicate ValidClicks(dropdownCount: nat, es: seq<Click>) {
    forall k :: 0 <= k < |es| ==> ValidClick(dropdownCount, es[k])
  }

  /** The three menu flags agree and the body is locked exactly when the menu is open. */
  predicate InSync(v: NavView) {
    v.hamburger == v.menu && v.overlay == v.menu && v.locked == v.menu
  }

  predicate AtMostOneOpen(s: seq<bool>) {
    forall i, j :: 0 <= i < |s| && 0 <= j < |s| && s[i] && s[j] ==> i == j
  }

  predicate AllClosed(s: seq<bool>) {
    forall i :: 0 <= i < |s| ==> !s[i]
  }

  /** The invariant every sequence of clicks keeps. */
  predicate Consistent(v: NavView) {
    InSync(v) && AtMostOneOpen(v.dropdowns)
  }

  predicate SameMenu(a: NavView, b: NavView) {
    a.hamburger == b.hamburger && a.menu == b.menu && a.overlay == b.overlay && a.locked == b.locked
  }

  function Closed(n: nat): (r: seq<bool>)
    ensures |r| == n && AllClosed(r)
  {
    seq(n, _ => false)
  }

  /** `toggleMobileMenu` (script.js:11-16). */
  function Toggled(v: NavView): (r: NavView)
    ensures r.hamburger == !v.hamburger && r.menu == !v.menu && r.overlay == !v.overlay
    ensures r.locked == r.menu
    ensures r.dropdowns == v.dropdowns
    ensures InSync(v) ==> InSync(r)
  {
    NavView(!v.hamburger, !v.menu, !v.overlay, !v.menu, v.dropdowns)
  }

  /** The dropdown trigger handler (script.js:23-31): every other dropdown loses
      `active`, then the clicked one is toggled. */
  function TriggerClicked(s: seq<bool>, i: nat): (r: seq<bool>)
    requires i < |s|
    ensures |r| == |s|
    ensures r[i] == !s[i]
    ensures forall k :: 0 <= k < |r| && k != i ==> !r[k]
    ensures AtMostOneOpen(r)
  {
    seq(|s|, k requires 0 <= k < |s| => k == i && !s[i])
  }

  /** The document click handler (script.js:35-39). */
  function Bubbled(v: NavView, insideDropdown: bool): (r: NavView)
    ensures SameMenu(r, v) && |r.dropdowns| == |v.dropdowns|
    ensures insideDropdown ==> r == v
    ensures !insideDropdown ==> AllClosed(r.dropdowns)
  {
    if insideDropdown then v else v.(dropdowns := Closed(|v.dropdowns|))
  }

  /** The non-dropdown link handler (script.js:43-47). */
  function PlainLinkClicked(v: NavView): (r: NavView)
    ensures !r.menu && r.dropdowns == v.dropdowns
    ensures !v.menu ==> r == v
    ensures InSync(v) ==> InSync(r)
  {
    if v.menu then Toggled(v) else v
  }

  /** The dropdown sub-link handler (script.js:52-57). */
  function SubLinkClicked(v: NavView): (r: NavView)
    ensures !r.menu && AllClosed(r.dropdowns) && |r.dropdowns| == |v.dropdowns|
    ensures !v.menu ==> SameMenu(r, v)
    ensures InSync(v) ==> InSync(r)
  {
    var w := v.(dropdowns := Closed(|v.dropdowns|));
    if w.menu then Toggled(w) else w
  }

  /** One click: the handlers of the clicked element in the order they were
      registered, then the bubbling document handler. */
  function Step(v: NavView, e: Click): (r: NavView)
    requires ValidClick(|v.dropdowns|, e)
    ensures |r.dropdowns| == |v.dropdowns|
    ensures InSync(v) ==> InSync(r)
    ensures AtMostOneOpen(v.dropdowns) ==> AtMostOneOpen(r.dropdowns)
    ensures e.Hamburger? || e.Overlay? ==> r.menu == !v.menu && AllClosed(r.dropdowns)
    ensures e.DropdownTrigger? ==>
              SameMenu(r, v) && AtMostOneOpen(r.dropdowns) && r.dropdowns[e.index] == !v.dropdowns[e.index]
    ensures e.DropdownTrigger? ==> forall k :: 0 <= k < |r.dropdowns| && k != e.index ==> !r.dropdowns[k]
    ensures e.PlainLink? || e.SubLink? ==> !r.menu && AllClosed(r.dropdowns)
    ensures e.PlainLink? || e.SubLink? ==> (!v.menu ==> SameMenu(r, v))
    ensures e == Elsewhere(true) ==> r == v
    ensures e == Elsewhere(false) ==> SameMenu(r, v) && AllClosed(r.dropdowns)
  {
    match e
    case Hamburger => Bubbled(Toggled(v), false)
    case Overlay => Bubbled(Toggled(v), false)
    case DropdownTrigger(i) => Bubbled(v.(dropdowns := TriggerClicked(v.dropdowns, i)), true)
    case PlainLink => Bubbled(PlainLinkClicked(v), false)
    case SubLink(plainToo) =>
      Bubbled(SubLinkClicked(if plainToo then PlainLinkClicked(v) else v), true)
    case Elsewhere(inside) => Bubbled(v, inside)
  }

  /** A sequence of clicks, one after the other. */
  function Run(v: NavView, es: seq<Click>): (r: NavView)
    requires ValidClicks(|v.dropdowns|, es)
    ensures |r.dropdowns| == |v.dropdowns|
    decreases |es|
  {
    if es == [] then v else Run(Step(v, es[0]), es[1..])
  }

  /** The page loads with no `active` class and the body unlocked. */
  function Initial(dropdownCount: nat): (r: NavView)
    ensures Consistent(r) && !r.menu && |r.dropdowns| == dropdownCount
  {
    NavView(false, false, false, false, Closed(dropdownCount))
  }

  /** Whatever clicks arrive, the three menu flags and the scroll lock stay in
      agreement and at most one dropdown is open. */
  lemma {:induction false} RunKeepsConsistent(v: NavView, es: seq<Click>)
    requires Consistent(v) && ValidClicks(|v.dropdowns|, es)
    ensures Consistent(Run(v, es))
    decreases |es|
  {
    if es != [] {
      var w := Step(v, es[0]);
      assert ValidClicks(|w.dropdowns|, es[1..]) by {
        forall k | 0 <= k < |es[1..]| ensures ValidClick(|w.dropdowns|, es[1..][k]) {
          assert es[1..][k] == es[k + 1];
        }
      }
      RunKeepsConsistent(w, es[1..]);
    }
  }

  /** Running the clicks `es` and then `fs` is running `es + fs`: together with
      RunKeepsConsistent, the invariant holds after every prefix of a session. */
  lemma {:induction false} RunAppend(v: NavView, es: seq<Click>, fs: seq<Click>)
    requires ValidClicks(|v.dropdowns|, es + fs)
    ensures ValidClicks(|v.dropdowns|, es) && ValidClicks(|v.dropdowns|, fs)
    ensures Run(v, es + fs) == Run(Run(v, es), fs)
    decreases |es|
  {
    assert forall k :: 0 <= k < |es| ==> (es + fs)[k] == es[k];
    assert forall k :: 0 <= k < |fs| ==> (es + fs)[|es| + k] == fs[k];
    if es == [] {
      assert es + fs == fs;
    } else {
      assert (es + fs)[0] == es[0];
      assert (es + fs)[1..] == es[1..] + fs;
      RunAppend(Step(v, es[0]), es[1..], fs);
    }
  }

  /** A sub-link click has the same outcome whether or not the non-dropdown link
      handler also runs on it first. */
  lemma SubLinkOutcomeIndependent(v: NavView)
    ensures Step(v, SubLink(true)) == Step(v, SubLink(false))
  {
    var a := SubLinkClicked(PlainLinkClicked(v));
    var b := SubLinkClicked(v);
    if v.menu {
      assert a == Toggled(v).(dropdowns := Closed(|v.dropdowns|));
      assert b == Toggled(v.(dropdowns := Closed(|v.dropdowns|)));
    }
  }

  /** The navigation elements and their handlers. */
  class Nav {
    var hamburger: bool
    var menu: bool
    var overlay: bool
    var locked: bool
    var dropdowns: seq<bool>

    function View(): NavView
      reads this
    {
      NavView(hamburger, menu, overlay, locked, dropdowns)
    }

    constructor (dropdownCount: nat)
      ensures View() == Initial(dropdownCount)
    {
      hamburger, menu, overlay, locked := false, false, false, false;
      dropdowns := Closed(dropdownCount);
    }

    /** script.js:11-16 */
    method ToggleMobileMenu()
      modifies this
      ensures View() == Toggled(old(View()))
    {
      hamburger := !hamburger;
      menu := !menu;
      overlay := !overlay;
      locked := menu;
    }

    /** The `forEach(d => d.classList.remove('active'))` of script.js:37 and :53. */
    method CloseAllDropdowns()
      modifies this
      ensures View() == old(View()).(dropdowns := Closed(|old(dropdowns)|))
    {
      var k := 0;
      while k < |dropdowns|
        invariant 0 <= k <= |dropdowns| == |old(dropdowns)|
        invariant forall j :: 0 <= j < k ==> !dropdowns[j]
        invariant SameMenu(View(), old(View()))
      {
        dropdowns := dropdowns[k := false];
        k := k + 1;
      }
    }

    /** script.js:23-31 */
    method OnTriggerClick(i: nat)
      requires i < |dropdowns|
      modifies this
      ensures View() == old(View()).(dropdowns := TriggerClicked(old(dropdowns), i))
    {
      var k := 0;
      while k < |dropdowns|
        invariant 0 <= k <= |dropdowns| == |old(dropdowns)|
        invariant forall j :: 0 <= j < k && j != i ==> !dropdowns[j]
        invariant forall j :: 0 <= j < |dropdowns| && (k <= j || j == i) ==> dropdowns[j] == old(dropdowns)[j]
        invariant SameMenu(View(), old(View()))
      {
        if k != i {
          dropdowns := dropdowns[k := false];
        }
        k := k + 1;
      }
      dropdowns := dropdowns[i := !dropdowns[i]];
    }

    /** script.js:35-39 */
    method OnDocumentClick(insideDropdown: bool)
      modifies this
      ensures View() == Bubbled(old(View()), insideDropdown)
    {
      if !insideDropdown {
        CloseAllDropdowns();
      }
    }

    /** script.js:43-47 */
    method OnPlainLinkClick()
      modifies this
      ensures View() == PlainLinkClicked(old(View()))
    {
      if menu {
        ToggleMobileMenu();
      }
    }

    /** script.js:52-57 */
    method OnSubLinkClick()
      modifies this
      ensures View() == SubLinkClicked(old(View()))
    {
      CloseAllDropdowns();
      if menu {
        ToggleMobileMenu();
      }
    }

    /** A click event: the target's own listeners, then the document listener. */
    method Click(e: Click)
      requires ValidClick(|dropdowns|, e)
      modifies this
      ensures View() == Step(old(View()), e)
    {
      match e
      case Hamburger =>
        ToggleMobileMenu();
        OnDocumentClick(false);
      case Overlay =>
        ToggleMobileMenu();
        OnDocumentClick(false);
      case DropdownTrigger(i) =>
        OnTriggerClick(i);
        OnDocumentClick(true);
      case PlainLink =>
        OnPlainLinkClick();
        OnDocumentClick(false);
      case SubLink(plainToo) =>
        if plainToo {
          OnPlainLinkClick();
        }
        OnSubLinkClick();
        OnDocumentClick(true);
      case Elsewhere(inside) =>
        OnDocumentClick(inside);
    }
  }
}
