/** Smooth scrolling for in-page anchors (script.js:141-154). Every `a` whose
    `href` starts with '#' gets the click handler below. */
module AnchorScroll {
  import opened Wrappers

  /** The header offset used when the navbar's `offsetHeight` is 0 (falsy). */
  const FallbackOffset: nat := 60

  /** What `document.querySelector(href)` gives: an element with its
      `getBoundingClientRect().top`, nothing, or a thrown selector error. */
  datatype Lookup = Found(top: real) | Missing | Invalid

  /** What the anchor handler decides: leave the default alone, or prevent it and
      scroll to vertical offset `y`. Another listener on the same link (a dropdown
      trigger's, script.js:24) may still prevent the default on its own. */
  datatype Outcome = FollowDefault | ScrollTo(y: real)

  /** The `href` test of script.js:144. Only length matters: a value longer than
      one character is non-null, non-empty and not '#'. */
  function PassesFilter(href: Option<string>): (r: bool)
    ensures r <==> href.Some? && |href.value| > 1
  {
    href.Some? && href.value != "" && href.value != "#" && |href.value| > 1
  }

  /** `navbar.offsetHeight || 60` (script.js:148). */
  function HeaderOffset(navbarHeight: nat): (r: nat)
    ensures r > 0
    ensures navbarHeight != 0 ==> r == navbarHeight
    ensures navbarHeight == 0 ==> r == FallbackOffset
  {
    if navbarHeight != 0 then navbarHeight else FallbackOffset
  }

  /** The scroll target of script.js:149. `top + pageYOffset` is the element's
      offset in the document; the target leaves it exactly one header height
      below the top of the viewport. */
  function ScrollTarget(top: real, pageYOffset: real, navbarHeight: nat): (y: real)
    ensures (top + pageYOffset) - y == HeaderOffset(navbarHeight) as real
    ensures y < top + pageYOffset
  {
    top + pageYOffset - HeaderOffset(navbarHeight) as real
  }

  /** The anchor click handler. `lookup` is consulted only once the filter passes;
      a selector that throws ends the handler before `preventDefault`. */
  function OnAnchorClick(href: Option<string>, lookup: Lookup, pageYOffset: real, navbarHeight: nat): (o: Outcome)
    ensures o.ScrollTo? <==> href.Some? && |href.value| > 1 && lookup.Found?
    ensures o.ScrollTo? ==> o.y == ScrollTarget(lookup.top, pageYOffset, navbarHeight)
  {
    if PassesFilter(href) then
      match lookup
      case Found(top) => ScrollTo(ScrollTarget(top, pageYOffset, navbarHeight))
      case Missing => FollowDefault
      case Invalid => FollowDefault
    else
      FollowDefault
  }

  /** For a bare '#' link, or one without `href`, the anchor handler never prevents
      the default. */
  lemma BareAnchorsFollowDefault(lookup: Lookup, pageYOffset: real, navbarHeight: nat)
    ensures OnAnchorClick(Some("#"), lookup, pageYOffset, navbarHeight) == FollowDefault
    ensures OnAnchorClick(Some(""), lookup, pageYOffset, navbarHeight) == FollowDefault
    ensures OnAnchorClick(None, lookup, pageYOffset, navbarHeight) == FollowDefault
  {
  }
}
