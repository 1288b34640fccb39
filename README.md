# Page interaction rules of the Gyandeep Public School site

`script.js` wires event handlers into a static school website. Most of it is
DOM plumbing. Inside the handlers, though, are small deterministic state rules,
and this project models those rules in Dafny and proves their properties. Each
`active` or `visible` class is a boolean. The body's `overflow: hidden` is a
boolean scroll lock. Element lists are sequences in document order. Scroll
offsets are reals, and layout sizes are integers.

- `navigation.dfy` (module `Navigation`): the mobile menu and the dropdowns.
  The pure functions `Toggled`, `TriggerClicked`, `Bubbled`, `PlainLinkClicked`
  and `SubLinkClicked` each model one handler. `Step` is one click: the target's
  own listeners run in the order they were registered, then the click bubbles
  to the document listener. `Run` is a sequence of clicks. The class `Nav`
  holds the flags as fields, with one method per handler, and each method is
  proved equal to its function.
- `scroll.dfy` (module `ScrollEffects`): the scroll-to-top threshold (400) and
  the navbar shadow threshold (100).
- `anchors.dfy` (module `AnchorScroll`): which `href` values the anchor handler
  takes over, and the scroll target `top + pageYOffset - (offsetHeight || 60)`.
- `highlight.dfy` (module `Highlight`): the home-page path test, the choice of
  the current section (the last whose shifted span covers `scrollY`), and the
  link flags this leaves, including the fallback to the home link.
- `page.dfy` (module `Page`): the class `Page`, whose `OnScroll` runs the three
  scroll listeners in registration order: scroll-to-top, then `highlightNav`
  (home page only), then the shadow.
- `wrappers.dfy` (module `Wrappers`): `Option`, for attributes and elements that
  may be absent.

Assumptions about the markup. The hamburger, the overlay and the plain
(non-dropdown) links lie outside every `.dropdown`. Both the hamburger and the
overlay exist: the source attaches their listeners only if they are present
(script.js:18-19), yet `toggleMobileMenu` uses both without a check
(script.js:12 and :14). A dropdown trigger and a
dropdown sub-link lie inside one. A sub-link's `li` usually lacks the
`dropdown` class, so the sub-link also matches `li:not(.dropdown) > a`, and the
plain-link listener (registered first) runs on it too. This case is
`SubLink(true)`, and `SubLinkOutcomeIndependent` proves that it ends the same
way as `SubLink(false)`. At page load the hamburger, the menu, the overlay and
the dropdowns carry no `active`, and the body is unlocked; the highlighted links
and the scroll-driven elements may start with any classes the markup gives them.

Inputs that come from the browser are parameters:
- `window.scrollY`, `window.pageYOffset` and `window.location.pathname`;
- each section's `offsetTop` and `offsetHeight`;
- the rectangle top of the anchor's target and the navbar's `offsetHeight`;
- what `document.querySelector(href)` returns. This is `Lookup`: found,
  missing, or a selector that throws. A throwing selector stops the handler
  before `preventDefault`, so the browser navigates as usual.

## Model

| member | source | states |
|---|---|---|
| `Navigation.Toggled` | script.js:11-16 | flips the hamburger, menu and overlay flags; the lock is set exactly when the menu is now open; dropdowns untouched; three flags in agreement stay in agreement |
| `Navigation.TriggerClicked` | script.js:22-31 | every other dropdown ends inactive, the clicked one is flipped, so at most one dropdown is active whatever the prior state |
| `Navigation.Bubbled` | script.js:35-39 | a click outside every dropdown leaves all dropdowns inactive; a click inside one changes nothing; the menu flags are never touched |
| `Navigation.PlainLinkClicked` | script.js:42-48 | afterwards the menu is closed; if it was closed nothing changes; dropdowns untouched; agreement of the three flags is kept |
| `Navigation.SubLinkClicked` | script.js:50-58 | all dropdowns end inactive and the menu is closed; if the menu was closed the three flags and the lock are unchanged |
| `Navigation.Step` | script.js:11-58 | one click, with handlers then bubbling: keeps flag agreement and at-most-one-dropdown; hamburger and overlay flip the menu and close all dropdowns; a trigger flips its dropdown, closes every other one and keeps the menu flags; a nav link or sub-link closes the menu and all dropdowns, changing the menu flags only if the menu was open; a click inside a dropdown changes nothing; a click outside every dropdown, on an element whose own listeners leave these flags and the body overflow alone, closes every dropdown |
| `Navigation.Run` | script.js:18-58 | a sequence of clicks keeps the number of dropdowns |
| `Navigation.RunKeepsConsistent` | script.js:11-58 | from a consistent state, any sequence of clicks on the navigation (or on elements whose own listeners leave it and the body overflow alone) ends with the three menu flags and the lock in agreement and at most one dropdown active |
| `Navigation.RunAppend` | script.js:18-58 | running two click sequences one after the other is running their concatenation, so the invariant holds after every prefix of a session |
| `Navigation.SubLinkOutcomeIndependent` | script.js:42-58 | a sub-link click ends the same whether or not the plain-link listener also runs on it first |
| `Navigation.Initial` | script.js:2-8 | the state at load (nothing active, body unlocked) is consistent, with the menu closed |
| `Navigation.Nav.constructor` | script.js:2-8 | the navigation starts in the load state |
| `Navigation.Nav.ToggleMobileMenu` | script.js:11-16 | the new state is `Toggled` of the old one |
| `Navigation.Nav.CloseAllDropdowns` | script.js:37 | every dropdown flag is cleared and nothing else changes |
| `Navigation.Nav.OnTriggerClick` | script.js:23-31 | the loop clears the other dropdowns and the clicked one is flipped, as `TriggerClicked` says; menu flags unchanged |
| `Navigation.Nav.OnDocumentClick` | script.js:35-39 | the new state is `Bubbled` of the old one |
| `Navigation.Nav.OnPlainLinkClick` | script.js:43-47 | the new state is `PlainLinkClicked` of the old one |
| `Navigation.Nav.OnSubLinkClick` | script.js:52-57 | the new state is `SubLinkClicked` of the old one |
| `Navigation.Nav.Click` | script.js:18-58 | running the target's listeners and then the document listener gives `Step` of the old state |
| `ScrollEffects.ScrollTopVisible` | script.js:61-67 | the button is visible exactly when `scrollY > 400` |
| `ScrollEffects.NavbarShadow` | script.js:200-206 | the shadow is strong exactly when `scrollY > 100`, and always strong when the scroll-top button shows |
| `ScrollEffects.Monotone` | script.js:61-67 | scrolling further down never hides the button or weakens the shadow |
| `AnchorScroll.PassesFilter` | script.js:143-144 | the `href` test holds exactly when the value is present and longer than one character, so the non-empty and not-'#' tests are implied |
| `AnchorScroll.HeaderOffset` | script.js:148 | the offset is the navbar height, or 60 when that height is 0, and is always positive |
| `AnchorScroll.ScrollTarget` | script.js:149 | the target puts the element exactly one header offset below the viewport top, strictly above its document position |
| `AnchorScroll.OnAnchorClick` | script.js:141-154 | default navigation is cancelled exactly when the `href` is longer than one character and the element is found; the scroll then goes to `ScrollTarget` |
| `AnchorScroll.BareAnchorsFollowDefault` | script.js:144 | for a missing, empty or bare '#' `href` the anchor handler never cancels the default (another listener on the same link may) |
| `Highlight.HomePageExactly` | script.js:158-160 | the contract of the gate `IsHomePage`: it accepts exactly the empty path and the paths ending in '/' or 'index.html' |
| `Highlight.LastMatch` | script.js:167-176 | the current id is "" or the id of some section whose shifted span covers `scrollY` |
| `Highlight.LastMatchNone` | script.js:170-176 | if no section covers `scrollY`, the current id is "" |
| `Highlight.LastMatchIsLast` | script.js:170-176 | if section `j` covers `scrollY` and no later section does, the current id is section `j`'s id: the last match wins |
| `Highlight.CurrentSection` | script.js:166-176 | the loop over the sections leaves `current` equal to `LastMatch` |
| `Highlight.Activation` | script.js:178-191 | when `current` is "" or "hero", only the home link is active (none if there is no home link); otherwise a link is active exactly when its `href` equals `"#" + current` |
| `Highlight.AtMostOneActive` | script.js:178-191 | when the `href`s longer than one character are distinct (any number of bare '#' triggers may share theirs), no two links end active |
| `Page.AfterScroll` | script.js:61-206 | after a scroll the button and shadow follow their thresholds; on the home page the links follow `Activation` of `LastMatch`; elsewhere the link flags are untouched |
| `Page.ScrollIdempotent` | script.js:61-206 | a second scroll event at the same offset and layout changes nothing |
| `Page.ScrollForgetsHistory` | script.js:61-206 | the state after a scroll does not depend on the state before it, except for link flags off the home page |
| `Page.Page.constructor` | script.js:158-164 | the highlighter is enabled exactly when the path passes `IsHomePage` |
| `Page.Page.HighlightNav` | script.js:166-192 | the two passes over the links leave their flags equal to `Activation` of `LastMatch`, and nothing else changes |
| `Page.Page.OnScroll` | script.js:61-206 | the three listeners, run in registration order, give `AfterScroll` of the old state |
| `Page.AcademicsExample` | script.js:166-191 | a scroll event on the page "/" (which passes `IsHomePage`) at offset 500, with a 600-pixel hero followed by "academics", leaves only the '#academics' link active, whatever the flags were before |

## Left out

- Fade-in and counter triggers through `IntersectionObserver` (script.js:74-104): they depend on viewport geometry in browser callbacks.
- `animateCounter` (script.js:106-122): floating-point steps and `requestAnimationFrame` scheduling.
- The video embed (script.js:125-138): it only builds an iframe for a fixed URL.
- The gallery lightbox (script.js:209-307): node creation, styles, animation frames and a 300 ms timer. Also, the Escape listener is removed only on the Escape path (script.js:299-303), not after a click-close (script.js:292-296).
- Lightbox and scroll lock: opening the lightbox sets the body overflow to 'hidden' while the menu stays closed (script.js:274). Closing it sets the overflow to '' whatever the menu is (script.js:288). This is the same flag that `locked` models, so while a lightbox is open, or after one closes over an open menu, `locked == menu` does not hold on the real page. Gallery-item clicks are not among the modelled clicks, and `RunKeepsConsistent` speaks only of sessions without them.
- The smooth-scroll animation itself (`window.scrollTo` with `behavior: 'smooth'`, script.js:69-71 and :150), the hero-stat delays and the hero-badge fade (script.js:310-325), all inline styles, and the console message. These are presentation only.
- Elements used without a check: the model assumes they exist. Each would otherwise fail at a different point:
  - `#nav-menu`: at load (script.js:22).
  - `#scroll-top`: at load, where its click listener is attached (script.js:69). Its scroll listener, registered just before, would also throw on every scroll (script.js:63 and :65).
  - `#navbar`: in the scroll listener, on every scroll (script.js:202 and :204).
  - `.navbar`: at click time (script.js:148), after `preventDefault` (script.js:147), so an anchor click would be cancelled and nothing would scroll.
  - `#hamburger` and `#mobile-overlay`: treated as optional when listeners are attached (script.js:18-19) but used unguarded in `toggleMobileMenu` (script.js:12 and :14). Without the overlay, a toggle flips the hamburger and the menu and throws before the overflow write (script.js:15), so the lock would stop following the menu.
- Activation: the `#nav-home` element is modelled as one of the highlighted links or as absent; a home element outside that list, whose flag the clearing passes would never reset, is not modelled.
- The dropdown trigger's `preventDefault` (script.js:24) is not modelled, and neither is its interplay with the anchor handler. A `.dropdown > a` whose `href` starts with '#' also gets the anchor listener (script.js:141-142). So a trigger with `href="#"` does not navigate, whatever `OnAnchorClick` decides for it: `OnAnchorClick` describes only the anchor handler's own decision.
- Scroll offsets are reals, so a browser clamping a negative or too-large scroll target is not modelled.
