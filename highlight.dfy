/** Scroll-based highlighting of the navigation links on the home page
    (script.js:156-195). */
module Highlight {
  import opened Wrappers

  /** The lookahead subtracted from each section's `offsetTop` (script.js:168). */
  const LookAhead: int := 120

  predicate EndsWith(s: string, suffix: string) {
    |suffix| <= |s| && s[|s| - |suffix|..] == suffix
  }

  /** The path gate of script.js:158-160. */
  predicate IsHomePage(pathname: string) {
    EndsWith(pathname, "index.html") || EndsWith(pathname, "/") || pathname == ""
  }

  /** The gate accepts exactly the empty path and the paths made of some prefix
      followed by '/' or by 'index.html'. */
  lemma HomePageExactly(pathname: string)
    ensures IsHomePage(pathname) <==>
      pathname == "" ||
      (exists dir: string :: pathname == dir + "/") ||
      (exists dir: string :: pathname == dir + "index.html")
  {
    if EndsWith(pathname, "/") {
      assert pathname == pathname[..|pathname| - 1] + "/";
    }
    if EndsWith(pathname, "index.html") {
      assert pathname == pathname[..|pathname| - 10] + "index.html";
    }
    forall dir: string | pathname == dir + "/" ensures EndsWith(pathname, "/") {
      assert pathname[|dir|..] == "/";
    }
    forall dir: string | pathname == dir + "index.html" ensures EndsWith(pathname, "index.html") {
      assert pathname[|dir|..] == "index.html";
    }
  }

  /** A `section[id]` with its id and its layout at the time of the scroll. */
  datatype Section = Section(id: string, offsetTop: int, offsetHeight: int)

  /** The test of script.js:171-173: `scrollY` lies in the section's span shifted
      up by the lookahead. */
  predicate Covers(s: Section, scrollY: real) {
    (s.offsetTop - LookAhead) as real <= scrollY < (s.offsetTop - LookAhead + s.offsetHeight) as real
  }

  /** The id of the last section, in document order, that covers `scrollY`, or ""
      when none does. */
  function LastMatch(sections: seq<Section>, scrollY: real): (current: string)
    ensures current == "" ||
            exists k :: 0 <= k < |sections| && Covers(sections[k], scrollY) && sections[k].id == current
  {
    if sections == [] then ""
    else if Covers(sections[|sections| - 1], scrollY) then sections[|sections| - 1].id
    else LastMatch(sections[..|sections| - 1], scrollY)
  }

  /** When no section covers the offset, nothing is current. */
  lemma {:induction false} LastMatchNone(sections: seq<Section>, scrollY: real)
    requires forall k :: 0 <= k < |sections| ==> !Covers(sections[k], scrollY)
    ensures LastMatch(sections, scrollY) == ""
    decreases |sections|
  {
    if sections != [] {
      LastMatchNone(sections[..|sections| - 1], scrollY);
    }
  }

  /** When section `j` covers the offset and no later one does, `j` is current:
      the last match wins when spans overlap. */
  lemma {:induction false} LastMatchIsLast(sections: seq<Section>, scrollY: real, j: nat)
    requires j < |sections| && Covers(sections[j], scrollY)
    requires forall k :: j < k < |sections| ==> !Covers(sections[k], scrollY)
    ensures LastMatch(sections, scrollY) == sections[j].id
    decreases |sections|
  {
    if j < |sections| - 1 {
      LastMatchIsLast(sections[..|sections| - 1], scrollY, j);
    }
  }

  /** The first loop of `highlightNav` (script.js:167-176). */
  method CurrentSection(sections: seq<Section>, scrollY: real) returns (current: string)
    ensures current == LastMatch(sections, scrollY)
  {
    current := "";
    for k := 0 to |sections|
      invariant current == LastMatch(sections[..k], scrollY)
    {
      var sectionTop := sections[k].offsetTop - LookAhead;
      var sectionBottom := sectionTop + sections[k].offsetHeight;
      if scrollY >= sectionTop as real && scrollY < sectionBottom as real {
        current := sections[k].id;
      }
      assert sections[..k + 1][..k] == sections[..k];
    }
    assert sections[..|sections|] == sections;
  }

  /** The links `highlightNav` walks (script.js:164) by their `href` attribute, in
      document order, and the position among them of the `#nav-home` link. */
  datatype NavLinks = NavLinks(hrefs: seq<Option<string>>, home: Option<nat>)

  predicate IsHome(links: NavLinks, i: int) {
    links.home.Some? && links.home.value == i
  }

  /** Current values that make `highlightNav` fall back to the home link. */
  predicate AtTop(current: string) {
    current == "" || current == "hero"
  }

  /** The per-link test of script.js:181. */
  predicate LinkMatches(current: string, href: Option<string>) {
    current != "" && href.Some? && href.value != "" && |href.value| > 1 && href.value == "#" + current
  }

  /** The `active` flags that `highlightNav` leaves on the links for `current`. */
  function Activation(links: NavLinks, current: string): (r: seq<bool>)
    ensures |r| == |links.hrefs|
    ensures AtTop(current) ==> forall i :: 0 <= i < |r| ==> (r[i] <==> IsHome(links, i))
    ensures !AtTop(current) ==>
              forall i :: 0 <= i < |r| ==> (r[i] <==> links.hrefs[i] == Some("#" + current))
  {
    if AtTop(current) then
      seq(|links.hrefs|, i => IsHome(links, i))
    else
      seq(|links.hrefs|, i requires 0 <= i < |links.hrefs| => LinkMatches(current, links.hrefs[i]))
  }

  /** When the `href`s longer than one character are distinct, at most one link is
      left active; any number of bare '#' links (the usual dropdown triggers) may
      share their value. */
  lemma AtMostOneActive(links: NavLinks, current: string, i: nat, j: nat)
    requires forall a, b :: 0 <= a < b < |links.hrefs| && links.hrefs[a].Some? && |links.hrefs[a].value| > 1 ==>
               links.hrefs[a] != links.hrefs[b]
    requires i < j < |links.hrefs|
    ensures !(Activation(links, current)[i] && Activation(links, current)[j])
  {
  }
}
