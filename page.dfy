/** The window scroll listeners, in the order they are registered: the
    scroll-to-top button (script.js:61-67), `highlightNav` on the home page only
    (script.js:162-195) and the navbar shadow (script.js:200-206). */
module Page {
  import opened Wrappers
  import opened ScrollEffects
  import opened Highlight

  /** What the scroll listeners write. */
  datatype ScrollView = ScrollView(scrollTopVisible: bool, shadow: Shadow, linkActive: seq<bool>)

  /** The state after one scroll event to `scrollY`, with the sections laid out as
      `sections`. */
  function AfterScroll(v: ScrollView, homePage: bool, links: NavLinks, sections: seq<Section>, scrollY: real): (r: ScrollView)
    ensures r.scrollTopVisible <==> scrollY > ScrollTopThreshold
    ensures r.shadow == Strong <==> scrollY > ShadowThreshold
    ensures homePage ==> r.linkActive == Activation(links, LastMatch(sections, scrollY))
    ensures !homePage ==> r.linkActive == v.linkActive
  {
    ScrollView(
      ScrollTopVisible(scrollY),
      NavbarShadow(scrollY),
      if homePage then Activation(links, LastMatch(sections, scrollY)) else v.linkActive)
  }

  /** A second scroll event at the same offset and layout changes nothing. */
  lemma ScrollIdempotent(v: ScrollView, homePage: bool, links: NavLinks, sections: seq<Section>, scrollY: real)
    ensures var w := AfterScroll(v, homePage, links, sections, scrollY);
            AfterScroll(w, homePage, links, sections, scrollY) == w
  {
  }

  /** The state after a scroll does not depend on the state before it, except for
      the link flags off the home page, which no listener touches. */
  lemma ScrollForgetsHistory(v: ScrollView, u: ScrollView, homePage: bool, links: NavLinks, sections: seq<Section>, scrollY: real)
    requires homePage || v.linkActive == u.linkActive
    ensures AfterScroll(v, homePage, links, sections, scrollY) == AfterScroll(u, homePage, links, sections, scrollY)
  {
  }

  /** The scroll-driven elements of the page. */
  class Page {
    const homePage: bool
    const links: NavLinks
    var scrollTopVisible: bool
    var shadow: Shadow
    var linkActive: seq<bool>

    ghost predicate Valid()
      reads this
    {
      |linkActive| == |links.hrefs|
    }

    function View(): ScrollView
      reads this
    {
      ScrollView(scrollTopVisible, shadow, linkActive)
    }

    /** Page load. `pathname` is `window.location.pathname`; the other arguments
        are the markup's initial classes. */
    constructor (pathname: string, links: NavLinks, initiallyActive: seq<bool>,
                 initiallyVisible: bool, initialShadow: Shadow)
      requires |initiallyActive| == |links.hrefs|
      ensures Valid()
      ensures homePage == IsHomePage(pathname) && this.links == links
      ensures View() == ScrollView(initiallyVisible, initialShadow, initiallyActive)
    {
      homePage := IsHomePage(pathname);
      this.links := links;
      scrollTopVisible := initiallyVisible;
      shadow := initialShadow;
      linkActive := initiallyActive;
    }

    /** `highlightNav` (script.js:166-192). */
    method HighlightNav(sections: seq<Section>, scrollY: real)
      requires Valid()
      modifies this
      ensures Valid()
      ensures View() == old(View()).(linkActive := Activation(links, LastMatch(sections, scrollY)))
    {
      var current := CurrentSection(sections, scrollY);
      var n := |linkActive|;
      for k := 0 to n
        invariant |linkActive| == n
        invariant forall j :: 0 <= j < k ==> linkActive[j] == LinkMatches(current, links.hrefs[j])
        invariant scrollTopVisible == old(scrollTopVisible) && shadow == old(shadow)
      {
        linkActive := linkActive[k := false];
        var href := links.hrefs[k];
        if current != "" && href.Some? && href.value != "" && |href.value| > 1 && href.value == "#" + current {
          linkActive := linkActive[k := true];
        }
      }
      if current == "" || current == "hero" {
        for k := 0 to n
          invariant |linkActive| == n
          invariant forall j :: 0 <= j < k ==> !linkActive[j]
          invariant scrollTopVisible == old(scrollTopVisible) && shadow == old(shadow)
        {
          linkActive := linkActive[k := false];
        }
        if links.home.Some? && links.home.value < n {
          linkActive := linkActive[links.home.value := true];
        }
      }
    }

    /** One scroll event: the listeners in registration order. */
    method OnScroll(sections: seq<Section>, scrollY: real)
      requires Valid()
      modifies this
      ensures Valid()
      ensures View() == AfterScroll(old(View()), homePage, links, sections, scrollY)
    {
      if scrollY > ScrollTopThreshold {
        scrollTopVisible := true;
      } else {
        scrollTopVisible := false;
      }
      if homePage {
        HighlightNav(sections, scrollY);
      }
      if scrollY > ShadowThreshold {
        shadow := Strong;
      } else {
        shadow := Light;
      }
    }
  }

  /** The worked example: on the root page "/", at offset 500 past a 600-pixel hero,
      a scroll event leaves only the '#academics' link active, whatever came before. */
  lemma AcademicsExample(v: ScrollView)
    ensures var links := NavLinks([Some("index.html"), Some("#about"), Some("#academics")], Some(0));
            var sections := [Section("hero", 0, 600), Section("academics", 600, 800)];
            AfterScroll(v, IsHomePage("/"), links, sections, 500.0).linkActive == [false, false, true]
  {
    assert IsHomePage("/") by {
      assert "/"[|"/"| - 1..] == "/";
    }
    var links := NavLinks([Some("index.html"), Some("#about"), Some("#academics")], Some(0));
    var sections := [Section("hero", 0, 600), Section("academics", 600, 800)];
    LastMatchIsLast(sections, 500.0, 1);
    var r := Activation(links, "academics");
    assert "#" + "academics" == "#academics";
    assert !r[0] && !r[1] && r[2];
    assert r == [false, false, true];
  }
}
