/** Properties of the `ScrollHandler` model, including the cases its unit tests pin. */
module ScrollHandlerLemmas {
  import opened Wrappers
  import opened Strings
  import opened ScrollHandlerModel

  /** `getCurrentPlatform` described by occurrences of the host and path markers. */
  lemma GetCurrentPlatformCases(loc: Location, dom: DomHints)
    ensures GetCurrentPlatform(loc, dom) == Some("instagram") <==>
      Occurs(loc.hostname, "instagram.com") && (Occurs(loc.pathname, "/reels/") || dom.reelElements)
    ensures GetCurrentPlatform(loc, dom) == Some("youtube") <==>
      !Occurs(loc.hostname, "instagram.com") && Occurs(loc.hostname, "youtube.com") &&
      (Occurs(loc.pathname, "/shorts/") || dom.shortsContainer)
    ensures GetCurrentPlatform(loc, dom).Some? ==>
      GetCurrentPlatform(loc, dom) == Some("instagram") || GetCurrentPlatform(loc, dom) == Some("youtube")
  {
    ContainsIffOccurs(loc.hostname, "instagram.com");
    ContainsIffOccurs(loc.hostname, "youtube.com");
    ContainsIffOccurs(loc.pathname, "/reels/");
    ContainsIffOccurs(loc.pathname, "/shorts/");
  }

  /** The platform tests of the unit suite: an Instagram Reels URL, ... */
  lemma GetCurrentPlatformInstagramExample(dom: DomHints)
    ensures GetCurrentPlatform(Location("www.instagram.com", "/reels/test"), dom) == Some("instagram")
  {
    var loc := Location("www.instagram.com", "/reels/test");
    assert OccursAt(loc.hostname, "instagram.com", 4);
    ContainsAt(loc.hostname, "instagram.com", 4);
    assert OccursAt(loc.pathname, "/reels/", 0);
    ContainsAt(loc.pathname, "/reels/", 0);
  }

  /** ... a YouTube Shorts URL, ... */
  lemma GetCurrentPlatformYouTubeExample(dom: DomHints)
    ensures GetCurrentPlatform(Location("www.youtube.com", "/shorts/test"), dom) == Some("youtube")
  {
    YouTubeHostExample();
    assert OccursAt("/shorts/test", "/shorts/", 0);
    ContainsAt("/shorts/test", "/shorts/", 0);
  }

  lemma YouTubeHostExample()
    ensures !Contains("www.youtube.com", "instagram.com") && Contains("www.youtube.com", "youtube.com")
  {
    MissingFirstChar("www.youtube.com", "instagram.com");
    assert OccursAt("www.youtube.com", "youtube.com", 4);
    ContainsAt("www.youtube.com", "youtube.com", 4);
  }

  /** ... and an unsupported host. */
  lemma GetCurrentPlatformUnsupportedExample(dom: DomHints)
    ensures GetCurrentPlatform(Location("www.example.com", "/test"), dom) == None
  {
    MissingFirstChar("www.example.com", "instagram.com");
    MissingFirstChar("www.example.com", "youtube.com");
  }

  /** A piece whose first character never appears in the text is not contained in it. */
  lemma MissingFirstChar(s: string, t: string)
    requires |t| > 0 && t[0] !in s
    ensures !Contains(s, t)
  {
    ContainsIffOccurs(s, t);
  }

  /** The visibility test without division: visible area more than half the total area. */
  lemma {:induction false} IsVideoInViewportIff(rect: Rect, view: Viewport)
    ensures IsVideoInViewport(rect, view) <==>
      TotalArea(rect) > 0.0 && 2.0 * VisibleArea(rect, view) > TotalArea(rect)
  {
    var total := TotalArea(rect);
    var visible := VisibleArea(rect, view);
    if total > 0.0 {
      var q := visible / total;
      assert visible == q * total;
      assert q > 0.5 <==> q * total > 0.5 * total;
    }
  }

  /** An element lying wholly inside the viewport with positive size is in view. */
  lemma WhollyVisibleIsInViewport(rect: Rect, view: Viewport)
    requires 0.0 <= rect.top < rect.bottom <= view.innerHeight
    requires 0.0 <= rect.left < rect.right <= view.innerWidth
    requires rect.height == rect.bottom - rect.top && rect.width == rect.right - rect.left
    ensures IsVideoInViewport(rect, view)
  {
    assert VisibleArea(rect, view) == rect.height * rect.width;
    IsVideoInViewportIff(rect, view);
  }

  /** An element wholly above the viewport is not in view. */
  lemma AboveViewportIsNotInViewport(rect: Rect, view: Viewport)
    requires rect.bottom <= 0.0
    ensures !IsVideoInViewport(rect, view)
  {
    assert VisibleArea(rect, view) == 0.0;
  }

  /** The viewport tests of the unit suite (a 1920 x 1080 window). */
  lemma IsVideoInViewportExamples()
    ensures IsVideoInViewport(Rect(100.0, 500.0, 100.0, 500.0, 400.0, 400.0), Viewport(1920.0, 1080.0))
    ensures !IsVideoInViewport(Rect(-500.0, -100.0, 100.0, 500.0, 400.0, 400.0), Viewport(1920.0, 1080.0))
  {
    WhollyVisibleIsInViewport(Rect(100.0, 500.0, 100.0, 500.0, 400.0, 400.0), Viewport(1920.0, 1080.0));
    AboveViewportIsNotInViewport(Rect(-500.0, -100.0, 100.0, 500.0, 400.0, 400.0), Viewport(1920.0, 1080.0));
  }

  /** A tag query returns exactly the document's elements with that tag. */
  lemma {:induction false} QuerySelectorAllMembers(doc: seq<Element>, tag: string, e: Element)
    ensures e in QuerySelectorAll(doc, tag) <==> e in doc && e.tag == tag
  {
    if doc != [] {
      QuerySelectorAllMembers(doc[1..], tag, e);
      assert doc == [doc[0]] + doc[1..];
    }
  }

  /** A tag query keeps document order: querying a document made of two parts queries each
      part and keeps the first part's matches first. */
  lemma {:induction false} QuerySelectorAllAppend(a: seq<Element>, b: seq<Element>, tag: string)
    ensures QuerySelectorAll(a + b, tag) == QuerySelectorAll(a, tag) + QuerySelectorAll(b, tag)
    decreases |a|
  {
    if a != [] {
      QuerySelectorAllAppend(a[1..], b, tag);
      assert (a + b)[1..] == a[1..] + b;
    } else {
      assert a + b == b;
    }
  }

  /** A tag query's result is no longer than the document, and is all of it when every
      element matches. */
  lemma {:induction false} QuerySelectorAllLength(doc: seq<Element>, tag: string)
    ensures |QuerySelectorAll(doc, tag)| <= |doc|
    ensures (forall i :: 0 <= i < |doc| ==> doc[i].tag == tag) ==> QuerySelectorAll(doc, tag) == doc
  {
    if doc != [] {
      QuerySelectorAllLength(doc[1..], tag);
    }
  }

  /** A configured, unknown or missing platform queries plain `video`; a name inherited from
      `Object.prototype` queries the `undefined` type selector instead. */
  lemma GetVideoElementsQueriesVideo(platform: Option<string>, doc: seq<Element>, e: Element)
    ensures VideoSelector(platform) == (if Truthy(platform) && InheritedKey(platform.value) then "undefined" else "video")
    ensures !(Truthy(platform) && InheritedKey(platform.value)) ==>
      (e in GetVideoElements(platform, doc) <==> e in doc && e.tag == "video")
    ensures Truthy(platform) && InheritedKey(platform.value) ==>
      (e in GetVideoElements(platform, doc) <==> e in doc && e.tag == "undefined")
  {
    QuerySelectorAllMembers(doc, VideoSelector(platform), e);
  }

  /** The inherited name of the quirk: `'constructor'` queries `undefined`, and scrolling
      to it is refused. */
  lemma InheritedKeyExample()
    ensures VideoSelector(Some("constructor")) == "undefined" && ConfigFor("constructor").None?
  {
  }

  /**
   * The scroll tests of the unit suite on a handler with no scroll container in the page:
   * Instagram scrolls the window by the viewport height, a second call while locked is
   * refused, `cleanup` releases the lock, and an unconfigured platform is refused.
   */
  method ScrollScenario() returns (first: bool, locked: bool, afterCleanup: bool, invalid: bool, calls: seq<ScrollCall>)
    ensures first && !locked && afterCleanup && !invalid
    ensures calls == [ScrollCall(OnWindow, 1080.0, "smooth"), ScrollCall(OnWindow, 1080.0, "smooth")]
  {
    var view := Viewport(1920.0, 1080.0);
    var h := new ScrollHandler();
    first := h.ScrollToNextVideo(Some("instagram"), false, view);
    locked := h.ScrollToNextVideo(Some("instagram"), false, view);
    h.Cleanup();
    afterCleanup := h.ScrollToNextVideo(Some("youtube"), false, view);
    h.Cleanup();
    invalid := h.ScrollToNextVideo(Some("invalid"), false, view);
    calls := h.scrolls;
  }

  /** Registering the end listener twice leaves two listeners, not one. */
  method EndListenerScenario() returns (count: nat)
    ensures count == 2
  {
    var h := new ScrollHandler();
    var video := new MediaElement();
    var a := h.AddVideoEndListener(video, Some("instagram"));
    var b := h.AddVideoEndListener(video, Some("instagram"));
    count := |video.endedListeners|;
  }
}
