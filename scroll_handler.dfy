/**
 * The `ScrollHandler` utility: a per-platform configuration table, URL-based platform
 * detection, a viewport-visibility test, video lookup, and a scroll lock released by a timer.
 * Document queries are modelled over a list of elements in document order; the DOM parts of
 * the page tests are observed booleans; `window.scrollBy`/`Element.scrollBy` calls are
 * recorded in a log.
 */
module ScrollHandlerModel {
  import opened Wrappers
  import opened Strings

  /** One row of the handler's `config` table; every row scrolls by `window.innerHeight`. */
  datatype Config = Config(containerSelector: string, videoSelector: string, scrollBehavior: string)

  /** `this.config[platform]` for the table's own keys: defined for the two configured
      platforms; every other own-key lookup is `undefined`. */
  function ConfigFor(platform: string): (r: Option<Config>)
    ensures r.Some? <==> platform == "instagram" || platform == "youtube"
    ensures r.Some? ==> r.value.videoSelector == "video" && r.value.scrollBehavior == "smooth"
  {
    if platform == "instagram" then Some(Config("main[role=\"main\"]", "video", "smooth"))
    else if platform == "youtube" then Some(Config("#shorts-container, #content", "video", "smooth"))
    else None
  }

  /** Names `this.config[platform]` finds on `Object.prototype` rather than in the table:
      the lookup is a truthy function or object without a `videoSelector`. */
  predicate InheritedKey(platform: string)
  {
    platform in {"constructor", "__proto__", "hasOwnProperty", "isPrototypeOf",
                 "propertyIsEnumerable", "toString", "toLocaleString", "valueOf",
                 "__defineGetter__", "__defineSetter__", "__lookupGetter__", "__lookupSetter__"}
  }

  /** JavaScript truthiness of a platform argument: `null`/`undefined` and `''` are falsy. */
  predicate Truthy(platform: Option<string>)
  {
    platform.Some? && platform.value != ""
  }

  // ---------------------------------------------------------------------------
  // Platform detection

  datatype Location = Location(hostname: string, pathname: string)

  /** Outcome of the document probes: a `[aria-label*="Reel"]` or presentation article,
      and a `#shorts-container` element. */
  datatype DomHints = DomHints(reelElements: bool, shortsContainer: bool)

  predicate IsReelsPage(loc: Location, dom: DomHints)
  {
    Contains(loc.pathname, "/reels/") || dom.reelElements
  }

  predicate IsShortsPage(loc: Location, dom: DomHints)
  {
    Contains(loc.pathname, "/shorts/") || dom.shortsContainer
  }

  /** `getCurrentPlatform`; the result is always a key of the configuration table. */
  function GetCurrentPlatform(loc: Location, dom: DomHints): (r: Option<string>)
    ensures r.Some? ==> ConfigFor(r.value).Some? && Truthy(r)
  {
    if Contains(loc.hostname, "instagram.com") then
      (if IsReelsPage(loc, dom) then Some("instagram") else None)
    else if Contains(loc.hostname, "youtube.com") then
      (if IsShortsPage(loc, dom) then Some("youtube") else None)
    else None
  }

  // ---------------------------------------------------------------------------
  // Viewport test

  /** The fields of `getBoundingClientRect()` that the test reads. */
  datatype Rect = Rect(top: real, bottom: real, left: real, right: real, width: real, height: real)

  /** `window.innerWidth` and `window.innerHeight`. */
  datatype Viewport = Viewport(innerWidth: real, innerHeight: real)

  function Min(a: real, b: real): real { if a < b then a else b }
  function Max(a: real, b: real): real { if a > b then a else b }

  /** The part of the rectangle inside the viewport, with negative extents clamped to zero. */
  function VisibleArea(rect: Rect, view: Viewport): real
  {
    var visibleHeight := Min(rect.bottom, view.innerHeight) - Max(rect.top, 0.0);
    var visibleWidth := Min(rect.right, view.innerWidth) - Max(rect.left, 0.0);
    Max(0.0, visibleHeight) * Max(0.0, visibleWidth)
  }

  function TotalArea(rect: Rect): real
  {
    rect.width * rect.height
  }

  /** `isVideoInViewport`: more than half of the element's area is visible. */
  predicate IsVideoInViewport(rect: Rect, view: Viewport)
  {
    TotalArea(rect) > 0.0 && VisibleArea(rect, view) / TotalArea(rect) > 0.5
  }

  // ---------------------------------------------------------------------------
  // Video lookup

  /** A document element as the lookups see it. */
  datatype Element = Element(tag: string, paused: bool, rect: Rect)

  /** `document.querySelectorAll` for a tag-name selector: matching elements in document order. */
  function QuerySelectorAll(doc: seq<Element>, tag: string): seq<Element>
  {
    if doc == [] then []
    else (if doc[0].tag == tag then [doc[0]] else []) + QuerySelectorAll(doc[1..], tag)
  }

  /** The selector `getVideoElements` queries with: the plain `'video'` selector for a
      missing or unknown platform, the table's video selector for a configured one, and
      `undefined`, converted to the string `"undefined"`, for an inherited name. */
  function VideoSelector(platform: Option<string>): string
  {
    if !Truthy(platform) then "video"
    else if ConfigFor(platform.value).Some? then ConfigFor(platform.value).value.videoSelector
    else if InheritedKey(platform.value) then "undefined"
    else "video"
  }

  function GetVideoElements(platform: Option<string>, doc: seq<Element>): seq<Element>
  {
    QuerySelectorAll(doc, VideoSelector(platform))
  }

  /** The element is playing and more than half visible. */
  predicate PlayingInView(e: Element, view: Viewport)
  {
    !e.paused && IsVideoInViewport(e.rect, view)
  }

  predicate InView(e: Element, view: Viewport)
  {
    IsVideoInViewport(e.rect, view)
  }

  /**
   * `getCurrentVideo`: the position, among the platform's video elements, of the first
   * playing in-viewport video; failing that, of the first in-viewport video; otherwise none.
   */
  method GetCurrentVideo(platform: Option<string>, doc: seq<Element>, view: Viewport)
    returns (r: Option<nat>)
    ensures var videos := GetVideoElements(platform, doc);
      r.Some? ==> r.value < |videos| && InView(videos[r.value], view)
    ensures var videos := GetVideoElements(platform, doc);
      (exists i :: 0 <= i < |videos| && PlayingInView(videos[i], view)) ==>
        r.Some? && PlayingInView(videos[r.value], view) &&
        forall j :: 0 <= j < r.value ==> !PlayingInView(videos[j], view)
    ensures var videos := GetVideoElements(platform, doc);
      (forall i :: 0 <= i < |videos| ==> !PlayingInView(videos[i], view)) && r.Some? ==>
        forall j :: 0 <= j < r.value ==> !InView(videos[j], view)
    ensures var videos := GetVideoElements(platform, doc);
      r.None? <==> forall i :: 0 <= i < |videos| ==> !InView(videos[i], view)
  {
    var videos := GetVideoElements(platform, doc);
    var i := 0;
    while i < |videos|
      invariant 0 <= i <= |videos|
      invariant forall j :: 0 <= j < i ==> !PlayingInView(videos[j], view)
    {
      if !videos[i].paused && IsVideoInViewport(videos[i].rect, view) {
        return Some(i);
      }
      i := i + 1;
    }
    i := 0;
    while i < |videos|
      invariant 0 <= i <= |videos|
      invariant forall j :: 0 <= j < i ==> !InView(videos[j], view)
    {
      if IsVideoInViewport(videos[i].rect, view) {
        return Some(i);
      }
      i := i + 1;
    }
    return None;
  }

  // ---------------------------------------------------------------------------
  // Scrolling

  datatype ScrollTarget = OnContainer | OnWindow

  /** One `scrollBy({top, behavior})` call. */
  datatype ScrollCall = ScrollCall(target: ScrollTarget, top: real, behavior: string)

  /** A listener function; each closure is a distinct object. */
  class Handler {
    const platform: Option<string>
    constructor (platform: Option<string>)
      ensures this.platform == platform
    {
      this.platform := platform;
    }
  }

  /** A video element's listeners for the `ended` event, in registration order. */
  class MediaElement {
    var endedListeners: seq<Handler>
    constructor ()
      ensures endedListeners == []
    {
      endedListeners := [];
    }
  }

  class ScrollHandler {
    var isScrolling: bool
    var scrollTimeout: Option<nat>     // the last handle stored by scrollToNextVideo, or null
    var pending: set<nat>              // reset timers set and neither fired nor cleared
    var nextId: nat                    // the handle setTimeout hands out next
    var scrolls: seq<ScrollCall>       // scrollBy calls issued so far, oldest first

    /** The lock is held exactly while the reset timer stored in `scrollTimeout` is pending. */
    ghost predicate Valid()
      reads this
    {
      && (forall id :: id in pending ==> id < nextId)
      && (scrollTimeout.Some? ==> scrollTimeout.value < nextId)
      && pending <= (if scrollTimeout.Some? then {scrollTimeout.value} else {})
      && (isScrolling <==> scrollTimeout.Some? && scrollTimeout.value in pending)
    }

    constructor ()
      ensures Valid()
      ensures !isScrolling && scrollTimeout == None && pending == {} && scrolls == []
    {
      isScrolling := false;
      scrollTimeout := None;
      pending := {};
      nextId := 1;
      scrolls := [];
    }

    /**
     * `scrollToNextVideo`: refused while locked or without a platform; otherwise takes the
     * lock, scrolls the platform's container (or the window) by one viewport height, and
     * always arms the 1000 ms release timer. An unconfigured platform throws and the catch
     * returns false: an unknown name on reading `containerSelector` of `undefined`, a name
     * inherited from `Object.prototype` on calling its missing `scrollAmount`.
     */
    method ScrollToNextVideo(platform: Option<string>, containerFound: bool, view: Viewport)
      returns (ok: bool)
      requires Valid()
      modifies this
      ensures Valid()
      ensures old(isScrolling) || !Truthy(platform) ==>
        !ok && isScrolling == old(isScrolling) && scrollTimeout == old(scrollTimeout) &&
        pending == old(pending) && nextId == old(nextId) && scrolls == old(scrolls)
      ensures !old(isScrolling) && Truthy(platform) ==>
        && ok == ConfigFor(platform.value).Some?
        && isScrolling
        && scrollTimeout == Some(old(nextId)) && pending == {old(nextId)} && nextId == old(nextId) + 1
        && scrolls == old(scrolls) +
             (if ok then [ScrollCall(if containerFound then OnContainer else OnWindow, view.innerHeight, "smooth")]
              else [])
    {
      if isScrolling || !Truthy(platform) {
        return false;
      }
      isScrolling := true;
      var config := ConfigFor(platform.value);
      if config.None? {
        // the lookup or the `scrollAmount` call throws; the catch returns false
        ok := false;
      } else {
        var target := if containerFound then OnContainer else OnWindow;
        scrolls := scrolls + [ScrollCall(target, view.innerHeight, config.value.scrollBehavior)];
        ok := true;
      }
      // finally: arm the release timer
      scrollTimeout := Some(nextId);
      pending := pending + {nextId};
      nextId := nextId + 1;
    }

    /** The release timer's callback. */
    method FireScrollReset(id: nat)
      requires Valid() && id in pending
      modifies this
      ensures Valid()
      ensures !isScrolling && pending == old(pending) - {id}
      ensures scrollTimeout == old(scrollTimeout) && nextId == old(nextId) && scrolls == old(scrolls)
    {
      isScrolling := false;
      pending := pending - {id};
    }

    /** `cleanup`: cancels the stored timer, forgets its handle and releases the lock. */
    method Cleanup()
      requires Valid()
      modifies this
      ensures Valid()
      ensures scrollTimeout == None && !isScrolling && pending == {}
      ensures nextId == old(nextId) && scrolls == old(scrolls)
    {
      if scrollTimeout.Some? {
        pending := pending - {scrollTimeout.value};
        scrollTimeout := None;
      }
      isScrolling := false;
    }

    /**
     * `addVideoEndListener`: builds a new closure, removes that new closure (which was
     * never registered) and registers it, so every call adds one more listener.
     */
    method AddVideoEndListener(video: MediaElement, platform: Option<string>)
      returns (h: Handler)
      modifies video
      ensures fresh(h) && h.platform == platform
      ensures video.endedListeners == old(video.endedListeners) + [h]
      ensures h !in old(video.endedListeners)
    {
      h := new Handler(platform);
      video.endedListeners := RemoveListener(video.endedListeners, h);
      if h !in video.endedListeners {
        video.endedListeners := video.endedListeners + [h];
      }
    }
  }

  /** `removeEventListener`: drops the given listener if registered. */
  function RemoveListener(ls: seq<Handler>, h: Handler): (r: seq<Handler>)
    ensures h !in r
    ensures forall i :: 0 <= i < |r| ==> r[i] in ls
    ensures forall i :: 0 <= i < |ls| && ls[i] != h ==> ls[i] in r
    ensures h !in ls ==> r == ls
  {
    if ls == [] then []
    else (if ls[0] == h then [] else [ls[0]]) + RemoveListener(ls[1..], h)
  }
}
