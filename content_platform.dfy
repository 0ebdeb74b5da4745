/**
 * Page classification of the content script: which supported site, if any, the page
 * currently shows. The URL tests are modelled on strings; the tests that inspect the
 * document (selector probes, video heights, ancestor containers) are taken as observed
 * booleans.
 */
module ContentPlatform {
  import opened Wrappers
  import opened Strings

  datatype PlatformId = Instagram | YouTube

  /** `window.location.hostname` and `window.location.pathname`. */
  datatype Location = Location(hostname: string, pathname: string)

  /** Outcome of the document probes of `isReelsPage` and `isShortsPage`. */
  datatype DomHints = DomHints(
    reelElements: bool,   // a reel selector matched, or a video is taller than 70% of the viewport
    shortsElements: bool  // a Shorts selector matched, or a video sits inside a Shorts container
  )

  /** The URL part of Instagram's `isReelsPage`. */
  predicate HasReelInUrl(pathname: string)
  {
    Contains(pathname, "/reels/") || Contains(pathname, "/reel/") || Contains(pathname, "/stories/")
  }

  predicate IsReelsPage(loc: Location, dom: DomHints)
  {
    HasReelInUrl(loc.pathname) || dom.reelElements
  }

  predicate IsShortsPage(loc: Location, dom: DomHints)
  {
    Contains(loc.pathname, "/shorts/") || dom.shortsElements
  }

  /** `getCurrentPlatform`: the host decides which site's page test applies, Instagram first. */
  function CurrentPlatform(loc: Location, dom: DomHints): Option<PlatformId>
  {
    if Contains(loc.hostname, "instagram.com") then
      (if IsReelsPage(loc, dom) then Some(Instagram) else None)
    else if Contains(loc.hostname, "youtube.com") then
      (if IsShortsPage(loc, dom) then Some(YouTube) else None)
    else None
  }

  /** The classifier described by occurrences of the host and path markers. */
  lemma CurrentPlatformCases(loc: Location, dom: DomHints)
    ensures CurrentPlatform(loc, dom) == Some(Instagram) <==>
      Occurs(loc.hostname, "instagram.com") &&
      (Occurs(loc.pathname, "/reels/") || Occurs(loc.pathname, "/reel/") ||
       Occurs(loc.pathname, "/stories/") || dom.reelElements)
    ensures CurrentPlatform(loc, dom) == Some(YouTube) <==>
      !Occurs(loc.hostname, "instagram.com") && Occurs(loc.hostname, "youtube.com") &&
      (Occurs(loc.pathname, "/shorts/") || dom.shortsElements)
    ensures CurrentPlatform(loc, dom) == None <==>
      !(Occurs(loc.hostname, "instagram.com") || Occurs(loc.hostname, "youtube.com")) ||
      (Occurs(loc.hostname, "instagram.com") && !IsReelsPage(loc, dom)) ||
      (!Occurs(loc.hostname, "instagram.com") && Occurs(loc.hostname, "youtube.com") && !IsShortsPage(loc, dom))
  {
    ContainsIffOccurs(loc.hostname, "instagram.com");
    ContainsIffOccurs(loc.hostname, "youtube.com");
    ContainsIffOccurs(loc.pathname, "/reels/");
    ContainsIffOccurs(loc.pathname, "/reel/");
    ContainsIffOccurs(loc.pathname, "/stories/");
    ContainsIffOccurs(loc.pathname, "/shorts/");
  }

  /** A Reels, single-reel or Stories path on an Instagram host needs no document evidence. */
  lemma ReelPathSuffices(loc: Location, dom: DomHints, i: int)
    requires OccursAt(loc.hostname, "instagram.com", i)
    requires Occurs(loc.pathname, "/reels/") || Occurs(loc.pathname, "/reel/") || Occurs(loc.pathname, "/stories/")
    ensures CurrentPlatform(loc, dom) == Some(Instagram)
  {
    CurrentPlatformCases(loc, dom);
  }

  /** A host naming both sites is treated as Instagram's: YouTube is only consulted otherwise. */
  lemma InstagramHostShadowsYouTube(loc: Location, dom: DomHints)
    requires Occurs(loc.hostname, "instagram.com")
    ensures CurrentPlatform(loc, dom) != Some(YouTube)
  {
    CurrentPlatformCases(loc, dom);
  }
}
