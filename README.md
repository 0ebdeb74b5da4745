# Auto-Scroll extension: video-end detection and scroll lock

This project models the browser extension that scrolls Instagram Reels and YouTube Shorts to
the next video when the current one ends, and proves properties of that model. Two parts of
the extension are modelled.

- **The content script** (`public/content.js`) decides when a video has ended. It uses the
  `ended`, `timeupdate`, `pause`, `error` and `stalled` events, a per-video "triggered"
  marker, a high-progress counter, backward-jump (loop) detection and a dedicated YouTube
  loop listener. It then schedules one scroll behind a global `isScrolling` lock. The model
  has three layers:
  - `Globals` and `Tracking` are pure state records (script-wide and per-video).
  - Each listener and each timer callback is a step function over those records.
  - Two classes modify those records in place, one method per handler, and each method's
    postcondition ties the new state to its step function. `Detector` holds the closure
    variables `autoScrollEnabled`, `isScrolling` and `scrollTimeout`, plus the timer table.
    `Video` holds a video element's media state and the properties the script stores on it.
- **The `ScrollHandler` utility** (`src/utils/scrollHandler.js`) is modelled with the
  following parts:
  - its configuration table;
  - URL-based platform detection;
  - the "more than half visible" viewport test;
  - the two-pass current-video lookup;
  - a class whose lock is released by a 1000 ms timer;
  - `addVideoEndListener`.

Timers are explicit. `setTimeout` hands out handles counted from 1. A pending timer is an
entry `handle -> Scheduled(kind, delay)` in a map, and `clearTimeout` removes the entry. A
timer firing is an input step, one method per callback kind. `nextVideoTrigger` is opaque:
each call is appended to a ghost log of the platforms triggered. Each call of
`handleVideoEnd` is counted in a ghost counter.

The first main result is `ContentScriptLemmas.ReachableStatesAreSafe`. It takes a page with
one video element, starting from the script as loaded. After any sequence of events, timer
firings, attachments and toggle messages, the following hold:
- at most one scroll trigger is pending, and it is the one `scrollTimeout` holds;
- at most one `_loopTimer` and one `_youtubeLoopTimer` of the video are pending.

The second main result is `ContentScriptLemmas.TickEnds`. It states exactly when a
`timeupdate` on an attached video ends in a call of `handleVideoEnd`. The call is made at
most once per tick, and it leaves the video marked as triggered.

## Model

| member | source | states |
|---|---|---|
| Strings.ContainsIffOccurs | src/utils/scrollHandler.js:31-35 | the left-to-right `includes` scan finds `t` exactly when `t` occurs as a contiguous piece of `s` (both directions) |
| Strings.ContainsAt | src/utils/scrollHandler.js:31-35 | an occurrence at any position makes `includes` true |
| ContentPlatform.CurrentPlatformCases | public/content.js:377-385 | the page is Instagram exactly when the host names instagram.com and the path holds `/reels/`, `/reel/` or `/stories/` or reel elements are present; YouTube exactly when the host does not name instagram.com, names youtube.com, and `/shorts/` or Shorts elements are present; otherwise no platform |
| ContentPlatform.ReelPathSuffices | public/content.js:79-122 | a Reels, single-reel or Stories path on an Instagram host is classified Instagram whatever the document shows |
| ContentPlatform.InstagramHostShadowsYouTube | public/content.js:379-383 | a host naming instagram.com is never classified YouTube, because the Instagram branch is tested first |
| ContentScript.CleanupPendingCancels | public/content.js:675-715 | the cleanup loop over a list of videos removes from the timer table exactly the loop-timer handles held by the attached videos, and no other timer |
| ContentScript.AttachPendingCancels | public/content.js:930-932 | attaching to every video of a list, in order, removes exactly the loop-timer handles held by the videos not yet attached |
| ContentScript.CleanupSplitsHandles | public/content.js:635-947 | cleanup followed by attach over the same list cancels every loop-timer handle held by any video of the list |
| ContentScript.Detector.constructor | public/content.js:4-7 | the script starts disabled and unlocked, with no scroll timer and an empty timer table |
| ContentScript.Detector.HandleVideoEnd | public/content.js:388-445 | the new script-wide state is `HandleVideoEndStep` of the old one, whose properties are proved in the lemmas below |
| ContentScript.Detector.NearEndCheck | public/content.js:519-535 | the state of the script and of the video after case 1 of the timeupdate handler is `NearEndCase` of the old state |
| ContentScript.Detector.LoopCheck | public/content.js:537-603 | case 2 (loop detection) changes the state as `LoopCase` does |
| ContentScript.Detector.ProgressCheck | public/content.js:605-623 | case 3 (high-progress counter) changes the state as `ProgressCase` does |
| ContentScript.Detector.MainListener | public/content.js:458-627 | the whole main timeupdate handler, including the disabled path and the final time record, is `MainListenerStep` |
| ContentScript.Detector.YoutubeListener | public/content.js:787-831 | the dedicated YouTube loop listener, with its five-entry time window and its detection flag, is `YoutubeListenerStep` |
| ContentScript.Detector.TimeUpdate | public/content.js:775-834 | a timeupdate runs the main listener and, on a YouTube attachment, the YouTube listener after it; a video without listeners is unaffected |
| ContentScript.Detector.Ended | public/content.js:753-768 | the ended listener changes the state as `EndedStep` does |
| ContentScript.Detector.Pause | public/content.js:840-857 | the pause listener changes the state as `PauseStep` does |
| ContentScript.Detector.Error | public/content.js:861-868 | the error listener changes the state as `ErrorStep` does |
| ContentScript.Detector.Stalled | public/content.js:872-880 | the stalled listener changes the state as `StalledStep` does |
| ContentScript.Detector.FireScrollTrigger | public/content.js:426-444 | the scroll callback removes its timer, triggers its platform and schedules the 1000 ms lock release |
| ContentScript.Detector.FireLockRelease | public/content.js:440-443 | the release callback removes its timer and clears `isScrolling` |
| ContentScript.Detector.FireClearTriggered | public/content.js:532-534 | the marker timer removes itself and clears the video's `triggered` marker |
| ContentScript.Detector.FireLoop | public/content.js:560-590 | the `_loopTimer` callback changes the state as `LoopFireStep` does, for a trigger that returns or throws |
| ContentScript.Detector.FireLoopRelease | public/content.js:580-584 | the loop release clears the lock and `_waitingForLoop` |
| ContentScript.Detector.FirePauseRecheck | public/content.js:850-855 | 200 ms after an early YouTube pause, the recheck calls `handleVideoEnd` only if the video is still paused in its first second |
| ContentScript.Detector.FireYoutubeLoop | public/content.js:812-822 | the `_youtubeLoopTimer` callback changes the state as `YoutubeLoopFireStep` does |
| ContentScript.Detector.FireLoopDetectionRelease | public/content.js:825-827 | the 3000 ms release clears the detection flag of the attachment that set it, and only of that one |
| ContentScript.Detector.ClearVideoTimers | public/content.js:730-738 | clearing a video's timers cancels exactly its two loop-timer handles and forgets them |
| ContentScript.Detector.AttachVideoListeners | public/content.js:719-890 | attaching changes the state as `AttachStep` does: a no-op on a marked video, otherwise it marks the video, cancels its loop timers and creates fresh listeners |
| ContentScript.Detector.CleanupAllVideoListeners | public/content.js:661-716 | cleanup cancels the loop timers of the attached videos and no other timer; every video's properties become `Cleaned` of the old ones; media state is untouched |
| ContentScript.Detector.AttachAll | public/content.js:930-932 | `existingVideos.forEach(attachVideoListeners)` cancels the loop timers of the unattached videos and leaves each video `Attached` |
| ContentScript.Detector.SetupVideoObservers | public/content.js:635-947 | disabled or no platform: nothing changes; otherwise the flags are untouched, every loop-timer handle of the list is cancelled, and each video is freshly attached after cleanup |
| ContentScript.Detector.ToggleAutoScroll | public/content.js:998-1018 | the flag takes the new value; only an off-to-on change on a supported page sets up the observers again; toggling off changes nothing else |
| ContentScriptLemmas.InitialInv | public/content.js:4-7 | the loaded script satisfies the timer-table invariant |
| ContentScriptLemmas.AtMostOneScrollTrigger | public/content.js:392-426 | under the invariant, two pending scroll triggers are the same timer |
| ContentScriptLemmas.HandleVideoEndClearsPrevious | public/content.js:391-395 | whatever the state, `handleVideoEnd` cancels the pending scroll timer first, and leaves the flag and the trigger log alone |
| ContentScriptLemmas.HandleVideoEndSchedulesIff | public/content.js:397-444 | a trigger is scheduled exactly when the script is enabled, a platform is detected and the lock is free or overridden by a YouTube loop; the delay is 100 ms on override, else 500 ms; the lock is then taken; otherwise only the cancellation happened |
| ContentScriptLemmas.HandleVideoEndKeepsInv | public/content.js:388-445 | `handleVideoEnd` preserves the timer-table invariant |
| ContentScriptLemmas.SecondEndLosesScroll | public/content.js:391-417 | a second end signal while the first trigger is still pending cancels it and returns on the lock: no scroll is pending and the lock is left held |
| ContentScriptLemmas.ScrollTriggerIgnoresFlag | public/content.js:426-444 | a pending scroll fires and schedules its release whether or not auto-scroll is still enabled |
| ContentScriptLemmas.ScrollTriggerKeepsInv | public/content.js:426-444 | the scroll callback preserves the timer-table invariant |
| ContentScriptLemmas.ReleaseTimersClearFlags | public/content.js:440-443 | the lock-release, marker, loop-release and detection-release timers each clear only their flag and remove themselves |
| ContentScriptLemmas.YoutubeLoopFireOpensLock | public/content.js:812-822 | when enabled, the YouTube loop timer opens the lock and triggers YouTube without re-arming the lock; when disabled it only expires |
| ContentScriptLemmas.DisabledTickOnlyRecordsTime | public/content.js:461-467 | a tick on an attached video while disabled records the current time and changes nothing else |
| ContentScriptLemmas.DetachedTickIgnored | public/content.js:694-699 | after the listeners are removed, a tick changes nothing |
| ContentScriptLemmas.NearEndCaseEnds | public/content.js:519-535 | case 1 calls `handleVideoEnd` exactly when the video is near its end for the platform threshold (0.3 s, 0.7 s, 0.5 s), playing, with known positive duration and time, and not triggered; a call schedules the timer that clears the marker after 2000 ms |
| ContentScriptLemmas.LoopCaseEnds | public/content.js:537-603 | case 2 calls `handleVideoEnd` exactly on a backward jump past the midpoint on a non-YouTube attachment that is not triggered; a call schedules the marker clear after 3000 ms |
| ContentScriptLemmas.ProgressCaseEnds | public/content.js:605-623 | case 3 calls `handleVideoEnd` exactly at progress above 85% on an untriggered video whose counter was already at least 3; a call schedules the marker clear after 2000 ms |
| ContentScriptLemmas.MainCasesEnd | public/content.js:508-626 | the three cases in sequence call `handleVideoEnd` at most once, and exactly when one of the three conditions holds on the state before the tick |
| ContentScriptLemmas.YoutubeListenerNeverEnds | public/content.js:787-831 | the YouTube listener never calls `handleVideoEnd`, and never touches the flags, the marker or the recorded time |
| ContentScriptLemmas.TickEnds | public/content.js:458-627 | a tick on an attached video calls `handleVideoEnd` exactly when enabled, untriggered and one of the three end conditions holds; at most once; always records the current time; a call leaves the video triggered |
| ContentScriptLemmas.FireEndClearsMarkerLater | public/content.js:527-534 | a detection marks the video triggered, counts one call and schedules the timer that clears the marker after the given quiet period |
| ContentScriptLemmas.ProgressCounter | public/content.js:607-623 | the counter increments above 85% on an untriggered video and changes otherwise only by the reset to 0 below 80%; it fires only once past 3; every other tick, including one between 80% and 85% or on a triggered video, leaves the state unchanged |
| ContentScriptLemmas.ProgressTestsExclusive | public/content.js:607-623 | at the midpoint of a video the low-progress test holds and none of the high-progress, stalled or ended tests do |
| ContentScriptLemmas.YoutubeLoopDefers | public/content.js:545-590 | on YouTube a loop never calls `handleVideoEnd` directly: it cancels the previous `_loopTimer` and sets a new 500 ms one, whose handle the video keeps |
| ContentScriptLemmas.PushRecentWindow | public/content.js:793-795 | push-then-shift keeps the newest at most five times, newest last, in order |
| ContentScriptLemmas.YoutubeListenerWindow | public/content.js:787-831 | the YouTube listener keeps that window on every enabled tick; while a detection is active it sets no timer |
| ContentScriptLemmas.EndedEndsIff | public/content.js:753-768 | the ended listener forwards exactly when attached, enabled and at 90% or more of a known positive duration; otherwise nothing changes |
| ContentScriptLemmas.PauseEndsIff | public/content.js:840-857 | the pause listener forwards exactly when attached and within 0.5 s of the end, with no enabled check |
| ContentScriptLemmas.PauseWhileDisabledCancelsScroll | public/content.js:840-846 | a pause near the end while disabled still cancels a pending scroll, through `handleVideoEnd` |
| ContentScriptLemmas.PauseNearStartRechecks | public/content.js:847-855 | an early pause of a YouTube video schedules the 200 ms recheck and calls nothing yet |
| ContentScriptLemmas.ErrorEndsIff | public/content.js:861-868 | the error listener forwards exactly when attached and past 70% of the duration; otherwise nothing changes |
| ContentScriptLemmas.ErrorZeroDuration | public/content.js:863 | with a zero duration, any positive time counts as past 70% for the error listener (an infinite ratio) but not for the stalled listener |
| ContentScriptLemmas.StalledEndsIff | public/content.js:872-879 | the stalled listener forwards exactly when attached and past 90% of a known positive duration; otherwise nothing changes |
| ContentScriptLemmas.LoopFireLeavesLockOpen | public/content.js:560-590 | the loop timer opens the lock, triggers YouTube and sets `_waitingForLoop` and its 1000 ms release, or clears `_waitingForLoop` when the trigger throws; it never takes the lock |
| ContentScriptLemmas.LoopFireThenEndUsesOverride | public/content.js:408-423 | after a loop timer fired, the next end signal on YouTube schedules the scroll with the 100 ms override delay |
| ContentScriptLemmas.LoopFireDisabled | public/content.js:561-565 | when disabled, the loop timer only expires |
| ContentScriptLemmas.StaleDetectionReleaseIgnored | public/content.js:825-827 | the release timer of an earlier attachment's YouTube listener does not touch the current attachment |
| ContentScriptLemmas.AttachIdempotent | public/content.js:719-728 | attaching twice is attaching once |
| ContentScriptLemmas.AttachStartsClean | public/content.js:719-751 | a first attachment marks the video, records the platform and the time, resets the counter and the YouTube window, cancels the old loop timer and changes nothing else script-wide |
| ContentScriptLemmas.SetupGivesFreshListeners | public/content.js:661-751 | cleanup then attach gives a video fresh listeners, no loop timers, and a triggered marker only if it was never attached |
| ContentScriptLemmas.CleanedIsDetached | public/content.js:661-716 | cleanup removes the listeners, and on an attached video the marker and the loop-timer handles too; cleaning twice is cleaning once |
| ContentScriptLemmas.HandleVideoEndKeepsPageInv | public/content.js:388-445 | `handleVideoEnd` preserves the page invariant |
| ContentScriptLemmas.FireEndKeepsPageInv | public/content.js:527-534 | a detection with its marker timer preserves the page invariant |
| ContentScriptLemmas.NearEndCaseKeepsPageInv | public/content.js:519-535 | case 1 preserves the page invariant |
| ContentScriptLemmas.LoopCaseKeepsPageInv | public/content.js:545-602 | case 2 replaces the `_loopTimer` and never duplicates it |
| ContentScriptLemmas.ProgressCaseKeepsPageInv | public/content.js:607-623 | case 3 preserves the page invariant |
| ContentScriptLemmas.MainListenerKeepsPageInv | public/content.js:458-627 | the main listener preserves the page invariant |
| ContentScriptLemmas.YoutubeDetectionKeepsPageInv | public/content.js:804-827 | a definitive loop replaces the `_youtubeLoopTimer` and never duplicates it |
| ContentScriptLemmas.YoutubeListenerKeepsPageInv | public/content.js:787-831 | the YouTube listener preserves the page invariant |
| ContentScriptLemmas.TimeUpdateKeepsPageInv | public/content.js:775-834 | a whole tick preserves the page invariant |
| ContentScriptLemmas.GlobalTimerKeepsPageInv | public/content.js:426-444 | the scroll, lock-release and YouTube loop callbacks preserve the page invariant |
| ContentScriptLemmas.FlagTimerKeepsPageInv | public/content.js:532-534 | the marker, loop-release and detection-release callbacks preserve the page invariant |
| ContentScriptLemmas.LoopTimerKeepsPageInv | public/content.js:560-590 | the `_loopTimer` callback preserves the page invariant |
| ContentScriptLemmas.PauseTimerKeepsPageInv | public/content.js:850-855 | the pause recheck preserves the page invariant |
| ContentScriptLemmas.TimerKeepsPageInv | public/content.js:426-827 | any timer firing preserves the page invariant |
| ContentScriptLemmas.AttachKeepsPageInv | public/content.js:719-751 | attaching preserves the page invariant |
| ContentScriptLemmas.ToggleKeepsPageInv | public/content.js:998-1018 | the toggle message preserves the page invariant |
| ContentScriptLemmas.ApplyKeepsPageInv | public/content.js:388-1018 | every kind of page event preserves the page invariant |
| ContentScriptLemmas.RunKeepsPageInv | public/content.js:388-1018 | any sequence of page events preserves the page invariant |
| ContentScriptLemmas.ReachableStatesAreSafe | public/content.js:388-835 | from the loaded script, after any events: at most one scroll trigger is pending and it is the one `scrollTimeout` holds; at most one `_loopTimer` and one `_youtubeLoopTimer` of the video are pending |
| ScrollHandlerModel.ConfigFor | src/utils/scrollHandler.js:7-20 | among the table's own keys, only `instagram` and `youtube` are defined, and both rows use the `video` selector and smooth scrolling |
| ScrollHandlerModel.GetCurrentPlatform | src/utils/scrollHandler.js:27-37 | a detected platform is always a key of the configuration table |
| ScrollHandlerModel.GetCurrentVideo | src/utils/scrollHandler.js:137-154 | the result is an in-viewport video; if some video plays in view, the result is the first such video; otherwise it is the first in-viewport video; none exactly when no video is in view |
| ScrollHandlerModel.ScrollHandler.constructor | src/utils/scrollHandler.js:4-21 | a new handler is unlocked, with no timer and no scroll made |
| ScrollHandlerModel.ScrollHandler.ScrollToNextVideo | src/utils/scrollHandler.js:62-99 | locked or falsy platform: returns false and changes nothing; otherwise it takes the lock and always arms the 1000 ms reset; a configured platform scrolls once by the viewport height on the container or the window and returns true; an unconfigured one scrolls nothing and returns false |
| ScrollHandlerModel.ScrollHandler.FireScrollReset | src/utils/scrollHandler.js:95-97 | the reset timer clears the lock and nothing else |
| ScrollHandlerModel.ScrollHandler.Cleanup | src/utils/scrollHandler.js:159-165 | cleanup cancels the stored timer, forgets it and clears the lock |
| ScrollHandlerModel.ScrollHandler.AddVideoEndListener | src/utils/scrollHandler.js:172-183 | each call registers one new listener, which was not registered before, and removes none |
| ScrollHandlerModel.RemoveListener | src/utils/scrollHandler.js:179 | `removeEventListener` removes exactly the given listener and keeps all others |
| ScrollHandlerLemmas.GetCurrentPlatformCases | src/utils/scrollHandler.js:27-56 | Instagram exactly for an instagram.com host with `/reels/` or reel elements; YouTube exactly for a youtube.com host that does not name instagram.com, with `/shorts/` or a Shorts container; nothing else |
| ScrollHandlerLemmas.GetCurrentPlatformInstagramExample | src/__tests__/scrollHandler.test.js:41-47 | `www.instagram.com/reels/test` is Instagram |
| ScrollHandlerLemmas.GetCurrentPlatformYouTubeExample | src/__tests__/scrollHandler.test.js:49-55 | `www.youtube.com/shorts/test` is YouTube |
| ScrollHandlerLemmas.YouTubeHostExample | src/__tests__/scrollHandler.test.js:49-55 | the YouTube host of the test names youtube.com and not instagram.com |
| ScrollHandlerLemmas.MissingFirstChar | src/__tests__/scrollHandler.test.js:57-63 | a string lacking the first character of a marker does not contain it |
| ScrollHandlerLemmas.GetCurrentPlatformUnsupportedExample | src/__tests__/scrollHandler.test.js:57-63 | `www.example.com/test` has no platform |
| ScrollHandlerLemmas.IsVideoInViewportIff | src/utils/scrollHandler.js:118-130 | in viewport exactly when the total area is positive and twice the clamped visible area exceeds it |
| ScrollHandlerLemmas.WhollyVisibleIsInViewport | src/__tests__/scrollHandler.test.js:153-167 | a non-empty rectangle wholly inside the viewport is in viewport |
| ScrollHandlerLemmas.AboveViewportIsNotInViewport | src/__tests__/scrollHandler.test.js:169-183 | a rectangle entirely above the viewport is not |
| ScrollHandlerLemmas.IsVideoInViewportExamples | src/__tests__/scrollHandler.test.js:152-183 | the two rectangles of the unit tests give true and false |
| ScrollHandlerLemmas.QuerySelectorAllMembers | src/utils/scrollHandler.js:106-111 | a tag query returns exactly the document's elements of that tag |
| ScrollHandlerLemmas.QuerySelectorAllLength | src/utils/scrollHandler.js:106-111 | a query returns no more elements than the document has, and all of them when all match |
| ScrollHandlerLemmas.GetVideoElementsQueriesVideo | src/utils/scrollHandler.js:106-111 | `getVideoElements` queries `video` for a missing, unknown or configured platform, and the `undefined` type selector for a name inherited from `Object.prototype` |
| ScrollHandlerLemmas.InheritedKeyExample | src/utils/scrollHandler.js:107-110 | `'constructor'` is not a configured platform, yet its lookup is truthy, so `getVideoElements` queries `undefined` |
| ScrollHandlerLemmas.QuerySelectorAllAppend | src/utils/scrollHandler.js:106-111 | a query keeps document order: the matches of an earlier part of the document come before those of a later part |
| ScrollHandlerLemmas.ScrollScenario | src/__tests__/scrollHandler.test.js:116-149 | Instagram scrolls the window by 1080 px; a second call while locked is refused; after `cleanup` YouTube scrolls; an unknown platform is refused |
| ScrollHandlerLemmas.EndListenerScenario | src/__tests__/scrollHandler.test.js:213-225 | adding the end listener twice leaves two listeners registered |

The page invariant (`ContentScriptLemmas.PageInv`) covers a page whose only video is `v`.
It says:
- every handle in the timer table and in `scrollTimeout` has been issued;
- a pending scroll trigger is the one `scrollTimeout` holds;
- every video timer belongs to `v`;
- the video's stored loop-timer handles have been issued;
- a pending `_loopTimer` or `_youtubeLoopTimer` callback is the one whose handle the video
  stores.

## Behaviour of the code the model keeps

The model follows the code in the places below, even where the intended behaviour is
evidently different.

- **Toggling off cannot clean up.** `cleanupAllVideoListeners` is declared inside
  `setupVideoObservers` (public/content.js:661). The message listener calls it from outside
  that function (public/content.js:1014), so toggling off throws after the flag has been set.
  `Detector.ToggleAutoScroll` therefore changes only the flag when the script is switched off.
- **`cleanupAllVideoListeners` cancels only the loop timers.** The scroll trigger, the
  1000 ms lock release, the 1000 ms loop release, the marker timers, the 3000 ms detection
  release and the pause recheck all survive it. The scroll trigger is held in
  `scrollTimeout`, so the next `handleVideoEnd` cancels it (and so does the page-unload
  listener, which is not modelled). A scroll scheduled before auto-scroll was switched off
  still fires (`ContentScriptLemmas.ScrollTriggerIgnoresFlag`).
- **The YouTube loop override never re-arms the lock.** Both YouTube loop timers force
  `isScrolling` to false and trigger directly, and neither sets the lock again
  (`LoopFireLeavesLockOpen`, `YoutubeLoopFireOpensLock`).
- **A second end signal loses the scroll.** `handleVideoEnd` cancels the previous scroll
  timer before it checks the lock. A second end signal while a scroll is pending therefore
  cancels that scroll and returns on the lock. The lock then stays held with no release
  scheduled (`SecondEndLosesScroll`).
- **Pause, error and stalled do not check the enabled flag.** These listeners forward even
  when auto-scroll is off, and `handleVideoEnd` then only cancels the pending scroll
  (`PauseWhileDisabledCancelsScroll`).
- **Inherited configuration names.** `this.config[platform]` also finds the names of
  `Object.prototype`, such as `constructor` or `__proto__`. For these `getVideoElements`
  queries `querySelectorAll(undefined)`, which is the `undefined` type selector. Scrolling to
  such a name throws in `scrollAmount` and returns false, like an unknown name
  (`GetVideoElementsQueriesVideo`, `InheritedKeyExample`).
- **`addVideoEndListener` is not idempotent.** It creates a fresh closure on each call, so
  its `removeEventListener` never removes an earlier listener (`EndListenerScenario`).

## Left out

- **Media values.** Media times and durations are `real`. Floating-point rounding is not
  modelled, and a NaN duration is a `durationKnown` flag that makes every comparison false.
  The one infinite ratio, in the error listener, is modelled as a case.
- **The clock.** `Date.now()` and `_lastTimeUpdate` are left out. Timers record their delay
  but fire in whatever order the environment chooses, so the model proves nothing that
  depends on timers firing in time order.
- **`nextVideoTrigger` bodies** (public/content.js:35-78, 127-319). Their DOM queries,
  clicks and synthetic key events are opaque, and each call is one entry in a ghost log. A
  YouTube trigger that throws is an input flag of the loop timer.
- **The DOM parts of `isReelsPage` and `isShortsPage`.** Selector probes, heights and
  `closest` checks are boolean inputs. The hostname and pathname tests are modelled on
  strings.
- **`_frequentUpdateInterval`** (public/content.js:473-506). Its local `clearInterval`
  shadows the global one and calls itself, so its behaviour is not a specification.
- **Discovery of videos.** The MutationObserver and the 2-second polling
  (public/content.js:893-927) are not modelled. Only the initial
  `existingVideos.forEach(attachVideoListeners)` is, as `Detector.AttachAll` over a given
  list of distinct videos. Later discoveries can be expressed as further `AttachEvent`s of
  the page model.
- **Page-level setup.** The page-unload listener, SPA navigation handling, `initialize`,
  `fullInitialize`, the stored state request, the debug console object and the `debug` logger are left out. These are
  I/O and logging around the modelled core.
- **One video per page in the page model.** `ReachableStatesAreSafe` covers one element.
  Timers of other videos are excluded by the page invariant rather than interleaved.
- **The click listener and the hidden page marker** are left out, because they only log.
- **Other files.** `public/background.js`, the popup components, the Redux store and the
  build scripts are not part of this model. They are messaging, UI and tooling around the
  core.
- **ScrollHandlerModel.GetVideoElements:** queries are modelled for tag-name selectors over
  a flat list of elements in document order. The container lookup of `scrollToNextVideo` is
  a `containerFound` input.
