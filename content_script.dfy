/**
 * The content script's video-end detector and scroll lock.
 *
 * Every DOM event on a video and every timer callback is one step. The state the script
 * keeps in closure variables (`autoScrollEnabled`, `isScrolling`, `scrollTimeout`) lives in
 * a `Detector`; the properties it stashes on video elements live in `Video`. Timers are
 * explicit: `pending` maps each live `setTimeout` handle to what its callback does and the
 * delay it was set with, and `clearTimeout` removes a handle. Firing a timer is a step the
 * host takes; one method per kind of callback models it.
 *
 * Each step is first defined as a function over the values `Globals` and `Tracking`
 * (the `...Step` functions); the methods update the fields in place, as the script does,
 * and are proved to agree with those functions. The opaque `nextVideoTrigger` of each
 * platform is logged in `triggers`; calls of `handleVideoEnd` are counted in `endCalls`.
 */
module ContentScript {
  import opened Wrappers
  import opened ContentPlatform

  // Delays handed to setTimeout, in milliseconds.
  const ScrollDelay: int := 500          // handleVideoEnd, ordinary case
  const LoopOverrideDelay: int := 100    // handleVideoEnd, YouTube video waiting for its loop
  const LockReleaseDelay: int := 1000    // isScrolling reset after a trigger
  const NearEndQuiet: int := 2000        // triggered marker after a near-end or high-progress fire
  const LoopQuiet: int := 3000           // triggered marker after a non-YouTube loop fire
  const LoopWait: int := 500             // YouTube loop timer
  const PauseRecheckDelay: int := 200    // second look at a YouTube pause near time zero
  const LoopDetectionQuiet: int := 3000  // re-arming of the dedicated YouTube loop listener

  /** What a pending timer's callback does. */
  datatype Timer =
    | ScrollTrigger(platform: PlatformId)            // handleVideoEnd's delayed trigger
    | LockRelease                                    // isScrolling := false
    | ClearTriggered(video: Video)                   // delete video.dataset.triggered
    | LoopFire(video: Video)                         // video._loopTimer
    | LoopRelease(video: Video)                      // isScrolling, video._waitingForLoop := false
    | PauseRecheck(video: Video)                     // re-check of a pause near time zero
    | YoutubeLoopFire(video: Video)                  // video._youtubeLoopTimer
    | LoopDetectionRelease(video: Video, generation: nat) // loopDetectionActive := false in one closure

  datatype Scheduled = Scheduled(timer: Timer, delay: int)

  /** The script-wide state. */
  datatype Globals = Globals(
    enabled: bool,                  // autoScrollEnabled
    isScrolling: bool,
    scrollTimeout: Option<nat>,     // handle of handleVideoEnd's timer, or null
    pending: map<nat, Scheduled>,   // timers set and neither fired nor cleared
    nextId: nat,                    // the handle setTimeout hands out next
    endCalls: nat,                  // calls of handleVideoEnd so far
    triggers: seq<PlatformId>)      // nextVideoTrigger calls so far, oldest first

  /** What the script keeps on one video element. */
  datatype Tracking = Tracking(
    scrollAttached: bool,           // dataset.scrollAttached; the listeners are registered exactly then
    triggered: bool,                // dataset.triggered
    platform: PlatformId,           // the platform the listeners were created for
    lastTimeValue: real,            // _lastTimeValue
    attempts: nat,                  // _endDetectionAttempts
    loopTimer: Option<nat>,         // _loopTimer
    waitingForLoop: bool,           // _waitingForLoop
    generation: nat,                // which attachment the YouTube loop listener's closure belongs to
    previousTimes: seq<real>,       // that closure's previousTimes
    loopDetectionActive: bool,      // that closure's loopDetectionActive
    youtubeLoopTimer: Option<nat>)  // _youtubeLoopTimer

  datatype Step = Step(g: Globals, t: Tracking)

  /** The media element's playback state; `durationKnown` is false where `duration` is NaN. */
  datatype Media = Media(currentTime: real, duration: real, durationKnown: bool, paused: bool)

  /** A media element never reports a negative time or duration. */
  predicate MediaValid(m: Media)
  {
    m.currentTime >= 0.0 && m.duration >= 0.0
  }

  const Initial: Globals := Globals(false, false, None, map[], 1, 0, [])

  // ---------------------------------------------------------------------------
  // Timers

  function OptSet(h: Option<nat>): set<nat>
  {
    if h.Some? then {h.value} else {}
  }

  /** `clearTimeout(h)` for a possibly-null handle. */
  function Cancel(pending: map<nat, Scheduled>, h: Option<nat>): map<nat, Scheduled>
  {
    if h.Some? then pending - {h.value} else pending
  }

  /** `setTimeout(callback, delay)`: the new handle is `g.nextId`. */
  function Schedule(g: Globals, timer: Timer, delay: int): Globals
  {
    g.(pending := g.pending[g.nextId := Scheduled(timer, delay)], nextId := g.nextId + 1)
  }

  /** Clearing two handles one after the other clears both. */
  lemma CancelTwice(pending: map<nat, Scheduled>, a: Option<nat>, b: Option<nat>)
    ensures Cancel(Cancel(pending, a), b) == pending - (OptSet(a) + OptSet(b))
  {
    var lhs := Cancel(Cancel(pending, a), b);
    var rhs := pending - (OptSet(a) + OptSet(b));
    assert lhs.Keys == rhs.Keys;
    assert forall k :: k in lhs ==> lhs[k] == rhs[k];
  }

  /** The callback of handle `id` has run. */
  function Fired(g: Globals, id: nat): Globals
  {
    g.(pending := g.pending - {id})
  }

  // ---------------------------------------------------------------------------
  // Threshold tests of the handlers

  /** End proximity, in seconds, for the platform the listener was created for. */
  function EndThreshold(platform: Option<PlatformId>): real
  {
    match platform
    case Some(Instagram) => 0.3
    case Some(YouTube) => 0.7
    case None => 0.5
  }

  /** Case 1 of the timeupdate listener, apart from the triggered marker. */
  predicate NearEnd(m: Media, threshold: real)
  {
    m.durationKnown && m.duration > 0.0 && m.currentTime > 0.0 &&
    m.duration - m.currentTime < threshold && !m.paused
  }

  /** Case 2: a backwards jump from past the midpoint (false for a NaN duration). */
  predicate LoopJump(last: real, m: Media)
  {
    m.durationKnown && last > m.currentTime && last > m.duration * 0.5
  }

  /** Case 3's progress tests; `currentTime / duration` is NaN or infinite unless the
      duration is known and positive, and then neither comparison holds. */
  predicate HighProgress(m: Media)
  {
    m.durationKnown && m.duration > 0.0 && m.currentTime / m.duration > 0.85
  }

  predicate LowProgress(m: Media)
  {
    m.durationKnown && m.duration > 0.0 && m.currentTime / m.duration < 0.8
  }

  /** The `ended` listener trusts the event only past 90% of the video. */
  predicate EndedNearEnd(m: Media)
  {
    m.currentTime > 0.0 && m.duration > 0.0 && m.durationKnown && m.currentTime >= m.duration * 0.9
  }

  predicate PausedNearEnd(m: Media)
  {
    m.currentTime > 0.0 && m.duration > 0.0 && m.durationKnown && m.currentTime >= m.duration - 0.5
  }

  predicate PausedNearStart(m: Media)
  {
    m.paused && m.currentTime < 1.0
  }

  /** The `error` listener has no positive-duration guard: with a zero duration the ratio
      is +Infinity, which exceeds 0.7. */
  predicate ErrorNearEnd(m: Media)
  {
    m.currentTime > 0.0 && m.durationKnown && (m.duration == 0.0 || m.currentTime / m.duration > 0.7)
  }

  predicate StalledNearEnd(m: Media)
  {
    m.currentTime > 0.0 && m.duration > 0.0 && m.durationKnown && m.currentTime / m.duration > 0.9
  }

  /** The dedicated YouTube listener's loop test. */
  predicate DefinitiveLoop(last: real, m: Media)
  {
    m.durationKnown && last > m.currentTime && last > m.duration * 0.5 && m.currentTime < m.duration * 0.3
  }

  /** `previousTimes.push(x)` followed by a `shift()` once more than five are kept. */
  function PushRecent(q: seq<real>, x: real): seq<real>
  {
    if |q + [x]| > 5 then (q + [x])[1..] else q + [x]
  }

  // ---------------------------------------------------------------------------
  // Steps as functions

  /** `handleVideoEnd(video)` with the platform `getCurrentPlatform()` returns at the call. */
  function HandleVideoEndStep(g: Globals, waitingForLoop: bool, platform: Option<PlatformId>): Globals
  {
    var g1 := g.(pending := Cancel(g.pending, g.scrollTimeout), scrollTimeout := None, endCalls := g.endCalls + 1);
    if !g.enabled || platform.None? then g1
    else
      var loopOverride := platform == Some(YouTube) && waitingForLoop;
      if g.isScrolling && !loopOverride then g1
      else
        Schedule(g1.(isScrolling := true, scrollTimeout := Some(g1.nextId)),
                 ScrollTrigger(platform.value), if loopOverride then LoopOverrideDelay else ScrollDelay)
  }

  /** Mark the video triggered, call handleVideoEnd, and clear the marker after `quiet`. */
  function FireEnd(s: Step, platform: Option<PlatformId>, v: Video, quiet: int): Step
  {
    var t1 := s.t.(triggered := true);
    Step(Schedule(HandleVideoEndStep(s.g, t1.waitingForLoop, platform), ClearTriggered(v), quiet), t1)
  }

  function NearEndCase(s: Step, m: Media, platform: Option<PlatformId>, v: Video): Step
  {
    if NearEnd(m, EndThreshold(Some(s.t.platform))) && !s.t.triggered then FireEnd(s, platform, v, NearEndQuiet)
    else s
  }

  function LoopCase(s: Step, m: Media, platform: Option<PlatformId>, v: Video): Step
  {
    if !LoopJump(s.t.lastTimeValue, m) then s
    else if s.t.platform == YouTube then
      var g1 := s.g.(pending := Cancel(s.g.pending, s.t.loopTimer));
      Step(Schedule(g1, LoopFire(v), LoopWait), s.t.(loopTimer := Some(g1.nextId)))
    else if !s.t.triggered then FireEnd(s, platform, v, LoopQuiet)
    else s
  }

  function ProgressCase(s: Step, m: Media, platform: Option<PlatformId>, v: Video): Step
  {
    if HighProgress(m) && !s.t.triggered then
      var s1 := Step(s.g, s.t.(attempts := s.t.attempts + 1));
      if s1.t.attempts > 3 then FireEnd(s1, platform, v, NearEndQuiet) else s1
    else if LowProgress(m) then Step(s.g, s.t.(attempts := 0))
    else s
  }

  /** The main timeupdate listener (`video._timeUpdateHandler`). */
  function MainListenerStep(s: Step, m: Media, platform: Option<PlatformId>, v: Video): Step
  {
    if !s.g.enabled then Step(s.g, s.t.(lastTimeValue := m.currentTime))
    else
      var s3 := ProgressCase(LoopCase(NearEndCase(s, m, platform, v), m, platform, v), m, platform, v);
      Step(s3.g, s3.t.(lastTimeValue := m.currentTime))
  }

  /** The dedicated YouTube listener (`video._youtubeLoopHandler`). */
  function YoutubeListenerStep(s: Step, m: Media, v: Video): Step
  {
    if !s.g.enabled then s
    else
      var q := PushRecent(s.t.previousTimes, m.currentTime);
      var t1 := s.t.(previousTimes := q);
      if |q| >= 2 && DefinitiveLoop(q[|q| - 2], m) && !t1.loopDetectionActive then
        var g1 := s.g.(pending := Cancel(s.g.pending, t1.youtubeLoopTimer));
        var g2 := Schedule(g1, YoutubeLoopFire(v), LoopWait);
        Step(Schedule(g2, LoopDetectionRelease(v, t1.generation), LoopDetectionQuiet),
             t1.(loopDetectionActive := true, youtubeLoopTimer := Some(g1.nextId)))
      else Step(s.g, t1)
  }

  /** A `timeupdate` event: the main listener, then on YouTube the dedicated one. */
  function TimeUpdateStep(s: Step, m: Media, platform: Option<PlatformId>, v: Video): Step
  {
    if !s.t.scrollAttached then s
    else
      var s1 := MainListenerStep(s, m, platform, v);
      if s.t.platform == YouTube then YoutubeListenerStep(s1, m, v) else s1
  }

  function EndedStep(s: Step, m: Media, platform: Option<PlatformId>): Step
  {
    if s.t.scrollAttached && s.g.enabled && EndedNearEnd(m) then
      Step(HandleVideoEndStep(s.g, s.t.waitingForLoop, platform), s.t)
    else s
  }

  function PauseStep(s: Step, m: Media, platform: Option<PlatformId>, v: Video): Step
  {
    if !s.t.scrollAttached then s
    else if PausedNearEnd(m) then Step(HandleVideoEndStep(s.g, s.t.waitingForLoop, platform), s.t)
    else if s.t.platform == YouTube && PausedNearStart(m) then
      Step(Schedule(s.g, PauseRecheck(v), PauseRecheckDelay), s.t)
    else s
  }

  function ErrorStep(s: Step, m: Media, platform: Option<PlatformId>): Step
  {
    if s.t.scrollAttached && ErrorNearEnd(m) then Step(HandleVideoEndStep(s.g, s.t.waitingForLoop, platform), s.t)
    else s
  }

  function StalledStep(s: Step, m: Media, platform: Option<PlatformId>): Step
  {
    if s.t.scrollAttached && StalledNearEnd(m) then Step(HandleVideoEndStep(s.g, s.t.waitingForLoop, platform), s.t)
    else s
  }

  // Timer callbacks

  function ScrollTriggerStep(g: Globals, id: nat, p: PlatformId): Globals
  {
    Schedule(Fired(g, id).(triggers := g.triggers + [p]), LockRelease, LockReleaseDelay)
  }

  function LockReleaseStep(g: Globals, id: nat): Globals
  {
    Fired(g, id).(isScrolling := false)
  }

  function ClearTriggeredStep(s: Step, id: nat): Step
  {
    Step(Fired(s.g, id), s.t.(triggered := false))
  }

  /** The `_loopTimer` callback; `throws` says whether YouTube's trigger threw. */
  function LoopFireStep(s: Step, id: nat, v: Video, throws: bool): Step
  {
    var g := Fired(s.g, id);
    if !g.enabled then Step(g, s.t)
    else
      var g1 := g.(isScrolling := false, triggers := g.triggers + [YouTube]);
      if throws then Step(g1, s.t.(waitingForLoop := false))
      else Step(Schedule(g1, LoopRelease(v), LockReleaseDelay), s.t.(waitingForLoop := true))
  }

  function LoopReleaseStep(s: Step, id: nat): Step
  {
    Step(Fired(s.g, id).(isScrolling := false), s.t.(waitingForLoop := false))
  }

  function PauseRecheckStep(s: Step, id: nat, m: Media, platform: Option<PlatformId>): Step
  {
    var g := Fired(s.g, id);
    if PausedNearStart(m) then Step(HandleVideoEndStep(g, s.t.waitingForLoop, platform), s.t)
    else Step(g, s.t)
  }

  /** The `_youtubeLoopTimer` callback: forces the lock open and triggers, re-arming nothing. */
  function YoutubeLoopFireStep(g: Globals, id: nat): Globals
  {
    var g1 := Fired(g, id);
    if !g1.enabled then g1 else g1.(isScrolling := false, triggers := g1.triggers + [YouTube])
  }

  function LoopDetectionReleaseStep(s: Step, id: nat, generation: nat): Step
  {
    if s.t.generation == generation then Step(Fired(s.g, id), s.t.(loopDetectionActive := false))
    else Step(Fired(s.g, id), s.t)
  }

  // Listener lifecycle

  /** The handles a video's element properties hold. */
  function VideoHandles(t: Tracking): set<nat>
  {
    OptSet(t.loopTimer) + OptSet(t.youtubeLoopTimer)
  }

  /** `attachVideoListeners(video)` for listeners created for `p`. */
  function AttachStep(s: Step, m: Media, p: PlatformId): Step
  {
    if s.t.scrollAttached then s
    else
      Step(s.g.(pending := Cancel(Cancel(s.g.pending, s.t.loopTimer), s.t.youtubeLoopTimer)),
           s.t.(scrollAttached := true, loopTimer := None, youtubeLoopTimer := None, platform := p,
                lastTimeValue := m.currentTime, attempts := 0,
                generation := s.t.generation + 1, previousTimes := [], loopDetectionActive := false))
  }

  /** The handles cleanup cancels on one video: those of an attached one. */
  function CleanupHandles(t: Tracking): set<nat>
  {
    if t.scrollAttached then VideoHandles(t) else {}
  }

  /** The loop body of `cleanupAllVideoListeners` on one video's properties. */
  function Cleaned(t: Tracking): Tracking
  {
    if t.scrollAttached then
      t.(loopTimer := None, youtubeLoopTimer := None, scrollAttached := false, triggered := false)
    else t
  }

  /** Properties of a video after `attachVideoListeners` on a cleaned video. */
  function Attached(t: Tracking, m: Media, p: PlatformId): Tracking
  {
    if t.scrollAttached then t
    else
      t.(scrollAttached := true, loopTimer := None, youtubeLoopTimer := None, platform := p,
         lastTimeValue := m.currentTime, attempts := 0,
         generation := t.generation + 1, previousTimes := [], loopDetectionActive := false)
  }

  /** Union of the handles cleanup cancels over a list of videos. */
  function AllCleanupHandles(ts: seq<Tracking>): set<nat>
  {
    if ts == [] then {} else AllCleanupHandles(ts[..|ts| - 1]) + CleanupHandles(ts[|ts| - 1])
  }

  /** The timer table after the loop of `cleanupAllVideoListeners` over videos `ts`, in order. */
  function CleanupPending(pending: map<nat, Scheduled>, ts: seq<Tracking>): map<nat, Scheduled>
  {
    if ts == [] then pending
    else
      var p := CleanupPending(pending, ts[..|ts| - 1]);
      var t := ts[|ts| - 1];
      if t.scrollAttached then Cancel(Cancel(p, t.loopTimer), t.youtubeLoopTimer) else p
  }

  /** The timer table after `videos.forEach(attachVideoListeners)` over videos `ts`, in order. */
  function AttachPending(pending: map<nat, Scheduled>, ts: seq<Tracking>): map<nat, Scheduled>
  {
    if ts == [] then pending
    else
      var p := AttachPending(pending, ts[..|ts| - 1]);
      var t := ts[|ts| - 1];
      if t.scrollAttached then p else Cancel(Cancel(p, t.loopTimer), t.youtubeLoopTimer)
  }

  /** The handles attaching cancels on one video: those of a video not attached yet. */
  function AttachHandles(t: Tracking): set<nat>
  {
    if t.scrollAttached then {} else VideoHandles(t)
  }

  function AllAttachHandles(ts: seq<Tracking>): set<nat>
  {
    if ts == [] then {} else AllAttachHandles(ts[..|ts| - 1]) + AttachHandles(ts[|ts| - 1])
  }

  /** Union of all handles held by a list of videos. */
  function AllVideoHandles(ts: seq<Tracking>): set<nat>
  {
    if ts == [] then {} else AllVideoHandles(ts[..|ts| - 1]) + VideoHandles(ts[|ts| - 1])
  }

  /** The cleanup loop cancels exactly the handles of the attached videos. */
  lemma {:induction false} CleanupPendingCancels(pending: map<nat, Scheduled>, ts: seq<Tracking>)
    ensures CleanupPending(pending, ts) == pending - AllCleanupHandles(ts)
    decreases |ts|
  {
    if ts != [] {
      var init, t := ts[..|ts| - 1], ts[|ts| - 1];
      CleanupPendingCancels(pending, init);
      if t.scrollAttached {
        CancelTwice(pending - AllCleanupHandles(init), t.loopTimer, t.youtubeLoopTimer);
        assert pending - AllCleanupHandles(init) - VideoHandles(t) == pending - AllCleanupHandles(ts);
      }
    }
  }

  /** The attach loop cancels exactly the handles of the videos not attached yet. */
  lemma {:induction false} AttachPendingCancels(pending: map<nat, Scheduled>, ts: seq<Tracking>)
    ensures AttachPending(pending, ts) == pending - AllAttachHandles(ts)
    decreases |ts|
  {
    if ts != [] {
      var init, t := ts[..|ts| - 1], ts[|ts| - 1];
      AttachPendingCancels(pending, init);
      if !t.scrollAttached {
        CancelTwice(pending - AllAttachHandles(init), t.loopTimer, t.youtubeLoopTimer);
        assert pending - AllAttachHandles(init) - VideoHandles(t) == pending - AllAttachHandles(ts);
      }
    }
  }

  /** What one attachment does to the script-wide state and to the video's properties. */
  lemma AttachStepParts(s: Step, m: Media, p: PlatformId)
    ensures AttachStep(s, m, p).g ==
      s.g.(pending := if s.t.scrollAttached then s.g.pending
                      else Cancel(Cancel(s.g.pending, s.t.loopTimer), s.t.youtubeLoopTimer))
    ensures AttachStep(s, m, p).t == Attached(s.t, m, p)
  {
  }

  /** One more video of the list in the cleanup fold. */
  lemma CleanupPendingSnoc(pending: map<nat, Scheduled>, ts: seq<Tracking>, k: nat)
    requires k < |ts|
    ensures CleanupPending(pending, ts[..k + 1]) ==
      if ts[k].scrollAttached then Cancel(Cancel(CleanupPending(pending, ts[..k]), ts[k].loopTimer), ts[k].youtubeLoopTimer)
      else CleanupPending(pending, ts[..k])
  {
    assert ts[..k + 1][..k] == ts[..k];
  }

  /** One more video of the list in the attach fold. */
  lemma AttachPendingSnoc(pending: map<nat, Scheduled>, ts: seq<Tracking>, k: nat)
    requires k < |ts|
    ensures AttachPending(pending, ts[..k + 1]) ==
      if ts[k].scrollAttached then AttachPending(pending, ts[..k])
      else Cancel(Cancel(AttachPending(pending, ts[..k]), ts[k].loopTimer), ts[k].youtubeLoopTimer)
  {
    assert ts[..k + 1][..k] == ts[..k];
  }

  /** The handles cleanup cancels and those attaching then cancels on the cleaned videos
      are all the handles the videos held. */
  lemma {:induction false} CleanupSplitsHandles(ts: seq<Tracking>, cs: seq<Tracking>)
    requires |cs| == |ts| && forall i :: 0 <= i < |ts| ==> cs[i] == Cleaned(ts[i])
    ensures AllCleanupHandles(ts) + AllAttachHandles(cs) == AllVideoHandles(ts)
    decreases |ts|
  {
    if ts != [] {
      CleanupSplitsHandles(ts[..|ts| - 1], cs[..|cs| - 1]);
    }
  }

  // ---------------------------------------------------------------------------
  // The state in place

  class Video {
    // playback state, set by the page's player
    var currentTime: real
    var duration: real
    var durationKnown: bool
    var paused: bool
    // what the script keeps on the element: its dataset markers, its underscore
    // properties and the state of the listener closures attached to it
    var props: Tracking

    function MediaState(): Media
      reads this
    {
      Media(currentTime, duration, durationKnown, paused)
    }

    /** A video element the script has not touched yet. */
    constructor (m: Media)
      requires MediaValid(m)
      ensures MediaState() == m
      ensures props == Tracking(false, false, Instagram, 0.0, 0, None, false, 0, [], false, None)
    {
      currentTime, duration, durationKnown, paused := m.currentTime, m.duration, m.durationKnown, m.paused;
      props := Tracking(false, false, Instagram, 0.0, 0, None, false, 0, [], false, None);
    }

    /** The player moves on: new playback state, nothing of the script's changes. */
    method Play(m: Media)
      requires MediaValid(m)
      modifies this
      ensures MediaState() == m && props == old(props)
    {
      currentTime, duration, durationKnown, paused := m.currentTime, m.duration, m.durationKnown, m.paused;
    }
  }

  /** Snapshot of the script's properties on each of `vs`, for stating loop invariants. */
  ghost function Props(vs: seq<Video>): seq<Tracking>
    reads vs
  {
    seq(|vs|, i reads vs requires 0 <= i < |vs| => vs[i].props)
  }

  lemma PropsSnapshot(vs: seq<Video>)
    ensures |Props(vs)| == |vs| && forall i :: 0 <= i < |vs| ==> Props(vs)[i] == vs[i].props
  {
  }

  class Detector {
    var autoScrollEnabled: bool
    var isScrolling: bool
    var scrollTimeout: Option<nat>
    var pending: map<nat, Scheduled>
    var nextId: nat
    ghost var endCalls: nat
    ghost var triggers: seq<PlatformId>

    ghost function G(): Globals
      reads this
    {
      Globals(autoScrollEnabled, isScrolling, scrollTimeout, pending, nextId, endCalls, triggers)
    }

    /** The script as loaded: disabled, unlocked, no timers. */
    constructor ()
      ensures G() == Initial
    {
      autoScrollEnabled, isScrolling, scrollTimeout := false, false, None;
      pending, nextId := map[], 1;
      endCalls, triggers := 0, [];
    }

    /** `handleVideoEnd(video)`; `platform` is what `getCurrentPlatform()` returns now. */
    method HandleVideoEnd(v: Video, platform: Option<PlatformId>)
      modifies this
      ensures G() == HandleVideoEndStep(old(G()), v.props.waitingForLoop, platform)
    {
      endCalls := endCalls + 1;
      if scrollTimeout.Some? {
        pending := pending - {scrollTimeout.value};
        scrollTimeout := None;
      }
      if !autoScrollEnabled {
        return;
      }
      if platform.None? {
        return;
      }
      var loopOverride := platform.value == YouTube && v.props.waitingForLoop;
      if isScrolling && !loopOverride {
        return;
      }
      isScrolling := true;
      var delay := if loopOverride then LoopOverrideDelay else ScrollDelay;
      var id := nextId;
      pending, nextId := pending[id := Scheduled(ScrollTrigger(platform.value), delay)], nextId + 1;
      scrollTimeout := Some(id);
    }

    /** Case 1 of the timeupdate listener: near-end detection. */
    method NearEndCheck(v: Video, platform: Option<PlatformId>)
      modifies this, v`props
      ensures Step(G(), v.props) == NearEndCase(old(Step(G(), v.props)), v.MediaState(), platform, v)
    {
      if NearEnd(v.MediaState(), EndThreshold(Some(v.props.platform))) && !v.props.triggered {
        v.props := v.props.(triggered := true);
        HandleVideoEnd(v, platform);
        pending, nextId := pending[nextId := Scheduled(ClearTriggered(v), NearEndQuiet)], nextId + 1;
      }
    }

    /** Case 2: loop detection, deferred on YouTube and immediate elsewhere. */
    method LoopCheck(v: Video, platform: Option<PlatformId>)
      modifies this, v`props
      ensures Step(G(), v.props) == LoopCase(old(Step(G(), v.props)), v.MediaState(), platform, v)
    {
      if LoopJump(v.props.lastTimeValue, v.MediaState()) {
        if v.props.platform == YouTube {
          pending := Cancel(pending, v.props.loopTimer);
          var id := nextId;
          pending, nextId := pending[id := Scheduled(LoopFire(v), LoopWait)], nextId + 1;
          v.props := v.props.(loopTimer := Some(id));
        } else if !v.props.triggered {
          v.props := v.props.(triggered := true);
          HandleVideoEnd(v, platform);
          pending, nextId := pending[nextId := Scheduled(ClearTriggered(v), LoopQuiet)], nextId + 1;
        }
      }
    }

    /** Case 3: the high-progress counter. */
    method ProgressCheck(v: Video, platform: Option<PlatformId>)
      modifies this, v`props
      ensures Step(G(), v.props) == ProgressCase(old(Step(G(), v.props)), v.MediaState(), platform, v)
    {
      if HighProgress(v.MediaState()) && !v.props.triggered {
        v.props := v.props.(attempts := v.props.attempts + 1);
        if v.props.attempts > 3 {
          v.props := v.props.(triggered := true);
          HandleVideoEnd(v, platform);
          pending, nextId := pending[nextId := Scheduled(ClearTriggered(v), NearEndQuiet)], nextId + 1;
        }
      } else if LowProgress(v.MediaState()) {
        v.props := v.props.(attempts := 0);
      }
    }

    /** `video._timeUpdateHandler`. */
    method MainListener(v: Video, platform: Option<PlatformId>)
      modifies this, v`props
      ensures Step(G(), v.props) == MainListenerStep(old(Step(G(), v.props)), v.MediaState(), platform, v)
    {
      if !autoScrollEnabled {
        v.props := v.props.(lastTimeValue := v.currentTime);
        return;
      }
      NearEndCheck(v, platform);
      LoopCheck(v, platform);
      ProgressCheck(v, platform);
      v.props := v.props.(lastTimeValue := v.currentTime);
    }

    /** `video._youtubeLoopHandler`. */
    method YoutubeListener(v: Video)
      modifies this, v`props
      ensures Step(G(), v.props) == YoutubeListenerStep(old(Step(G(), v.props)), v.MediaState(), v)
    {
      if !autoScrollEnabled {
        return;
      }
      var q := v.props.previousTimes + [v.currentTime];
      if |q| > 5 {
        q := q[1..];
      }
      v.props := v.props.(previousTimes := q);
      if |q| >= 2 && DefinitiveLoop(q[|q| - 2], v.MediaState()) && !v.props.loopDetectionActive {
        pending := Cancel(pending, v.props.youtubeLoopTimer);
        var id := nextId;
        pending, nextId := pending[id := Scheduled(YoutubeLoopFire(v), LoopWait)], nextId + 1;
        pending, nextId := pending[nextId := Scheduled(LoopDetectionRelease(v, v.props.generation), LoopDetectionQuiet)], nextId + 1;
        v.props := v.props.(loopDetectionActive := true, youtubeLoopTimer := Some(id));
      }
    }

    /** A `timeupdate` event on `v`: its listeners in registration order. */
    method TimeUpdate(v: Video, platform: Option<PlatformId>)
      modifies this, v`props
      ensures Step(G(), v.props) == TimeUpdateStep(old(Step(G(), v.props)), v.MediaState(), platform, v)
    {
      if !v.props.scrollAttached {
        return;
      }
      var youtube := v.props.platform == YouTube;
      MainListener(v, platform);
      if youtube {
        YoutubeListener(v);
      }
    }

    /** An `ended` event on `v`. */
    method Ended(v: Video, platform: Option<PlatformId>)
      modifies this
      ensures Step(G(), v.props) == EndedStep(old(Step(G(), v.props)), v.MediaState(), platform)
    {
      if !v.props.scrollAttached || !autoScrollEnabled {
        return;
      }
      if EndedNearEnd(v.MediaState()) {
        HandleVideoEnd(v, platform);
      }
    }

    /** A `pause` event on `v`. */
    method Pause(v: Video, platform: Option<PlatformId>)
      modifies this
      ensures Step(G(), v.props) == PauseStep(old(Step(G(), v.props)), v.MediaState(), platform, v)
    {
      if !v.props.scrollAttached {
        return;
      }
      if PausedNearEnd(v.MediaState()) {
        HandleVideoEnd(v, platform);
      } else if v.props.platform == YouTube && PausedNearStart(v.MediaState()) {
        pending, nextId := pending[nextId := Scheduled(PauseRecheck(v), PauseRecheckDelay)], nextId + 1;
      }
    }

    /** An `error` event on `v`. */
    method Error(v: Video, platform: Option<PlatformId>)
      modifies this
      ensures Step(G(), v.props) == ErrorStep(old(Step(G(), v.props)), v.MediaState(), platform)
    {
      if v.props.scrollAttached && ErrorNearEnd(v.MediaState()) {
        HandleVideoEnd(v, platform);
      }
    }

    /** A `stalled` event on `v`. */
    method Stalled(v: Video, platform: Option<PlatformId>)
      modifies this
      ensures Step(G(), v.props) == StalledStep(old(Step(G(), v.props)), v.MediaState(), platform)
    {
      if v.props.scrollAttached && StalledNearEnd(v.MediaState()) {
        HandleVideoEnd(v, platform);
      }
    }

    // Timer callbacks

    /** handleVideoEnd's timer: run the platform's trigger, release the lock 1000 ms later. */
    method FireScrollTrigger(id: nat)
      requires id in pending && pending[id].timer.ScrollTrigger?
      modifies this
      ensures G() == ScrollTriggerStep(old(G()), id, old(pending[id].timer.platform))
    {
      var p := pending[id].timer.platform;
      pending := pending - {id};
      triggers := triggers + [p];
      pending, nextId := pending[nextId := Scheduled(LockRelease, LockReleaseDelay)], nextId + 1;
    }

    method FireLockRelease(id: nat)
      requires id in pending && pending[id].timer == LockRelease
      modifies this
      ensures G() == LockReleaseStep(old(G()), id)
    {
      pending := pending - {id};
      isScrolling := false;
    }

    method FireClearTriggered(id: nat, v: Video)
      requires id in pending && pending[id].timer == ClearTriggered(v)
      modifies this, v`props
      ensures Step(G(), v.props) == ClearTriggeredStep(old(Step(G(), v.props)), id)
    {
      pending := pending - {id};
      v.props := v.props.(triggered := false);
    }

    /** `video._loopTimer` fires; `throws` says whether YouTube's trigger threw. */
    method FireLoop(id: nat, v: Video, throws: bool)
      requires id in pending && pending[id].timer == LoopFire(v)
      modifies this, v`props
      ensures Step(G(), v.props) == LoopFireStep(old(Step(G(), v.props)), id, v, throws)
    {
      pending := pending - {id};
      if !autoScrollEnabled {
        return;
      }
      isScrolling := false;
      v.props := v.props.(waitingForLoop := true);
      triggers := triggers + [YouTube];
      if throws {
        isScrolling := false;
        v.props := v.props.(waitingForLoop := false);
      } else {
        pending, nextId := pending[nextId := Scheduled(LoopRelease(v), LockReleaseDelay)], nextId + 1;
      }
    }

    method FireLoopRelease(id: nat, v: Video)
      requires id in pending && pending[id].timer == LoopRelease(v)
      modifies this, v`props
      ensures Step(G(), v.props) == LoopReleaseStep(old(Step(G(), v.props)), id)
    {
      pending := pending - {id};
      isScrolling := false;
      v.props := v.props.(waitingForLoop := false);
    }

    method FirePauseRecheck(id: nat, v: Video, platform: Option<PlatformId>)
      requires id in pending && pending[id].timer == PauseRecheck(v)
      modifies this
      ensures Step(G(), v.props) == PauseRecheckStep(old(Step(G(), v.props)), id, v.MediaState(), platform)
    {
      pending := pending - {id};
      if PausedNearStart(v.MediaState()) {
        HandleVideoEnd(v, platform);
      }
    }

    method FireYoutubeLoop(id: nat, v: Video)
      requires id in pending && pending[id].timer == YoutubeLoopFire(v)
      modifies this
      ensures G() == YoutubeLoopFireStep(old(G()), id)
    {
      pending := pending - {id};
      if !autoScrollEnabled {
        return;
      }
      isScrolling := false;
      triggers := triggers + [YouTube];
    }

    method FireLoopDetectionRelease(id: nat, v: Video, generation: nat)
      requires id in pending && pending[id].timer == LoopDetectionRelease(v, generation)
      modifies this, v`props
      ensures Step(G(), v.props) == LoopDetectionReleaseStep(old(Step(G(), v.props)), id, generation)
    {
      pending := pending - {id};
      if v.props.generation == generation {
        v.props := v.props.(loopDetectionActive := false);
      }
    }

    // Listener lifecycle

    /** The "clear any existing timers" block shared by attach and cleanup. */
    method ClearVideoTimers(v: Video)
      modifies this, v`props
      ensures G() == old(G()).(pending := Cancel(Cancel(old(pending), old(v.props.loopTimer)), old(v.props.youtubeLoopTimer)))
      ensures v.props == old(v.props).(loopTimer := None, youtubeLoopTimer := None)
    {
      if v.props.loopTimer.Some? {
        pending := pending - {v.props.loopTimer.value};
        v.props := v.props.(loopTimer := None);
      }
      if v.props.youtubeLoopTimer.Some? {
        pending := pending - {v.props.youtubeLoopTimer.value};
        v.props := v.props.(youtubeLoopTimer := None);
      }
    }

    /** `attachVideoListeners(video)` with listeners created for platform `p`. */
    method AttachVideoListeners(v: Video, p: PlatformId)
      modifies this, v`props
      ensures G() == AttachStep(old(Step(G(), v.props)), v.MediaState(), p).g
      ensures v.props == AttachStep(old(Step(G(), v.props)), v.MediaState(), p).t
    {
      if v.props.scrollAttached {
        return;
      }
      pending := Cancel(Cancel(pending, v.props.loopTimer), v.props.youtubeLoopTimer);
      // the element markers, setupTimeUpdateHandler's closure state and a new dedicated
      // YouTube listener closure
      v.props := v.props.(scrollAttached := true, loopTimer := None, youtubeLoopTimer := None,
                          platform := p, lastTimeValue := v.currentTime, attempts := 0,
                          generation := v.props.generation + 1, previousTimes := [],
                          loopDetectionActive := false);
    }

    /** `cleanupAllVideoListeners()` over the page's video elements `videos`, in document order. */
    method CleanupAllVideoListeners(videos: seq<Video>)
      requires forall i, j :: 0 <= i < j < |videos| ==> videos[i] != videos[j]
      modifies this, videos
      ensures G() == old(G()).(pending := CleanupPending(old(pending), old(Props(videos))))
      ensures forall i :: 0 <= i < |videos| ==> videos[i].props == Cleaned(old(videos[i].props))
      ensures forall i :: 0 <= i < |videos| ==> videos[i].MediaState() == old(videos[i].MediaState())
    {
      ghost var ts := Props(videos);
      PropsSnapshot(videos);
      for k := 0 to |videos|
        invariant G() == old(G()).(pending := CleanupPending(old(pending), ts[..k]))
        invariant forall i :: 0 <= i < k ==> videos[i].props == Cleaned(ts[i])
        invariant forall i :: k <= i < |videos| ==> videos[i].props == ts[i]
        invariant forall i :: 0 <= i < |videos| ==> videos[i].MediaState() == old(videos[i].MediaState())
      {
        var v := videos[k];
        CleanupPendingSnoc(old(pending), ts, k);
        if v.props.scrollAttached {
          pending := Cancel(Cancel(pending, v.props.loopTimer), v.props.youtubeLoopTimer);
          v.props := v.props.(loopTimer := None, youtubeLoopTimer := None, scrollAttached := false,
                              triggered := false);
        }
      }
      assert ts[..|videos|] == ts;
    }

    /** `videos.forEach(attachVideoListeners)` with listeners created for `p`, as setup, the
        mutation observer's callback and the polling interval do. */
    method AttachAll(videos: seq<Video>, p: PlatformId)
      requires forall i, j :: 0 <= i < j < |videos| ==> videos[i] != videos[j]
      modifies this, videos
      ensures G() == old(G()).(pending := AttachPending(old(pending), old(Props(videos))))
      ensures forall i :: 0 <= i < |videos| ==>
                videos[i].props == Attached(old(videos[i].props), videos[i].MediaState(), p)
      ensures forall i :: 0 <= i < |videos| ==> videos[i].MediaState() == old(videos[i].MediaState())
    {
      ghost var ts := Props(videos);
      PropsSnapshot(videos);
      ghost var ms := seq(|videos|, i reads videos requires 0 <= i < |videos| => videos[i].MediaState());
      for k := 0 to |videos|
        invariant G() == old(G()).(pending := AttachPending(old(pending), ts[..k]))
        invariant forall i :: 0 <= i < k ==> videos[i].props == Attached(ts[i], ms[i], p)
        invariant forall i :: k <= i < |videos| ==> videos[i].props == ts[i]
        invariant forall i :: 0 <= i < |videos| ==> videos[i].MediaState() == ms[i]
      {
        var v := videos[k];
        ghost var before := v.props;
        ghost var g0 := G();
        AttachVideoListeners(v, p);
        AttachStepParts(Step(g0, before), v.MediaState(), p);
        AttachPendingSnoc(old(pending), ts, k);
      }
      assert ts[..|videos|] == ts;
    }

    /** `setupVideoObservers()` with `getCurrentPlatform()` returning `platform`: the existing
        videos, all of which the `video` selector matches, get fresh listeners. */
    method SetupVideoObservers(platform: Option<PlatformId>, videos: seq<Video>)
      requires forall i, j :: 0 <= i < j < |videos| ==> videos[i] != videos[j]
      modifies this, videos
      ensures forall i :: 0 <= i < |videos| ==> videos[i].MediaState() == old(videos[i].MediaState())
      ensures !old(autoScrollEnabled) || platform.None? ==>
                G() == old(G()) && forall i :: 0 <= i < |videos| ==> videos[i].props == old(videos[i].props)
      ensures old(autoScrollEnabled) && platform.Some? ==>
                G() == old(G()).(pending := old(pending) - AllVideoHandles(old(Props(videos))))
      ensures old(autoScrollEnabled) && platform.Some? ==>
                forall i :: 0 <= i < |videos| ==>
                  videos[i].props == Attached(Cleaned(old(videos[i].props)), videos[i].MediaState(), platform.value)
    {
      if !autoScrollEnabled || platform.None? {
        return;
      }
      ghost var ts := Props(videos);
      PropsSnapshot(videos);
      CleanupAllVideoListeners(videos);
      ghost var cs := Props(videos);
      PropsSnapshot(videos);
      AttachAll(videos, platform.value);
      CleanupPendingCancels(old(pending), ts);
      AttachPendingCancels(old(pending) - AllCleanupHandles(ts), cs);
      CleanupSplitsHandles(ts, cs);
      assert old(pending) - AllCleanupHandles(ts) - AllAttachHandles(cs) == old(pending) - AllVideoHandles(ts);
    }

    /** The `toggleAutoScroll` message with `value`. Switching on runs setup; switching off
        only clears the flag, because the handler's call to `cleanupAllVideoListeners` names a
        function declared inside `setupVideoObservers` and throws before doing anything. */
    method ToggleAutoScroll(value: bool, platform: Option<PlatformId>, videos: seq<Video>)
      requires forall i, j :: 0 <= i < j < |videos| ==> videos[i] != videos[j]
      modifies this, videos
      ensures forall i :: 0 <= i < |videos| ==> videos[i].MediaState() == old(videos[i].MediaState())
      ensures old(autoScrollEnabled) || !value || platform.None? ==>
                G() == old(G()).(enabled := value)
                && forall i :: 0 <= i < |videos| ==> videos[i].props == old(videos[i].props)
      ensures !old(autoScrollEnabled) && value && platform.Some? ==>
                G() == old(G()).(enabled := true, pending := old(pending) - AllVideoHandles(old(Props(videos))))
      ensures !old(autoScrollEnabled) && value && platform.Some? ==>
                forall i :: 0 <= i < |videos| ==>
                  videos[i].props == Attached(Cleaned(old(videos[i].props)), videos[i].MediaState(), platform.value)
    {
      var oldValue := autoScrollEnabled;
      autoScrollEnabled := value;
      if oldValue != autoScrollEnabled && autoScrollEnabled {
        SetupVideoObservers(platform, videos);
      }
    }
  }
}
