/**
 * Properties of the content script's steps: the scroll lock and its single pending
 * trigger, the three end-detection cases of the timeupdate listener, the corroborating
 * listeners, the per-video loop timers and the listener lifecycle.
 */
module ContentScriptLemmas {
  import opened Wrappers
  import opened ContentPlatform
  import opened ContentScript

  // ---------------------------------------------------------------------------
  // Invariants of the timer table

  /** Every handle in use was handed out by setTimeout already. */
  predicate HandlesIssued(g: Globals)
  {
    (forall id :: id in g.pending ==> id < g.nextId) &&
    (g.scrollTimeout.Some? ==> g.scrollTimeout.value < g.nextId)
  }

  /** A pending scroll trigger is always the one `scrollTimeout` holds. */
  predicate ScrollTimerTracked(g: Globals)
  {
    forall id :: id in g.pending && g.pending[id].timer.ScrollTrigger? ==> g.scrollTimeout == Some(id)
  }

  predicate Inv(g: Globals)
  {
    HandlesIssued(g) && ScrollTimerTracked(g)
  }

  lemma InitialInv()
    ensures Inv(Initial)
  {
  }

  /** Hence at most one scroll trigger is pending at any time. */
  lemma AtMostOneScrollTrigger(g: Globals, a: nat, b: nat)
    requires ScrollTimerTracked(g)
    requires a in g.pending && g.pending[a].timer.ScrollTrigger?
    requires b in g.pending && g.pending[b].timer.ScrollTrigger?
    ensures a == b
  {
    assert g.scrollTimeout == Some(a) && g.scrollTimeout == Some(b);
  }

  lemma ScheduleKeepsInv(g: Globals, timer: Timer, delay: int)
    requires Inv(g) && !timer.ScrollTrigger?
    ensures Inv(Schedule(g, timer, delay))
  {
    var r := Schedule(g, timer, delay);
    forall id | id in r.pending && r.pending[id].timer.ScrollTrigger?
      ensures r.scrollTimeout == Some(id)
    {
      assert id != g.nextId;
    }
  }

  lemma FiredKeepsInv(g: Globals, id: nat)
    requires Inv(g)
    ensures Inv(Fired(g, id))
  {
  }

  lemma CancelKeepsInv(g: Globals, h: Option<nat>)
    requires Inv(g)
    ensures Inv(g.(pending := Cancel(g.pending, h)))
  {
  }

  // ---------------------------------------------------------------------------
  // handleVideoEnd and the scroll lock

  /** Whatever the state, handleVideoEnd clears the previous scroll timer and is counted. */
  lemma HandleVideoEndClearsPrevious(g: Globals, waiting: bool, platform: Option<PlatformId>)
    requires HandlesIssued(g)
    ensures var r := HandleVideoEndStep(g, waiting, platform);
      r.endCalls == g.endCalls + 1 && r.enabled == g.enabled && r.triggers == g.triggers &&
      (g.scrollTimeout.Some? ==> g.scrollTimeout.value !in r.pending)
  {
  }

  /** It schedules a trigger exactly when auto-scroll is on, the page is supported and the
      lock is free or overridden by a YouTube video waiting for its loop; the delay is 100 ms
      for such a video and 500 ms otherwise, and the lock is then held. */
  lemma HandleVideoEndSchedulesIff(g: Globals, waiting: bool, platform: Option<PlatformId>)
    ensures var r := HandleVideoEndStep(g, waiting, platform);
      var loopOverride := platform == Some(YouTube) && waiting;
      (r.scrollTimeout.Some? <==> g.enabled && platform.Some? && (!g.isScrolling || loopOverride)) &&
      (r.scrollTimeout.Some? ==>
        r.scrollTimeout == Some(g.nextId) && r.isScrolling && r.nextId == g.nextId + 1 &&
        r.pending == Cancel(g.pending, g.scrollTimeout)[g.nextId :=
          Scheduled(ScrollTrigger(platform.value), if loopOverride then 100 else 500)]) &&
      (r.scrollTimeout.None? ==>
        r.isScrolling == g.isScrolling && r.nextId == g.nextId && r.pending == Cancel(g.pending, g.scrollTimeout))
  {
  }

  lemma HandleVideoEndKeepsInv(g: Globals, waiting: bool, platform: Option<PlatformId>)
    requires Inv(g)
    ensures Inv(HandleVideoEndStep(g, waiting, platform))
  {
    var g1 := g.(pending := Cancel(g.pending, g.scrollTimeout), scrollTimeout := None, endCalls := g.endCalls + 1);
    assert forall id :: id in g1.pending ==> id in g.pending && g1.pending[id] == g.pending[id];
  }

  /** A second end signal while the first one's trigger is still pending cancels that
      trigger and, finding the lock held, schedules none: the scroll is lost and the
      lock stays held with no trigger left to release it. */
  lemma SecondEndLosesScroll(g: Globals, waiting: bool, platform: Option<PlatformId>)
    requires Inv(g)
    requires HandleVideoEndStep(g, waiting, platform).scrollTimeout.Some?
    requires !(platform == Some(YouTube) && waiting)
    ensures var g2 := HandleVideoEndStep(HandleVideoEndStep(g, waiting, platform), waiting, platform);
      g2.isScrolling && g2.scrollTimeout.None? &&
      forall id :: id in g2.pending ==> !g2.pending[id].timer.ScrollTrigger?
  {
    HandleVideoEndKeepsInv(g, waiting, platform);
    var g1 := HandleVideoEndStep(g, waiting, platform);
    var g2 := HandleVideoEndStep(g1, waiting, platform);
    assert forall id :: id in g2.pending ==> id in g1.pending && g2.pending[id] == g1.pending[id];
  }

  /** The trigger fires whatever the flag says: a scroll scheduled before auto-scroll was
      switched off still happens, and it re-arms the lock release 1000 ms later. */
  lemma ScrollTriggerIgnoresFlag(g: Globals, id: nat, p: PlatformId)
    requires HandlesIssued(g) && id in g.pending && g.pending[id].timer == ScrollTrigger(p)
    ensures var r := ScrollTriggerStep(g, id, p);
      r.triggers == g.triggers + [p] && r.enabled == g.enabled && r.isScrolling == g.isScrolling &&
      id !in r.pending && g.nextId in r.pending && r.pending[g.nextId] == Scheduled(LockRelease, LockReleaseDelay)
  {
  }

  lemma ScrollTriggerKeepsInv(g: Globals, id: nat, p: PlatformId)
    requires Inv(g)
    ensures Inv(ScrollTriggerStep(g, id, p))
  {
    FiredKeepsInv(g, id);
    ScheduleKeepsInv(Fired(g, id).(triggers := g.triggers + [p]), LockRelease, LockReleaseDelay);
  }
  /** The later timers only undo flags: the 1000 ms release opens the lock, the marker
      timers clear `triggered`, the loop release clears both the lock and `_waitingForLoop`,
      and the detection release of the current attachment re-enables YouTube detection. */
  lemma ReleaseTimersClearFlags(s: Step, id: nat)
    ensures LockReleaseStep(s.g, id) == s.g.(pending := s.g.pending - {id}, isScrolling := false)
    ensures ClearTriggeredStep(s, id) == Step(s.g.(pending := s.g.pending - {id}), s.t.(triggered := false))
    ensures var r := LoopReleaseStep(s, id);
      !r.g.isScrolling && !r.t.waitingForLoop && id !in r.g.pending && r.g.triggers == s.g.triggers &&
      r.t.triggered == s.t.triggered && r.t.loopTimer == s.t.loopTimer
    ensures LoopDetectionReleaseStep(s, id, s.t.generation) ==
      Step(s.g.(pending := s.g.pending - {id}), s.t.(loopDetectionActive := false))
  {
  }

  /** The YouTube loop timer forces the lock open and triggers YouTube when enabled, and
      neither re-arms the lock nor schedules its release. */
  lemma YoutubeLoopFireOpensLock(g: Globals, id: nat)
    ensures var r := YoutubeLoopFireStep(g, id);
      id !in r.pending && r.pending == g.pending - {id} && r.nextId == g.nextId &&
      (g.enabled ==> !r.isScrolling && r.triggers == g.triggers + [YouTube]) &&
      (!g.enabled ==> r == g.(pending := g.pending - {id}))
  {
  }


  // ---------------------------------------------------------------------------
  // The timeupdate listeners

  /** While auto-scroll is off, a tick on an attached video only records the time. */
  lemma DisabledTickOnlyRecordsTime(s: Step, m: Media, platform: Option<PlatformId>, v: Video)
    requires !s.g.enabled && s.t.scrollAttached
    ensures TimeUpdateStep(s, m, platform, v) == Step(s.g, s.t.(lastTimeValue := m.currentTime))
  {
  }

  /** A video without listeners ignores ticks. */
  lemma DetachedTickIgnored(s: Step, m: Media, platform: Option<PlatformId>, v: Video)
    requires !s.t.scrollAttached
    ensures TimeUpdateStep(s, m, platform, v) == s
  {
  }

  /** What each case of the main listener changes: it calls handleVideoEnd at most once,
      and only when the video was not triggered yet, marking it; the listener's identity
      and time are left alone. */
  predicate CaseStep(s: Step, r: Step)
  {
    (r.g.endCalls == s.g.endCalls || (r.g.endCalls == s.g.endCalls + 1 && !s.t.triggered && r.t.triggered)) &&
    (s.t.triggered ==> r.t.triggered) &&
    r.g.enabled == s.g.enabled &&
    r.t.scrollAttached == s.t.scrollAttached && r.t.platform == s.t.platform &&
    r.t.lastTimeValue == s.t.lastTimeValue && r.t.generation == s.t.generation
  }

  /** Case 1 fires exactly near the end of an untriggered playing video, and re-arms the
      marker 2000 ms later. */
  lemma NearEndCaseEnds(s: Step, m: Media, platform: Option<PlatformId>, v: Video)
    ensures var r := NearEndCase(s, m, platform, v);
      CaseStep(s, r) && r.t.attempts == s.t.attempts &&
      (r.g.endCalls == s.g.endCalls + 1 <==> NearEnd(m, EndThreshold(Some(s.t.platform))) && !s.t.triggered) &&
      (r.g.endCalls == s.g.endCalls + 1 ==>
        var h := HandleVideoEndStep(s.g, s.t.waitingForLoop, platform).nextId;
        h in r.g.pending && r.g.pending[h] == Scheduled(ClearTriggered(v), NearEndQuiet))
  {
  }

  /** Case 2 fires exactly on a non-YouTube loop of an untriggered video, and re-arms the
      marker 3000 ms later. */
  lemma LoopCaseEnds(s: Step, m: Media, platform: Option<PlatformId>, v: Video)
    ensures var r := LoopCase(s, m, platform, v);
      CaseStep(s, r) && r.t.attempts == s.t.attempts &&
      (r.g.endCalls == s.g.endCalls + 1 <==>
        s.t.platform != YouTube && LoopJump(s.t.lastTimeValue, m) && !s.t.triggered) &&
      (r.g.endCalls == s.g.endCalls + 1 ==>
        var h := HandleVideoEndStep(s.g, s.t.waitingForLoop, platform).nextId;
        h in r.g.pending && r.g.pending[h] == Scheduled(ClearTriggered(v), LoopQuiet))
  {
  }

  lemma ProgressCaseEnds(s: Step, m: Media, platform: Option<PlatformId>, v: Video)
    ensures var r := ProgressCase(s, m, platform, v);
      CaseStep(s, r) &&
      (r.g.endCalls == s.g.endCalls + 1 <==> HighProgress(m) && !s.t.triggered && s.t.attempts >= 3) &&
      (r.g.endCalls == s.g.endCalls + 1 ==>
        var h := HandleVideoEndStep(s.g, s.t.waitingForLoop, platform).nextId;
        h in r.g.pending && r.g.pending[h] == Scheduled(ClearTriggered(v), NearEndQuiet))
  {
  }

  /** The three cases in order. */
  lemma MainCasesEnd(s: Step, m: Media, platform: Option<PlatformId>, v: Video)
    ensures var r := ProgressCase(LoopCase(NearEndCase(s, m, platform, v), m, platform, v), m, platform, v);
      CaseStep(s, r) &&
      (r.g.endCalls == s.g.endCalls + 1 <==>
        !s.t.triggered &&
        (NearEnd(m, EndThreshold(Some(s.t.platform))) ||
         (s.t.platform != YouTube && LoopJump(s.t.lastTimeValue, m)) ||
         (HighProgress(m) && s.t.attempts >= 3)))
  {
    var s1 := NearEndCase(s, m, platform, v);
    var s2 := LoopCase(s1, m, platform, v);
    NearEndCaseEnds(s, m, platform, v);
    LoopCaseEnds(s1, m, platform, v);
    ProgressCaseEnds(s2, m, platform, v);
  }

  /** The YouTube listener never calls handleVideoEnd. */
  lemma YoutubeListenerNeverEnds(s: Step, m: Media, v: Video)
    ensures var r := YoutubeListenerStep(s, m, v);
      r.g.endCalls == s.g.endCalls && r.g.enabled == s.g.enabled && r.g.isScrolling == s.g.isScrolling &&
      r.t.triggered == s.t.triggered && r.t.scrollAttached == s.t.scrollAttached &&
      r.t.platform == s.t.platform && r.t.lastTimeValue == s.t.lastTimeValue && r.t.generation == s.t.generation
  {
  }

  /** A whole tick on an attached video: the main listener and, on YouTube, the dedicated one. */
  lemma {:induction false} TickEnds(s: Step, m: Media, platform: Option<PlatformId>, v: Video)
    requires s.t.scrollAttached
    ensures var r := TimeUpdateStep(s, m, platform, v);
      r.t.lastTimeValue == m.currentTime && r.t.scrollAttached && r.t.platform == s.t.platform &&
      r.t.generation == s.t.generation && r.g.enabled == s.g.enabled &&
      (s.t.triggered ==> r.t.triggered) &&
      (r.g.endCalls == s.g.endCalls || (r.g.endCalls == s.g.endCalls + 1 && r.t.triggered)) &&
      (r.g.endCalls == s.g.endCalls + 1 <==>
        s.g.enabled && !s.t.triggered &&
        (NearEnd(m, EndThreshold(Some(s.t.platform))) ||
         (s.t.platform != YouTube && LoopJump(s.t.lastTimeValue, m)) ||
         (HighProgress(m) && s.t.attempts >= 3)))
  {
    var s1 := MainListenerStep(s, m, platform, v);
    if s.g.enabled {
      MainCasesEnd(s, m, platform, v);
    }
    YoutubeListenerNeverEnds(s1, m, v);
  }

  /** A call from a tick sets a timer that clears the triggered marker: after 3000 ms for a
      loop on another platform, 2000 ms otherwise. */
  lemma FireEndClearsMarkerLater(s: Step, platform: Option<PlatformId>, v: Video, quiet: int)
    ensures var r := FireEnd(s, platform, v, quiet);
      var h := HandleVideoEndStep(s.g, s.t.waitingForLoop, platform).nextId;
      r.t.triggered && h in r.g.pending && r.g.pending[h] == Scheduled(ClearTriggered(v), quiet) &&
      r.g.endCalls == s.g.endCalls + 1
  {
  }

  /** Case 3 fires only once the counter passes three, the counter grows only above 85% on
      an untriggered video, a tick below 80% resets it, and any other tick leaves it alone. */
  lemma ProgressCounter(s: Step, m: Media, platform: Option<PlatformId>, v: Video)
    ensures var r := ProgressCase(s, m, platform, v);
      (r.g.endCalls != s.g.endCalls ==> r.t.attempts > 3 && HighProgress(m)) &&
      (!HighProgress(m) && LowProgress(m) ==> r.t.attempts == 0 && r == Step(s.g, s.t.(attempts := 0))) &&
      (HighProgress(m) && !s.t.triggered ==> r.t.attempts == s.t.attempts + 1) &&
      (!(HighProgress(m) && !s.t.triggered) && !LowProgress(m) ==> r == s) &&
      (r.t.attempts != s.t.attempts ==> (HighProgress(m) && !s.t.triggered) || r.t.attempts == 0)
  {
  }

  /** A video halfway through its playback never counts as high progress or near its end. */
  lemma ProgressTestsExclusive(m: Media)
    requires m.durationKnown && m.duration > 0.0 && m.currentTime == m.duration * 0.5
    ensures LowProgress(m) && !HighProgress(m) && !StalledNearEnd(m) && !EndedNearEnd(m)
  {
    assert m.currentTime / m.duration == 0.5;
  }

  /** On YouTube a loop never calls handleVideoEnd directly: it replaces the video's loop timer
      with a fresh 500 ms one. */
  lemma YoutubeLoopDefers(s: Step, m: Media, platform: Option<PlatformId>, v: Video)
    requires s.t.loopTimer.Some? ==> s.t.loopTimer.value < s.g.nextId
    requires LoopJump(s.t.lastTimeValue, m) && s.t.platform == YouTube
    ensures var r := LoopCase(s, m, platform, v);
      r.g.endCalls == s.g.endCalls && r.t.loopTimer == Some(s.g.nextId) &&
      s.g.nextId in r.g.pending && r.g.pending[s.g.nextId] == Scheduled(LoopFire(v), LoopWait) &&
      (s.t.loopTimer.Some? ==> s.t.loopTimer.value !in r.g.pending)
  {
  }

  /** The YouTube listener's window holds the most recent times, at most five, newest last. */
  lemma PushRecentWindow(q: seq<real>, x: real)
    requires |q| <= 5
    ensures var r := PushRecent(q, x);
      |r| <= 5 && |r| >= 1 && r[|r| - 1] == x && r[..|r| - 1] == q[|q| + 1 - |r|..] &&
      (|q| < 5 ==> r == q + [x])
  {
  }

  /** It keeps that window through every tick, and while a detection is active it sets no
      timers. */
  lemma YoutubeListenerWindow(s: Step, m: Media, v: Video)
    requires |s.t.previousTimes| <= 5
    ensures var r := YoutubeListenerStep(s, m, v);
      |r.t.previousTimes| <= 5 &&
      (s.g.enabled ==> r.t.previousTimes == PushRecent(s.t.previousTimes, m.currentTime)) &&
      (s.t.loopDetectionActive ==> r.g == s.g && r.t.loopDetectionActive)
  {
  }

  // ---------------------------------------------------------------------------
  // The corroborating listeners

  lemma EndedEndsIff(s: Step, m: Media, platform: Option<PlatformId>)
    ensures var r := EndedStep(s, m, platform);
      (r.g.endCalls == s.g.endCalls + 1 <==> s.t.scrollAttached && s.g.enabled && EndedNearEnd(m)) &&
      (r.g.endCalls == s.g.endCalls ==> r == s) && r.t == s.t
  {
  }

  /** The pause listener has no enabled check: near the end it calls handleVideoEnd even
      while auto-scroll is off, which cancels a scroll still pending. */
  lemma PauseEndsIff(s: Step, m: Media, platform: Option<PlatformId>, v: Video)
    ensures var r := PauseStep(s, m, platform, v);
      (r.g.endCalls == s.g.endCalls + 1 <==> s.t.scrollAttached && PausedNearEnd(m)) &&
      (r.g.endCalls == s.g.endCalls ==> r.g.scrollTimeout == s.g.scrollTimeout) && r.t == s.t
  {
  }

  lemma PauseWhileDisabledCancelsScroll(s: Step, m: Media, platform: Option<PlatformId>, v: Video)
    requires HandlesIssued(s.g) && !s.g.enabled && s.t.scrollAttached && PausedNearEnd(m)
    requires s.g.scrollTimeout.Some?
    ensures var r := PauseStep(s, m, platform, v);
      s.g.scrollTimeout.value !in r.g.pending && r.g.scrollTimeout.None?
  {
  }

  /** A pause of a YouTube video in its first second gets a second look 200 ms later. */
  lemma PauseNearStartRechecks(s: Step, m: Media, platform: Option<PlatformId>, v: Video)
    requires s.t.scrollAttached && !PausedNearEnd(m) && s.t.platform == YouTube && PausedNearStart(m)
    ensures var r := PauseStep(s, m, platform, v);
      r.g.endCalls == s.g.endCalls && s.g.nextId in r.g.pending &&
      r.g.pending[s.g.nextId] == Scheduled(PauseRecheck(v), PauseRecheckDelay)
  {
  }

  lemma ErrorEndsIff(s: Step, m: Media, platform: Option<PlatformId>)
    ensures var r := ErrorStep(s, m, platform);
      (r.g.endCalls == s.g.endCalls + 1 <==> s.t.scrollAttached && ErrorNearEnd(m)) &&
      (r.g.endCalls == s.g.endCalls ==> r == s) && r.t == s.t
  {
  }

  /** The error listener's ratio is infinite for a zero duration, so any positive time counts
      as near the end. */
  lemma ErrorZeroDuration(ct: real, paused: bool)
    requires ct > 0.0
    ensures ErrorNearEnd(Media(ct, 0.0, true, paused)) && !StalledNearEnd(Media(ct, 0.0, true, paused))
  {
  }

  lemma StalledEndsIff(s: Step, m: Media, platform: Option<PlatformId>)
    ensures var r := StalledStep(s, m, platform);
      (r.g.endCalls == s.g.endCalls + 1 <==> s.t.scrollAttached && StalledNearEnd(m)) &&
      (r.g.endCalls == s.g.endCalls ==> r == s) && r.t == s.t
  {
  }

  // ---------------------------------------------------------------------------
  // Loop timers

  /** The loop timer's callback opens the lock and triggers YouTube but never re-arms the lock;
      unless the trigger threw it marks the video as waiting for its loop for 1000 ms. */
  lemma LoopFireLeavesLockOpen(s: Step, id: nat, v: Video, throws: bool)
    requires HandlesIssued(s.g) && id in s.g.pending && s.g.enabled
    ensures var r := LoopFireStep(s, id, v, throws);
      !r.g.isScrolling && r.g.triggers == s.g.triggers + [YouTube] && id !in r.g.pending &&
      r.t.waitingForLoop == !throws &&
      (!throws ==> s.g.nextId in r.g.pending && r.g.pending[s.g.nextId] == Scheduled(LoopRelease(v), LockReleaseDelay))
  {
  }

  /** So the next end signal of that video scrolls after the 100 ms override delay. */
  lemma LoopFireThenEndUsesOverride(s: Step, id: nat, v: Video)
    requires s.g.enabled
    ensures var r := LoopFireStep(s, id, v, false);
      var g2 := HandleVideoEndStep(r.g, r.t.waitingForLoop, Some(YouTube));
      g2.scrollTimeout == Some(r.g.nextId) && g2.pending[r.g.nextId] == Scheduled(ScrollTrigger(YouTube), LoopOverrideDelay)
  {
  }

  /** A disabled script's loop timer does nothing but expire. */
  lemma LoopFireDisabled(s: Step, id: nat, v: Video, throws: bool)
    requires !s.g.enabled
    ensures LoopFireStep(s, id, v, throws) == Step(Fired(s.g, id), s.t)
  {
  }

  /** The release of a previous attachment's YouTube listener leaves the current one's
      detection state alone. */
  lemma StaleDetectionReleaseIgnored(s: Step, id: nat, generation: nat)
    requires generation != s.t.generation
    ensures LoopDetectionReleaseStep(s, id, generation).t == s.t
  {
  }

  /** One pending loop timer and one pending YouTube loop timer per video at most: each pending
      one is the one the video's property holds. */
  predicate LoopTimersTracked(g: Globals, t: Tracking, v: Video)
  {
    (forall id :: id in g.pending && g.pending[id].timer == LoopFire(v) ==> t.loopTimer == Some(id)) &&
    (forall id :: id in g.pending && g.pending[id].timer == YoutubeLoopFire(v) ==> t.youtubeLoopTimer == Some(id))
  }

  // ---------------------------------------------------------------------------
  // Listener lifecycle

  /** Attaching twice is attaching once: the marker makes the second call a no-op. */
  lemma AttachIdempotent(s: Step, m: Media, m2: Media, p: PlatformId, p2: PlatformId)
    ensures AttachStep(AttachStep(s, m, p), m2, p2) == AttachStep(s, m, p)
  {
  }

  /** A first attachment starts from a clean slate: fresh closures, no loop timers left. */
  lemma AttachStartsClean(s: Step, m: Media, p: PlatformId)
    requires HandlesIssued(s.g) && !s.t.scrollAttached
    requires s.t.loopTimer.Some? ==> s.t.loopTimer.value < s.g.nextId
    ensures var r := AttachStep(s, m, p);
      r.t.scrollAttached && r.t.platform == p && r.t.lastTimeValue == m.currentTime && r.t.attempts == 0 &&
      r.t.previousTimes == [] && !r.t.loopDetectionActive && r.t.generation > s.t.generation &&
      r.t.loopTimer.None? && r.t.youtubeLoopTimer.None? && r.t.triggered == s.t.triggered &&
      (forall id :: id in r.g.pending ==> id in s.g.pending) &&
      (s.t.loopTimer.Some? ==> s.t.loopTimer.value !in r.g.pending) &&
      r.g.(pending := s.g.pending) == s.g
  {
    var p1 := Cancel(s.g.pending, s.t.loopTimer);
    var p2 := Cancel(p1, s.t.youtubeLoopTimer);
    assert p1.Keys <= s.g.pending.Keys && p2.Keys <= p1.Keys;
    assert s.t.loopTimer.Some? ==> s.t.loopTimer.value !in p1;
  }

  /** Setting up again after a cleanup gives every video fresh listeners and no marker. */
  lemma SetupGivesFreshListeners(t: Tracking, m: Media, p: PlatformId)
    ensures var r := Attached(Cleaned(t), m, p);
      r.scrollAttached && (r.triggered <==> t.triggered && !t.scrollAttached) && r.platform == p && r.attempts == 0 && r.previousTimes == [] &&
      r.loopTimer.None? && r.youtubeLoopTimer.None? && r.generation > t.generation &&
      r.waitingForLoop == t.waitingForLoop
  {
  }

  /** Cleanup leaves a video without listeners, marker or loop timers; a second cleanup
      changes nothing. */
  lemma CleanedIsDetached(t: Tracking)
    ensures !Cleaned(t).scrollAttached && Cleaned(Cleaned(t)) == Cleaned(t)
    ensures t.scrollAttached ==> !Cleaned(t).triggered && Cleaned(t).loopTimer.None? && Cleaned(t).youtubeLoopTimer.None?
  {
  }

  // ---------------------------------------------------------------------------
  // A page with one video: every reachable state keeps the invariants

  /** What can happen next on a page whose only video element is `v`: an event on the video,
      a pending timer firing, the observer attaching listeners, or a toggle message. */
  datatype Event =
    | Tick(m: Media, platform: Option<PlatformId>)
    | EndedEvent(m: Media, platform: Option<PlatformId>)
    | PauseEvent(m: Media, platform: Option<PlatformId>)
    | ErrorEvent(m: Media, platform: Option<PlatformId>)
    | StalledEvent(m: Media, platform: Option<PlatformId>)
    | TimerFires(id: nat, m: Media, platform: Option<PlatformId>, throws: bool)
    | AttachEvent(m: Media, p: PlatformId)
    | Toggle(value: bool, m: Media, platform: Option<PlatformId>)

  /** The video a timer's callback belongs to, if any. */
  function TimerVideo(timer: Timer): Option<Video>
  {
    match timer
    case ScrollTrigger(_) => None
    case LockRelease => None
    case ClearTriggered(w) => Some(w)
    case LoopFire(w) => Some(w)
    case LoopRelease(w) => Some(w)
    case PauseRecheck(w) => Some(w)
    case YoutubeLoopFire(w) => Some(w)
    case LoopDetectionRelease(w, _) => Some(w)
  }

  /** Timer `id` fires; on this page every video timer belongs to `v`. */
  function TimerStep(s: Step, v: Video, id: nat, m: Media, platform: Option<PlatformId>, throws: bool): Step
  {
    if id !in s.g.pending || TimerVideo(s.g.pending[id].timer) !in {None, Some(v)} then s
    else
      match s.g.pending[id].timer
      case ScrollTrigger(p) => Step(ScrollTriggerStep(s.g, id, p), s.t)
      case LockRelease => Step(LockReleaseStep(s.g, id), s.t)
      case ClearTriggered(_) => ClearTriggeredStep(s, id)
      case LoopFire(_) => LoopFireStep(s, id, v, throws)
      case LoopRelease(_) => LoopReleaseStep(s, id)
      case PauseRecheck(_) => PauseRecheckStep(s, id, m, platform)
      case YoutubeLoopFire(_) => Step(YoutubeLoopFireStep(s.g, id), s.t)
      case LoopDetectionRelease(_, generation) => LoopDetectionReleaseStep(s, id, generation)
  }

  /** The toggle message on this page, as `ToggleAutoScroll` does it for the list `[v]`. */
  function ToggleStep(s: Step, value: bool, m: Media, platform: Option<PlatformId>): Step
  {
    if s.g.enabled || !value || platform.None? then Step(s.g.(enabled := value), s.t)
    else Step(s.g.(enabled := true, pending := s.g.pending - VideoHandles(s.t)), Attached(Cleaned(s.t), m, platform.value))
  }

  function Apply(s: Step, v: Video, e: Event): Step
  {
    match e
    case Tick(m, platform) => TimeUpdateStep(s, m, platform, v)
    case EndedEvent(m, platform) => EndedStep(s, m, platform)
    case PauseEvent(m, platform) => PauseStep(s, m, platform, v)
    case ErrorEvent(m, platform) => ErrorStep(s, m, platform)
    case StalledEvent(m, platform) => StalledStep(s, m, platform)
    case TimerFires(id, m, platform, throws) => TimerStep(s, v, id, m, platform, throws)
    case AttachEvent(m, p) => AttachStep(s, m, p)
    case Toggle(value, m, platform) => ToggleStep(s, value, m, platform)
  }

  function Run(s: Step, v: Video, es: seq<Event>): Step
    decreases |es|
  {
    if es == [] then s else Apply(Run(s, v, es[..|es| - 1]), v, es[|es| - 1])
  }

  /** The invariants of this page: those of the timer table, every video timer is `v`'s, the
      video's handles were issued, and its loop timers are the ones its properties hold. */
  predicate PageInv(s: Step, v: Video)
  {
    Inv(s.g) &&
    (forall id :: id in s.g.pending ==> TimerVideo(s.g.pending[id].timer) in {None, Some(v)}) &&
    (s.t.loopTimer.Some? ==> s.t.loopTimer.value < s.g.nextId) &&
    (s.t.youtubeLoopTimer.Some? ==> s.t.youtubeLoopTimer.value < s.g.nextId) &&
    LoopTimersTracked(s.g, s.t, v)
  }

  /** Setting a timer of `v` other than its two loop timers. */
  lemma SchedulePlainKeepsPageInv(s: Step, v: Video, timer: Timer, delay: int)
    requires PageInv(s, v)
    requires !timer.ScrollTrigger? && timer != LoopFire(v) && timer != YoutubeLoopFire(v)
    requires TimerVideo(timer) in {None, Some(v)}
    ensures PageInv(Step(Schedule(s.g, timer, delay), s.t), v)
  {
    ScheduleKeepsInv(s.g, timer, delay);
    var r := Schedule(s.g, timer, delay);
    assert forall id :: id in r.pending && id != s.g.nextId ==> id in s.g.pending && r.pending[id] == s.g.pending[id];
  }

  /** Cancelling timers or letting one fire keeps the page invariant. */
  lemma RemoveKeepsPageInv(s: Step, v: Video, gone: set<nat>)
    requires PageInv(s, v)
    ensures PageInv(Step(s.g.(pending := s.g.pending - gone), s.t), v)
  {
    var r := s.g.(pending := s.g.pending - gone);
    assert forall id :: id in r.pending ==> id in s.g.pending && r.pending[id] == s.g.pending[id];
  }

  /** Changing the video's properties other than its loop timers keeps it too. */
  lemma PropsKeepPageInv(s: Step, v: Video, t: Tracking)
    requires PageInv(s, v) && t.loopTimer == s.t.loopTimer && t.youtubeLoopTimer == s.t.youtubeLoopTimer
    ensures PageInv(Step(s.g, t), v)
  {
  }

  lemma HandleVideoEndKeepsPageInv(s: Step, v: Video, waiting: bool, platform: Option<PlatformId>)
    requires PageInv(s, v)
    ensures PageInv(Step(HandleVideoEndStep(s.g, waiting, platform), s.t), v)
  {
    HandleVideoEndKeepsInv(s.g, waiting, platform);
    var r := HandleVideoEndStep(s.g, waiting, platform);
    var g1 := s.g.(pending := Cancel(s.g.pending, s.g.scrollTimeout));
    RemoveKeepsPageInv(s, v, OptSet(s.g.scrollTimeout));
    assert g1.pending == s.g.pending - OptSet(s.g.scrollTimeout);
    if r.scrollTimeout.Some? {
      assert r.pending == g1.pending[s.g.nextId := r.pending[s.g.nextId]] && r.nextId == s.g.nextId + 1;
      assert forall id :: id in r.pending && id != s.g.nextId ==> id in g1.pending && r.pending[id] == g1.pending[id];
    } else {
      assert r.pending == g1.pending && r.nextId == s.g.nextId;
    }
  }

  lemma FireEndKeepsPageInv(s: Step, platform: Option<PlatformId>, v: Video, quiet: int)
    requires PageInv(s, v)
    ensures PageInv(FireEnd(s, platform, v, quiet), v)
  {
    var t1 := s.t.(triggered := true);
    PropsKeepPageInv(s, v, t1);
    HandleVideoEndKeepsPageInv(Step(s.g, t1), v, t1.waitingForLoop, platform);
    SchedulePlainKeepsPageInv(Step(HandleVideoEndStep(s.g, t1.waitingForLoop, platform), t1), v, ClearTriggered(v), quiet);
  }

  lemma NearEndCaseKeepsPageInv(s: Step, m: Media, platform: Option<PlatformId>, v: Video)
    requires PageInv(s, v)
    ensures PageInv(NearEndCase(s, m, platform, v), v)
  {
    if NearEnd(m, EndThreshold(Some(s.t.platform))) && !s.t.triggered {
      FireEndKeepsPageInv(s, platform, v, NearEndQuiet);
    }
  }

  /** The YouTube loop timer is replaced, never duplicated. */
  lemma LoopCaseKeepsPageInv(s: Step, m: Media, platform: Option<PlatformId>, v: Video)
    requires PageInv(s, v)
    ensures PageInv(LoopCase(s, m, platform, v), v)
  {
    if LoopJump(s.t.lastTimeValue, m) {
      if s.t.platform == YouTube {
        var g1 := s.g.(pending := Cancel(s.g.pending, s.t.loopTimer));
        RemoveKeepsPageInv(s, v, OptSet(s.t.loopTimer));
        assert g1.pending == s.g.pending - OptSet(s.t.loopTimer);
        var r := LoopCase(s, m, platform, v);
        assert r.g == Schedule(g1, LoopFire(v), LoopWait);
        ScheduleKeepsInv(g1, LoopFire(v), LoopWait);
        assert forall id :: id in r.g.pending && id != g1.nextId ==> id in g1.pending && r.g.pending[id] == g1.pending[id];
      } else if !s.t.triggered {
        FireEndKeepsPageInv(s, platform, v, LoopQuiet);
      }
    }
  }

  lemma ProgressCaseKeepsPageInv(s: Step, m: Media, platform: Option<PlatformId>, v: Video)
    requires PageInv(s, v)
    ensures PageInv(ProgressCase(s, m, platform, v), v)
  {
    if HighProgress(m) && !s.t.triggered {
      var s1 := Step(s.g, s.t.(attempts := s.t.attempts + 1));
      PropsKeepPageInv(s, v, s1.t);
      if s1.t.attempts > 3 {
        FireEndKeepsPageInv(s1, platform, v, NearEndQuiet);
      }
    } else if LowProgress(m) {
      PropsKeepPageInv(s, v, s.t.(attempts := 0));
    }
  }

  lemma MainListenerKeepsPageInv(s: Step, m: Media, platform: Option<PlatformId>, v: Video)
    requires PageInv(s, v)
    ensures PageInv(MainListenerStep(s, m, platform, v), v)
  {
    if !s.g.enabled {
      PropsKeepPageInv(s, v, s.t.(lastTimeValue := m.currentTime));
    } else {
      var s1 := NearEndCase(s, m, platform, v);
      var s2 := LoopCase(s1, m, platform, v);
      var s3 := ProgressCase(s2, m, platform, v);
      NearEndCaseKeepsPageInv(s, m, platform, v);
      LoopCaseKeepsPageInv(s1, m, platform, v);
      ProgressCaseKeepsPageInv(s2, m, platform, v);
      PropsKeepPageInv(s3, v, s3.t.(lastTimeValue := m.currentTime));
    }
  }

  /** Cancelling the video's YouTube loop timer leaves none of them pending. */
  lemma CancelYoutubeTimerKeepsPageInv(s: Step, v: Video)
    requires PageInv(s, v)
    ensures PageInv(Step(s.g.(pending := Cancel(s.g.pending, s.t.youtubeLoopTimer)), s.t.(youtubeLoopTimer := None)), v)
  {
    var r := s.g.(pending := Cancel(s.g.pending, s.t.youtubeLoopTimer));
    assert r.pending == s.g.pending - OptSet(s.t.youtubeLoopTimer);
    assert forall id :: id in r.pending ==> id in s.g.pending && r.pending[id] == s.g.pending[id];
  }

  /** Arming a YouTube loop timer when none is held records its handle. */
  lemma ArmYoutubeTimerKeepsPageInv(s: Step, v: Video)
    requires PageInv(s, v) && s.t.youtubeLoopTimer.None?
    ensures PageInv(Step(Schedule(s.g, YoutubeLoopFire(v), LoopWait), s.t.(youtubeLoopTimer := Some(s.g.nextId))), v)
  {
    ScheduleKeepsInv(s.g, YoutubeLoopFire(v), LoopWait);
    var r := Schedule(s.g, YoutubeLoopFire(v), LoopWait);
    assert forall id :: id in r.pending && id != s.g.nextId ==> id in s.g.pending && r.pending[id] == s.g.pending[id];
  }

  /** A definitive loop replaces the video's YouTube loop timer, never duplicating it. */
  lemma YoutubeDetectionKeepsPageInv(s: Step, v: Video)
    requires PageInv(s, v)
    ensures var g1 := s.g.(pending := Cancel(s.g.pending, s.t.youtubeLoopTimer));
      var g2 := Schedule(g1, YoutubeLoopFire(v), LoopWait);
      PageInv(Step(g2, s.t.(loopDetectionActive := true, youtubeLoopTimer := Some(g1.nextId))), v)
  {
    var g1 := s.g.(pending := Cancel(s.g.pending, s.t.youtubeLoopTimer));
    CancelYoutubeTimerKeepsPageInv(s, v);
    var t1 := s.t.(youtubeLoopTimer := None, loopDetectionActive := true);
    PropsKeepPageInv(Step(g1, s.t.(youtubeLoopTimer := None)), v, t1);
    ArmYoutubeTimerKeepsPageInv(Step(g1, t1), v);
    assert t1.(youtubeLoopTimer := Some(g1.nextId)) == s.t.(loopDetectionActive := true, youtubeLoopTimer := Some(g1.nextId));
  }

  lemma YoutubeListenerKeepsPageInv(s: Step, m: Media, v: Video)
    requires PageInv(s, v)
    ensures PageInv(YoutubeListenerStep(s, m, v), v)
  {
    if s.g.enabled {
      var q := PushRecent(s.t.previousTimes, m.currentTime);
      var t1 := s.t.(previousTimes := q);
      PropsKeepPageInv(s, v, t1);
      if |q| >= 2 && DefinitiveLoop(q[|q| - 2], m) && !t1.loopDetectionActive {
        YoutubeDetectionKeepsPageInv(Step(s.g, t1), v);
        var g1 := s.g.(pending := Cancel(s.g.pending, t1.youtubeLoopTimer));
        var g2 := Schedule(g1, YoutubeLoopFire(v), LoopWait);
        var t2 := t1.(loopDetectionActive := true, youtubeLoopTimer := Some(g1.nextId));
        SchedulePlainKeepsPageInv(Step(g2, t2), v, LoopDetectionRelease(v, t1.generation), LoopDetectionQuiet);
      }
    }
  }

  lemma TimeUpdateKeepsPageInv(s: Step, m: Media, platform: Option<PlatformId>, v: Video)
    requires PageInv(s, v)
    ensures PageInv(TimeUpdateStep(s, m, platform, v), v)
  {
    if s.t.scrollAttached {
      var s1 := MainListenerStep(s, m, platform, v);
      MainListenerKeepsPageInv(s, m, platform, v);
      if s.t.platform == YouTube {
        YoutubeListenerKeepsPageInv(s1, m, v);
      }
    }
  }

  /** The callbacks that touch only the script-wide state. */
  lemma GlobalTimerKeepsPageInv(s: Step, v: Video, id: nat, m: Media, platform: Option<PlatformId>, throws: bool)
    requires PageInv(s, v) && id in s.g.pending
    requires s.g.pending[id].timer.ScrollTrigger? || s.g.pending[id].timer == LockRelease ||
             s.g.pending[id].timer == YoutubeLoopFire(v)
    ensures PageInv(TimerStep(s, v, id, m, platform, throws), v)
  {
    RemoveKeepsPageInv(s, v, {id});
    if s.g.pending[id].timer.ScrollTrigger? {
      var p := s.g.pending[id].timer.platform;
      SchedulePlainKeepsPageInv(Step(Fired(s.g, id).(triggers := s.g.triggers + [p]), s.t), v, LockRelease, LockReleaseDelay);
    }
  }

  /** The callbacks that reset one of the video's flags. */
  lemma FlagTimerKeepsPageInv(s: Step, v: Video, id: nat, m: Media, platform: Option<PlatformId>, throws: bool)
    requires PageInv(s, v) && id in s.g.pending
    requires s.g.pending[id].timer == ClearTriggered(v) || s.g.pending[id].timer == LoopRelease(v) ||
             (s.g.pending[id].timer.LoopDetectionRelease? && s.g.pending[id].timer.video == v)
    ensures PageInv(TimerStep(s, v, id, m, platform, throws), v)
  {
    var f := Step(Fired(s.g, id), s.t);
    RemoveKeepsPageInv(s, v, {id});
    var timer := s.g.pending[id].timer;
    if timer == ClearTriggered(v) {
      PropsKeepPageInv(f, v, s.t.(triggered := false));
    } else if timer == LoopRelease(v) {
      PropsKeepPageInv(Step(f.g.(isScrolling := false), s.t), v, s.t.(waitingForLoop := false));
    } else {
      PropsKeepPageInv(f, v, s.t.(loopDetectionActive := false));
    }
  }

  lemma LoopTimerKeepsPageInv(s: Step, v: Video, id: nat, m: Media, platform: Option<PlatformId>, throws: bool)
    requires PageInv(s, v) && id in s.g.pending && s.g.pending[id].timer == LoopFire(v)
    ensures PageInv(TimerStep(s, v, id, m, platform, throws), v)
  {
    var f := Step(Fired(s.g, id), s.t);
    RemoveKeepsPageInv(s, v, {id});
    if f.g.enabled {
      var g1 := f.g.(isScrolling := false, triggers := f.g.triggers + [YouTube]);
      PropsKeepPageInv(Step(g1, s.t), v, s.t.(waitingForLoop := !throws));
      if !throws {
        SchedulePlainKeepsPageInv(Step(g1, s.t.(waitingForLoop := true)), v, LoopRelease(v), LockReleaseDelay);
      }
    }
  }

  lemma PauseTimerKeepsPageInv(s: Step, v: Video, id: nat, m: Media, platform: Option<PlatformId>, throws: bool)
    requires PageInv(s, v) && id in s.g.pending && s.g.pending[id].timer == PauseRecheck(v)
    ensures PageInv(TimerStep(s, v, id, m, platform, throws), v)
  {
    var f := Step(Fired(s.g, id), s.t);
    RemoveKeepsPageInv(s, v, {id});
    if PausedNearStart(m) {
      HandleVideoEndKeepsPageInv(f, v, s.t.waitingForLoop, platform);
    }
  }

  lemma TimerKeepsPageInv(s: Step, v: Video, id: nat, m: Media, platform: Option<PlatformId>, throws: bool)
    requires PageInv(s, v)
    ensures PageInv(TimerStep(s, v, id, m, platform, throws), v)
  {
    if id in s.g.pending && TimerVideo(s.g.pending[id].timer) in {None, Some(v)} {
      match s.g.pending[id].timer
      case ScrollTrigger(_) => GlobalTimerKeepsPageInv(s, v, id, m, platform, throws);
      case LockRelease => GlobalTimerKeepsPageInv(s, v, id, m, platform, throws);
      case YoutubeLoopFire(_) => GlobalTimerKeepsPageInv(s, v, id, m, platform, throws);
      case ClearTriggered(_) => FlagTimerKeepsPageInv(s, v, id, m, platform, throws);
      case LoopRelease(_) => FlagTimerKeepsPageInv(s, v, id, m, platform, throws);
      case LoopDetectionRelease(_, _) => FlagTimerKeepsPageInv(s, v, id, m, platform, throws);
      case LoopFire(_) => LoopTimerKeepsPageInv(s, v, id, m, platform, throws);
      case PauseRecheck(_) => PauseTimerKeepsPageInv(s, v, id, m, platform, throws);
    }
  }

  lemma AttachKeepsPageInv(s: Step, v: Video, m: Media, p: PlatformId)
    requires PageInv(s, v)
    ensures PageInv(AttachStep(s, m, p), v)
  {
    if !s.t.scrollAttached {
      var p2 := Cancel(Cancel(s.g.pending, s.t.loopTimer), s.t.youtubeLoopTimer);
      CancelTwice(s.g.pending, s.t.loopTimer, s.t.youtubeLoopTimer);
      RemoveKeepsPageInv(s, v, VideoHandles(s.t));
    }
  }

  lemma ToggleKeepsPageInv(s: Step, v: Video, value: bool, m: Media, platform: Option<PlatformId>)
    requires PageInv(s, v)
    ensures PageInv(ToggleStep(s, value, m, platform), v)
  {
    if !(s.g.enabled || !value || platform.None?) {
      RemoveKeepsPageInv(s, v, VideoHandles(s.t));
    }
  }

  lemma ApplyKeepsPageInv(s: Step, v: Video, e: Event)
    requires PageInv(s, v)
    ensures PageInv(Apply(s, v, e), v)
  {
    match e
    case Tick(m, platform) => TimeUpdateKeepsPageInv(s, m, platform, v);
    case EndedEvent(m, platform) =>
      HandleVideoEndKeepsPageInv(s, v, s.t.waitingForLoop, platform);
    case PauseEvent(m, platform) =>
      HandleVideoEndKeepsPageInv(s, v, s.t.waitingForLoop, platform);
      SchedulePlainKeepsPageInv(s, v, PauseRecheck(v), PauseRecheckDelay);
    case ErrorEvent(m, platform) =>
      HandleVideoEndKeepsPageInv(s, v, s.t.waitingForLoop, platform);
    case StalledEvent(m, platform) =>
      HandleVideoEndKeepsPageInv(s, v, s.t.waitingForLoop, platform);
    case TimerFires(id, m, platform, throws) => TimerKeepsPageInv(s, v, id, m, platform, throws);
    case AttachEvent(m, p) => AttachKeepsPageInv(s, v, m, p);
    case Toggle(value, m, platform) => ToggleKeepsPageInv(s, v, value, m, platform);
  }

  lemma {:induction false} RunKeepsPageInv(s: Step, v: Video, es: seq<Event>)
    requires PageInv(s, v)
    ensures PageInv(Run(s, v, es), v)
    decreases |es|
  {
    if es != [] {
      RunKeepsPageInv(s, v, es[..|es| - 1]);
      ApplyKeepsPageInv(Run(s, v, es[..|es| - 1]), v, es[|es| - 1]);
    }
  }

  /** From the script as loaded and an untouched video, whatever happens: at most one scroll
      trigger is pending, it is the one `scrollTimeout` holds, and the video has at most one
      pending loop timer and one pending YouTube loop timer. */
  lemma {:induction false} ReachableStatesAreSafe(v: Video, es: seq<Event>, a: nat, b: nat)
    ensures var r := Run(Step(Initial, Tracking(false, false, Instagram, 0.0, 0, None, false, 0, [], false, None)), v, es);
      (a in r.g.pending && b in r.g.pending && r.g.pending[a].timer.ScrollTrigger? && r.g.pending[b].timer.ScrollTrigger? ==>
        a == b && r.g.scrollTimeout == Some(a)) &&
      (a in r.g.pending && b in r.g.pending && r.g.pending[a].timer == LoopFire(v) && r.g.pending[b].timer == LoopFire(v) ==>
        a == b) &&
      (a in r.g.pending && b in r.g.pending && r.g.pending[a].timer == YoutubeLoopFire(v) && r.g.pending[b].timer == YoutubeLoopFire(v) ==>
        a == b)
  {
    var s0 := Step(Initial, Tracking(false, false, Instagram, 0.0, 0, None, false, 0, [], false, None));
    assert PageInv(s0, v);
    RunKeepsPageInv(s0, v, es);
  }
}
