/**
 * The session manager of the Browser object: the launch loop of `ensureBrowser`
 * and the idle counter that `alarm` advances and `getWebsiteMarkdown` resets.
 */
module Session {

  /** The object's `browser` field: unset, or a handle that reports whether it is connected. */
  datatype Browser = NoBrowser | Live(connected: bool)

  predicate Usable(b: Browser) {
    b.Live? && b.connected
  }

  /** Launch attempts `ensureBrowser` allows itself. */
  const LaunchAttempts: nat := 3

  /**
   * The outcome of `ensureBrowser`: its answer, the browser field afterwards,
   * how many launches it tried, and what each orphan cleanup between attempts reported.
   */
  datatype Ensured = Ensured(ok: bool, browser: Browser, launches: nat, cleanups: seq<bool>)

  /**
   * One pass of the `while (retries)` loop and the passes after it. `launch(k)` says whether
   * launch attempt `k` succeeds; `cleanup(k)` whether the orphan cleanup after failed attempt `k`
   * went through. `isConnected` is taken to be stable during the call.
   */
  function EnsureLoop(b: Browser, launch: nat -> bool, cleanup: nat -> bool, retries: nat): (r: Ensured)
    requires retries <= LaunchAttempts
    ensures var first := LaunchAttempts - retries;
      && (Usable(b) && retries > 0 ==> r == Ensured(true, b, 0, []))
      && (!Usable(b) ==> (r.ok <==> exists k :: first <= k < LaunchAttempts && launch(k)))
      && (!Usable(b) && r.ok ==>
            && r.browser == Live(true)
            && 1 <= r.launches
            && launch(first + r.launches - 1)
            && forall k :: first <= k < first + r.launches - 1 ==> !launch(k))
      && (!Usable(b) && !r.ok ==> r.browser == b && r.launches == retries)
      && |r.cleanups| == (if r.launches == 0 then 0 else r.launches - 1)
      && forall k :: 0 <= k < |r.cleanups| ==> r.cleanups[k] == cleanup(first + k)
    decreases retries
  {
    var attempt := LaunchAttempts - retries;
    if retries == 0 then Ensured(false, b, 0, [])
    else if Usable(b) then Ensured(true, b, 0, [])
    else if launch(attempt) then Ensured(true, Live(true), 1, [])
    else if retries == 1 then Ensured(false, b, 1, [])
    else
      var rest := EnsureLoop(b, launch, cleanup, retries - 1);
      Ensured(rest.ok, rest.browser, rest.launches + 1, [cleanup(attempt)] + rest.cleanups)
  }

  /** `ensureBrowser`, starting with its full budget of launch attempts. */
  function EnsureBrowser(b: Browser, launch: nat -> bool, cleanup: nat -> bool): (r: Ensured)
    ensures Usable(b) ==> r == Ensured(true, b, 0, [])
    ensures !Usable(b) ==> (r.ok <==> exists k :: 0 <= k < LaunchAttempts && launch(k))
    ensures !Usable(b) && r.ok ==>
      && r.browser == Live(true)
      && 1 <= r.launches <= LaunchAttempts
      && launch(r.launches - 1)
      && forall k :: 0 <= k < r.launches - 1 ==> !launch(k)
    ensures !r.ok ==> r.browser == b && r.launches == LaunchAttempts && |r.cleanups| == LaunchAttempts - 1
    ensures r.ok ==> Usable(r.browser)
  {
    EnsureLoop(b, launch, cleanup, LaunchAttempts)
  }

  /** What the cleanup of orphaned sessions reports never changes the answer, the handle or the number of launches. */
  lemma {:induction false} CleanupNeverDecides(b: Browser, launch: nat -> bool, c1: nat -> bool, c2: nat -> bool, retries: nat)
    requires retries <= LaunchAttempts
    ensures var r1 := EnsureLoop(b, launch, c1, retries);
      var r2 := EnsureLoop(b, launch, c2, retries);
      r1.ok == r2.ok && r1.browser == r2.browser && r1.launches == r2.launches
    decreases retries
  {
    if retries > 1 && !Usable(b) && !launch(LaunchAttempts - retries) {
      CleanupNeverDecides(b, launch, c1, c2, retries - 1);
    }
  }

  /** After an `ensureBrowser` that answered true, the next one answers true at once. */
  lemma EnsureTwice(b: Browser, launch: nat -> bool, cleanup: nat -> bool, launch2: nat -> bool, cleanup2: nat -> bool)
    requires EnsureBrowser(b, launch, cleanup).ok
    ensures var b2 := EnsureBrowser(b, launch, cleanup).browser;
      EnsureBrowser(b2, launch2, cleanup2) == Ensured(true, b2, 0, [])
  {
  }

  /** Seconds the browser is kept alive without activity. */
  const KeepAliveSeconds: int := 60

  /** Seconds each alarm adds to the idle counter. */
  const AlarmSeconds: int := 10

  /** The object's session state: its browser field and `keptAliveInSeconds`. */
  datatype State = State(browser: Browser, keptAlive: int)

  /** The state after an alarm and whether the alarm scheduled the next one. */
  datatype AlarmStep = AlarmStep(state: State, rescheduled: bool)

  /**
   * `alarm`: add ten seconds; below the keep-alive limit schedule the next alarm, otherwise close
   * and clear any browser. `closeFails` says whether `browser.close()` throws, which the handler
   * swallows before the field is cleared.
   */
  function Alarm(s: State, closeFails: bool): (r: AlarmStep)
    ensures r.state.keptAlive == s.keptAlive + AlarmSeconds
    ensures r.rescheduled <==> r.state.keptAlive < KeepAliveSeconds
    ensures r.rescheduled ==> r.state.browser == s.browser
    ensures !r.rescheduled && !closeFails ==> r.state.browser == NoBrowser
    ensures closeFails ==> r.state.browser == s.browser
  {
    var counted := s.keptAlive + AlarmSeconds;
    if counted < KeepAliveSeconds then AlarmStep(State(s.browser, counted), true)
    else if s.browser.Live? && !closeFails then AlarmStep(State(NoBrowser, counted), false)
    else AlarmStep(State(s.browser, counted), false)
  }

  /** `getWebsiteMarkdown` marks activity by resetting the counter. */
  function Touch(s: State): (r: State)
    ensures r.browser == s.browser && r.keptAlive == 0
  {
    s.(keptAlive := 0)
  }

  /** `n` consecutive alarms in which closing the browser succeeds. */
  function Alarms(s: State, n: nat): State
    decreases n
  {
    if n == 0 then s else Alarm(Alarms(s, n - 1), false).state
  }

  /** After `n >= 1` alarms the counter grew by ten per alarm, and the browser is gone exactly when the counter reached the limit. */
  lemma {:induction false} AlarmsOutcome(s: State, n: nat)
    requires n >= 1
    ensures Alarms(s, n).keptAlive == s.keptAlive + AlarmSeconds * n
    ensures Alarms(s, n).browser == if s.keptAlive + AlarmSeconds * n < KeepAliveSeconds then s.browser else NoBrowser
    decreases n
  {
    if n > 1 {
      AlarmsOutcome(s, n - 1);
    }
  }

  /** From a reset counter, the first five alarms keep the browser and the sixth clears it. */
  lemma SixthAlarmClears(s: State, n: nat)
    requires 1 <= n
    ensures Alarms(Touch(s), n).browser == if n < 6 then s.browser else NoBrowser
  {
    AlarmsOutcome(Touch(s), n);
  }

  /**
   * The alarm machinery: the session state and whether an alarm is scheduled. The only call of
   * `setAlarm` is the one inside `alarm` itself.
   */
  datatype Clock = Clock(state: State, pending: bool)

  /**
   * Idle time passes until the next alarm is due: a scheduled alarm fires (closing succeeds) and
   * schedules the next one or not; without a scheduled alarm nothing happens.
   */
  function Tick(c: Clock): (r: Clock)
    ensures !c.pending ==> r == c
    ensures c.pending ==> r.state == Alarm(c.state, false).state && (r.pending <==> r.state.keptAlive < KeepAliveSeconds)
  {
    if c.pending then
      var a := Alarm(c.state, false);
      Clock(a.state, a.rescheduled)
    else c
  }

  /** `n` stretches of idle time. */
  function Ticks(c: Clock, n: nat): Clock
    decreases n
  {
    if n == 0 then c else Tick(Ticks(c, n - 1))
  }

  /** A batch as written: the counter is reset and the alarm schedule is left as it was. */
  function BatchClock(c: Clock): (r: Clock)
    ensures r.state == Touch(c.state) && (r.pending <==> c.pending)
  {
    Clock(Touch(c.state), c.pending)
  }

  /** The intended batch: the counter is reset and an alarm is scheduled. */
  function BatchClockIntended(c: Clock): (r: Clock)
    ensures r.state == Touch(c.state) && r.pending
  {
    Clock(Touch(c.state), true)
  }

  /**
   * As written no alarm is ever scheduled: the object starts without one and a batch does not
   * schedule one, so however long it stays idle its browser is never closed.
   */
  lemma {:induction false} IdleBrowserNeverClosed(c: Clock, n: nat)
    requires !c.pending
    ensures Ticks(BatchClock(c), n) == BatchClock(c)
    ensures Ticks(BatchClock(c), n).state.browser == c.state.browser
    decreases n
  {
    if n > 0 {
      IdleBrowserNeverClosed(c, n - 1);
    }
  }

  /** From a reset counter with an alarm scheduled: five alarms reschedule, the sixth stops, and then nothing fires. */
  lemma {:induction false} TicksFromReset(s: State, n: nat)
    requires s.keptAlive == 0
    ensures Ticks(Clock(s, true), n) == Clock(Alarms(s, if n < 6 then n else 6), n < 6)
    decreases n
  {
    if n > 0 {
      TicksFromReset(s, n - 1);
      if n <= 6 {
        AlarmsOutcome(s, n);
      }
    }
  }

  /** With the intended schedule the browser outlives five idle alarms and is closed by the sixth, for good. */
  lemma IntendedIdleCloses(c: Clock, n: nat)
    ensures Ticks(BatchClockIntended(c), n).state.browser == if n < 6 then c.state.browser else NoBrowser
  {
    TicksFromReset(Touch(c.state), n);
    if n > 0 {
      SixthAlarmClears(c.state, if n < 6 then n else 6);
    }
  }

  /** While the counter stays below the limit every alarm schedules its successor. */
  lemma {:induction false} AlarmsKeepRescheduling(s: State, n: nat)
    requires s.keptAlive + AlarmSeconds * (n + 1) < KeepAliveSeconds
    ensures Alarm(Alarms(s, n), false).rescheduled
    ensures Alarms(s, n).browser == s.browser
    ensures Alarms(s, n).keptAlive == s.keptAlive + AlarmSeconds * n
    decreases n
  {
    if n > 0 {
      AlarmsKeepRescheduling(s, n - 1);
    }
  }
}
