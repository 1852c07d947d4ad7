/**
  The SessionTimeoutAlert component: a warning timer armed while the user is
  logged in, and once it fires a modal with a one-second countdown. React's
  effect order is spelled out: when a render changes an effect's
  dependencies, that effect's cleanup from the previous render runs (with the
  values that render saw), then its body with the new values; a state change
  made by an effect causes one more render. Time passes only through the
  browser firing a timer or ticking an interval, given as events.
 */
module TimeoutAlert {
  import opened Wrappers

  /** SESSION_TIMEOUT_WARNING_THRESHOLD, in seconds. */
  const WarningThreshold: int := 60
  const MillisecondsInSecond: int := 1000
  /** The shortest delay the warning timer is armed with, in milliseconds. */
  const MinimalDelay: int := 500

  function Max(a: int, b: int): int
  {
    if a < b then b else a
  }

  function Min(a: int, b: int): int
  {
    if a < b then a else b
  }

  /**
    The warning timer's delay in milliseconds: the session timeout less the
    60-second warning, but never below half a second.
   */
  function WarningDelay(sessionTimeout: int): (ms: int)
    ensures ms >= MinimalDelay
    ensures sessionTimeout > WarningThreshold ==>
      ms == (sessionTimeout - WarningThreshold) * MillisecondsInSecond
    ensures sessionTimeout <= WarningThreshold ==> ms == MinimalDelay
  {
    Max((sessionTimeout - WarningThreshold) * MillisecondsInSecond, MinimalDelay)
  }

  /** The value the countdown is reset to: the threshold, or the whole timeout if that is shorter. */
  function CountdownStart(sessionTimeout: int): (n: int)
    ensures n <= WarningThreshold && n <= sessionTimeout
    ensures n == WarningThreshold || n == sessionTimeout
  {
    Min(WarningThreshold, sessionTimeout)
  }

  /** What the interval's state updater returns, and whether it asked for the alert to be hidden. */
  datatype TickResult = TickResult(timeLeft: int, hide: bool)

  /** The interval callback's updater: one second less; hide once that is at or below zero. */
  function TickUpdate(prev: int): TickResult
  {
    var next := prev - 1;
    TickResult(next, next <= 0)
  }

  /** The number of ticks a countdown that starts at `start` runs before it hides the alert. */
  function TicksToHide(start: int): nat
    decreases if start > 0 then start else 0
  {
    var t := TickUpdate(start);
    if t.hide then 1 else 1 + TicksToHide(t.timeLeft)
  }

  /** A countdown that starts at a positive n hides the alert on exactly its n-th tick; any other start, on the first. */
  lemma {:induction false} HidesOnNthTick(n: int)
    ensures TicksToHide(n) == if n > 0 then n else 1
  {
    if n > 1 {
      HidesOnNthTick(n - 1);
    }
  }

  /**
    The browser's timers for the page: the armed single-shot timers (id to
    delay in milliseconds), the running intervals, and the id it hands out
    next. Ids are positive, so 0 stands for a ref that is still `undefined`.
   */
  datatype Timers = Timers(timeouts: map<nat, int>, intervals: set<nat>, nextId: nat) {
    /** setTimeout, under the id `nextId`. */
    function Arm(delay: int): Timers
    {
      Timers(timeouts[nextId := delay], intervals, nextId + 1)
    }

    /** clearTimeout, or the timer firing: a no-op for an id that is not armed. */
    function Disarm(id: nat): Timers
    {
      Timers(timeouts - {id}, intervals, nextId)
    }

    /** setInterval, under the id `nextId`. */
    function Start(): Timers
    {
      Timers(timeouts, intervals + {nextId}, nextId + 1)
    }

    /** clearInterval: a no-op for an id that is not running. */
    function Stop(id: nat): Timers
    {
      Timers(timeouts, intervals - {id}, nextId)
    }
  }

  /** The parent's callbacks the alert's buttons invoke. */
  datatype ParentCall = CheckAuthentication | Logout

  class SessionTimeoutAlert {
    // the props of the latest render
    var loggedIn: bool
    var sessionTimeout: int
    var extendSessionTrigger: int
    // component state
    var showAlert: bool
    var timeLeft: int
    // timeoutIdRef.current and intervalIdRef.current
    var timeoutIdRef: nat
    var intervalIdRef: nat
    // the browser: its timers, whether the mousedown listener is registered,
    // and the parent callbacks invoked so far, oldest first
    var timers: Timers
    var listening: bool
    var parentCalls: seq<ParentCall>

    ghost predicate Valid()
      reads this
    {
      && listening
      && 0 < timers.nextId
      && timeoutIdRef < timers.nextId && intervalIdRef < timers.nextId
      && 0 !in timers.timeouts && 0 !in timers.intervals
      // at most one warning timer is pending: the one the ref names
      && (forall id :: id in timers.timeouts ==> id == timeoutIdRef)
      // a countdown runs exactly while the alert is shown
      && timers.intervals == (if showAlert then {intervalIdRef} else {})
      && (!loggedIn ==> timers.timeouts == map[])
      && (showAlert ==> loggedIn && timers.timeouts == map[])
      && (showAlert ==> timeLeft <= CountdownStart(sessionTimeout))
      && (showAlert ==> 0 < timeLeft || timeLeft == CountdownStart(sessionTimeout))
    }

    /** What the component renders: the countdown while the alert is shown, nothing otherwise. */
    function Render(): (seconds: Option<int>)
      reads this
      ensures seconds.Some? <==> showAlert
      ensures showAlert ==> seconds == Some(timeLeft)
    {
      if showAlert then Some(timeLeft) else None
    }

    /**
      First render and its effects, in order: the mousedown listener is
      registered; if logged in, the warning timer is armed; the alert is
      hidden, so no countdown starts. The countdown value starts at 60.
     */
    constructor Mount(loggedIn: bool, sessionTimeout: int, extendSessionTrigger: int)
      ensures Valid()
      ensures this.loggedIn == loggedIn && this.sessionTimeout == sessionTimeout
      ensures this.extendSessionTrigger == extendSessionTrigger
      ensures !showAlert && timeLeft == WarningThreshold && parentCalls == []
      ensures timers.intervals == {}
      ensures loggedIn ==> timers.timeouts == map[timeoutIdRef := WarningDelay(sessionTimeout)]
      ensures !loggedIn ==> timers.timeouts == map[]
    {
      this.loggedIn := loggedIn;
      this.sessionTimeout := sessionTimeout;
      this.extendSessionTrigger := extendSessionTrigger;
      showAlert := false;
      timeLeft := WarningThreshold;
      timeoutIdRef, intervalIdRef := 0, 0;
      timers := Timers(map[], {}, 1);
      listening := true;
      parentCalls := [];
      new;
      if loggedIn {
        timeoutIdRef := timers.nextId;
        timers := timers.Arm(WarningDelay(sessionTimeout));
      }
    }

    /**
      A render with new props. When loggedIn, sessionTimeout or
      extendSessionTrigger changed, the pending warning timer is cancelled,
      the alert is hidden and, if logged in, exactly one new timer is armed;
      logged out, no timer remains. A changed sessionTimeout, or the alert
      being hidden, also stops the countdown and resets it, the reset using the
      timeout of the render that started it.
     */
    method Rerender(newLoggedIn: bool, newTimeout: int, newTrigger: int)
      requires Valid()
      modifies this
      ensures Valid()
      ensures loggedIn == newLoggedIn && sessionTimeout == newTimeout && extendSessionTrigger == newTrigger
      ensures parentCalls == old(parentCalls)
      ensures var changed := newLoggedIn != old(loggedIn) || newTimeout != old(sessionTimeout)
                             || newTrigger != old(extendSessionTrigger);
        && (!changed ==>
              && showAlert == old(showAlert) && timeLeft == old(timeLeft) && timers == old(timers)
              && timeoutIdRef == old(timeoutIdRef) && intervalIdRef == old(intervalIdRef))
        && (changed ==> !showAlert && timers.intervals == {})
        && (changed && newLoggedIn ==>
              timeoutIdRef == old(timers.nextId) && timers.timeouts == map[timeoutIdRef := WarningDelay(newTimeout)])
        && (changed && !newLoggedIn ==> timers.timeouts == map[])
        && (changed && old(showAlert) ==> timeLeft == CountdownStart(newTimeout))
        && (changed && !old(showAlert) ==>
              timeLeft == if newTimeout != old(sessionTimeout) then CountdownStart(old(sessionTimeout)) else old(timeLeft))
    {
      if newLoggedIn == loggedIn && newTimeout == sessionTimeout && newTrigger == extendSessionTrigger {
        // no dependency changed: no effect runs
        return;
      }
      var oldShow, oldTimeout := showAlert, sessionTimeout;
      loggedIn, sessionTimeout, extendSessionTrigger := newLoggedIn, newTimeout, newTrigger;
      // cleanups of the previous render's effects whose dependencies changed,
      // seeing that render's values
      timers := timers.Disarm(timeoutIdRef);
      assert timers.timeouts == map[];
      if newTimeout != oldTimeout {
        StopCountdown(oldTimeout);
        assert timers.intervals == {};
      }
      // their bodies, seeing this render's values
      if loggedIn {
        if timeoutIdRef != 0 {
          timers := timers.Disarm(timeoutIdRef);
        }
        showAlert := false;
        ArmWarning();
        assert timers.timeouts == map[timeoutIdRef := WarningDelay(sessionTimeout)];
      } else {
        showAlert := false;
      }
      if newTimeout != oldTimeout && oldShow {
        StartCountdown();
      }
      // hiding the alert renders once more: the countdown effect runs again
      if showAlert != oldShow {
        StopCountdown(sessionTimeout);
      }
      assert timers.intervals == {};
    }

    /** The warning-timer effect's last step: arm a timer for WarningDelay(sessionTimeout) and keep its id. */
    method ArmWarning()
      modifies this`timers, this`timeoutIdRef
      ensures timeoutIdRef == old(timers.nextId)
      ensures timers == old(timers).Arm(WarningDelay(sessionTimeout))
    {
      timeoutIdRef := timers.nextId;
      timers := timers.Arm(WarningDelay(sessionTimeout));
    }

    /** The countdown effect's body while the alert is shown: start a one-second interval and keep its id. */
    method StartCountdown()
      modifies this`timers, this`intervalIdRef
      ensures intervalIdRef == old(timers.nextId)
      ensures timers == old(timers).Start()
    {
      intervalIdRef := timers.nextId;
      timers := timers.Start();
    }

    /** The countdown effect's cleanup: stop the interval and reset the countdown for `timeout`. */
    method StopCountdown(timeout: int)
      modifies this`timers, this`timeLeft
      ensures timers == old(timers).Stop(intervalIdRef)
      ensures timeLeft == CountdownStart(timeout)
    {
      timers := timers.Stop(intervalIdRef);
      timeLeft := CountdownStart(timeout);
    }

    /**
      The browser fires single-shot timer `id`. If it is the pending warning
      timer, the alert appears and its countdown starts at
      CountdownStart(sessionTimeout); any other id does nothing.
     */
    method FireTimeout(id: nat)
      requires Valid()
      modifies this
      ensures Valid()
      ensures loggedIn == old(loggedIn) && sessionTimeout == old(sessionTimeout)
      ensures extendSessionTrigger == old(extendSessionTrigger) && parentCalls == old(parentCalls)
      ensures id !in old(timers.timeouts) ==>
        && showAlert == old(showAlert) && timeLeft == old(timeLeft) && timers == old(timers)
        && timeoutIdRef == old(timeoutIdRef) && intervalIdRef == old(intervalIdRef)
      ensures id in old(timers.timeouts) ==>
        && showAlert && timeLeft == CountdownStart(sessionTimeout)
        && timers.timeouts == map[]
        && intervalIdRef == old(timers.nextId) && timers.intervals == {intervalIdRef}
    {
      if id in timers.timeouts {
        timers := timers.Disarm(id);
        var oldShow := showAlert;
        showAlert := true;
        if showAlert != oldShow {
          timers := timers.Stop(intervalIdRef);
          timeLeft := CountdownStart(sessionTimeout);
          intervalIdRef := timers.nextId;
          timers := timers.Start();
        }
      }
    }

    /**
      The browser ticks interval `id`. For the running countdown, one second
      comes off; at or below zero the alert hides, the countdown stops and is
      reset. Nothing else happens: no logout, no parent call.
     */
    method Tick(id: nat)
      requires Valid()
      modifies this
      ensures Valid()
      ensures loggedIn == old(loggedIn) && sessionTimeout == old(sessionTimeout)
      ensures extendSessionTrigger == old(extendSessionTrigger) && parentCalls == old(parentCalls)
      ensures timers.timeouts == old(timers.timeouts) && timeoutIdRef == old(timeoutIdRef)
      ensures id !in old(timers.intervals) ==>
        showAlert == old(showAlert) && timeLeft == old(timeLeft) && timers == old(timers)
      ensures id in old(timers.intervals) ==>
        var t := TickUpdate(old(timeLeft));
        && old(showAlert)
        && showAlert == !t.hide
        && (!t.hide ==> timeLeft == t.timeLeft && timers == old(timers))
        && (t.hide ==> timeLeft == CountdownStart(sessionTimeout) && timers.intervals == {})
    {
      if id in timers.intervals {
        var t := TickUpdate(timeLeft);
        timeLeft := t.timeLeft;
        if t.hide {
          showAlert := false;
          timers := timers.Stop(intervalIdRef);
          timeLeft := CountdownStart(sessionTimeout);
        }
      }
    }

    /**
      A mousedown anywhere on the page; `onAlert` says whether it landed on
      the alert. Outside a shown alert it hides it; the session props and the
      pending warning timer are not touched.
     */
    method MouseDown(onAlert: bool)
      requires Valid()
      modifies this
      ensures Valid()
      ensures loggedIn == old(loggedIn) && sessionTimeout == old(sessionTimeout)
      ensures extendSessionTrigger == old(extendSessionTrigger) && parentCalls == old(parentCalls)
      ensures timers.timeouts == old(timers.timeouts) && timeoutIdRef == old(timeoutIdRef)
      ensures showAlert == (old(showAlert) && onAlert)
      ensures old(showAlert) && !onAlert ==> timers.intervals == {} && timeLeft == CountdownStart(sessionTimeout)
      ensures !(old(showAlert) && !onAlert) ==> timeLeft == old(timeLeft) && timers == old(timers)
    {
      if showAlert && !onAlert {
        showAlert := false;
        timers := timers.Stop(intervalIdRef);
        timeLeft := CountdownStart(sessionTimeout);
      }
    }

    /** The "Extend Session" button: calls the parent's checkAuthentication and nothing else. */
    method ExtendSession()
      requires Valid()
      modifies this`parentCalls
      ensures Valid()
      ensures parentCalls == old(parentCalls) + [CheckAuthentication]
    {
      parentCalls := parentCalls + [CheckAuthentication];
    }

    /** The "Log Out" button: calls the parent's logout and nothing else. */
    method HandleLogout()
      requires Valid()
      modifies this`parentCalls
      ensures Valid()
      ensures parentCalls == old(parentCalls) + [Logout]
    {
      parentCalls := parentCalls + [Logout];
    }

    /** Unmount: the listener goes and every timer and interval the component armed is cleared. */
    method Unmount()
      requires Valid()
      modifies this`listening, this`timers
      ensures !listening && timers.timeouts == map[] && timers.intervals == {}
    {
      listening := false;
      timers := timers.Disarm(timeoutIdRef).Stop(intervalIdRef);
    }
  }

  /** While mounted, at most one warning timer is pending and at most one countdown runs. */
  lemma AtMostOneTimer(alert: SessionTimeoutAlert)
    requires alert.Valid()
    ensures |alert.timers.timeouts.Keys| <= 1 && |alert.timers.intervals| <= 1
  {
    var keys := alert.timers.timeouts.Keys;
    if keys != {} {
      assert keys == {alert.timeoutIdRef};
    }
  }
}
