/** The copter's user hooks: the automatic LOITER / ALT_HOLD switch driven by
    the visual odometry confidence, and the camera pulse of the photo trigger.
    Both are small timed state machines over millisecond uint32 clocks. */
module UserCode {
  import opened Common

  /** The flight mode the copter is in; every mode other than LOITER and
      ALT_HOLD is `Other`. */
  datatype FlightMode = Loiter | AltHold | Other

  /** `mn_auto_mode_switch_engaged` and `mn_auto_mode_switch_time`. */
  datatype Watchdog = Watchdog(engaged: bool, time: uint32)

  /** What one tick of the watchdog reads: the `mn_auto_mode_switch` flag,
      the AUTO_MODE_SWITCH_ENABLED parameter, `confidence_ok()`, the current
      mode, `millis()`, and the two dwell parameters. */
  datatype Inputs = Inputs(switchFlag: bool, enabled: bool, confidenceOk: bool, mode: FlightMode,
                           now: uint32, toAltHold: uint32, toLoiter: uint32)

  /** One mode's branch: while `counting` holds the timer runs from the first
      such tick, and once the dwell has passed the target mode is requested
      and the timer disengaged; otherwise the timer is disengaged. */
  function Dwell(w: Watchdog, counting: bool, now: uint32, dwell: uint32, target: FlightMode)
    : (r: (Watchdog, Option<FlightMode>))
  {
    if !counting then (w.(engaged := false), None)
    else
      var start := if w.engaged then w.time else now;
      if Elapsed(start, now) >= dwell then (Watchdog(false, start), Some(target))
      else (Watchdog(true, start), None)
  }

  /** `auto_flight_mode_check_loop`: the new timer and the mode requested,
      if any. LOITER counts while confidence is lost, ALT_HOLD while it is
      good. */
  function WatchdogTick(w: Watchdog, i: Inputs): (r: (Watchdog, Option<FlightMode>))
    ensures r.0.time == w.time || r.0.time == i.now
    ensures r.0.engaged ==>
              && i.switchFlag && i.enabled && i.mode != Other && r.1 == None
              && r.0.time == (if w.engaged then w.time else i.now)
    ensures r.1 != None ==> !r.0.engaged && r.1 != Some(Other) && r.1 != Some(i.mode)
  {
    if !i.switchFlag || !i.enabled then (w.(engaged := false), None)
    else match i.mode
      case Loiter => Dwell(w, !i.confidenceOk, i.now, i.toAltHold, AltHold)
      case AltHold => Dwell(w, i.confidenceOk, i.now, i.toLoiter, Loiter)
      case Other => (w.(engaged := false), None)
  }

  /** A switched-off watchdog, a confident LOITER, an unconfident ALT_HOLD and
      any other mode all disengage the timer, keep its time and request
      nothing. */
  lemma WatchdogIdle(w: Watchdog, i: Inputs)
    requires || !i.switchFlag || !i.enabled || i.mode == Other
             || (i.mode == Loiter && i.confidenceOk) || (i.mode == AltHold && !i.confidenceOk)
    ensures WatchdogTick(w, i) == (Watchdog(false, w.time), None)
  {
  }

  /** The only requests are LOITER to ALT_HOLD without confidence and
      ALT_HOLD to LOITER with it, each exactly when its dwell has elapsed
      since the timer started (this tick, if it was not engaged). */
  lemma WatchdogRequests(w: Watchdog, i: Inputs)
    ensures var start := if w.engaged then w.time else i.now;
      && (WatchdogTick(w, i).1 == Some(AltHold) <==>
            i.switchFlag && i.enabled && i.mode == Loiter && !i.confidenceOk
            && Elapsed(start, i.now) >= i.toAltHold)
      && (WatchdogTick(w, i).1 == Some(Loiter) <==>
            i.switchFlag && i.enabled && i.mode == AltHold && i.confidenceOk
            && Elapsed(start, i.now) >= i.toLoiter)
      && WatchdogTick(w, i).1 != Some(Other)
      && (WatchdogTick(w, i).1 != None ==> !WatchdogTick(w, i).0.engaged)
  {
  }

  /** The ALT_HOLD branch is the LOITER branch with the confidence reversed,
      its own dwell and LOITER as target. */
  lemma AltHoldMirrorsLoiter(w: Watchdog, i: Inputs)
    requires i.mode == AltHold
    ensures var mirrored := WatchdogTick(w, i.(mode := Loiter, confidenceOk := !i.confidenceOk,
                                                toAltHold := i.toLoiter));
      && WatchdogTick(w, i).0 == mirrored.0
      && (WatchdogTick(w, i).1 == Some(Loiter) <==> mirrored.1 == Some(AltHold))
      && (WatchdogTick(w, i).1 == None <==> mirrored.1 == None)
  {
  }

  /** The timer after a run of ticks, and the request of each tick. */
  function RunWatchdog(w: Watchdog, ticks: seq<Inputs>): (r: (Watchdog, seq<Option<FlightMode>>))
    ensures |r.1| == |ticks|
    decreases |ticks|
  {
    if ticks == [] then (w, [])
    else
      var prev := RunWatchdog(w, ticks[..|ticks| - 1]);
      var step := WatchdogTick(prev.0, ticks[|ticks| - 1]);
      (step.0, prev.1 + [step.1])
  }

  /** A tick of LOITER without confidence, with the switch on. */
  predicate Degraded(i: Inputs, dwell: uint32) {
    i.switchFlag && i.enabled && i.mode == Loiter && !i.confidenceOk && i.toAltHold == dwell
  }

  /** Debounce: once confidence is lost in LOITER at `t0` (the first tick, or
      a timer already started then), ticks before `t0 + dwell` request
      nothing and keep the timer engaged at `t0`. */
  lemma {:induction false} NoSwitchBeforeDwell(w: Watchdog, ticks: seq<Inputs>, t0: uint32, dwell: uint32)
    requires w.engaged ==> w.time == t0
    requires !w.engaged && ticks != [] ==> ticks[0].now == t0
    requires forall k :: 0 <= k < |ticks| ==> Degraded(ticks[k], dwell)
    requires forall k :: 0 <= k < |ticks| ==> t0 <= ticks[k].now < t0 + dwell
    ensures ticks != [] ==> RunWatchdog(w, ticks).0 == Watchdog(true, t0)
    ensures forall k :: 0 <= k < |ticks| ==> RunWatchdog(w, ticks).1[k] == None
    decreases |ticks|
  {
    if ticks != [] {
      var prev := ticks[..|ticks| - 1];
      NoSwitchBeforeDwell(w, prev, t0, dwell);
      var p := RunWatchdog(w, prev).0;
      assert p.engaged ==> p.time == t0;
      assert !p.engaged ==> prev == [] && ticks[|ticks| - 1] == ticks[0];
    }
  }

  /** Firing disengages the timer, so the next unconfident LOITER tick starts
      a fresh dwell at its own time: it fires again only for a zero dwell. */
  lemma SwitchRestartsTimer(w: Watchdog, fire: Inputs, next: Inputs)
    requires WatchdogTick(w, fire).1 == Some(AltHold)
    requires Degraded(next, next.toAltHold)
    ensures WatchdogTick(WatchdogTick(w, fire).0, next) ==
              if next.toAltHold == 0 then (Watchdog(false, next.now), Some(AltHold))
              else (Watchdog(true, next.now), None)
  {
  }

  /** Confidence coming back in LOITER, even for one tick, throws the
      running dwell away: the next loss starts counting from scratch. */
  lemma ConfidenceResetsDwell(w: Watchdog, good: Inputs, next: Inputs)
    requires good.switchFlag && good.enabled && good.mode == Loiter && good.confidenceOk
    requires Degraded(next, next.toAltHold)
    ensures WatchdogTick(WatchdogTick(w, good).0, next) ==
              if next.toAltHold == 0 then (Watchdog(false, next.now), Some(AltHold))
              else (Watchdog(true, next.now), None)
  {
  }

  // ---------------------------------------------------------------------------
  // The photo trigger

  /** Camera-mode PWM that takes a photo. */
  const PHOTO_PWM: uint16 := 1080
  /** Camera-mode PWM that stops taking photos. */
  const RELEASE_PWM: uint16 := 1520
  /** How long the photo PWM is held, in ms. */
  const PULSE_MS: nat := 350

  /** `mn_photo_triggered`, `mn_photo_triggered_time`, and the last PWM
      written to the camera-mode channel (None before any). */
  datatype Photo = Photo(triggered: bool, time: uint32, pwm: Option<uint16>)

  /** `trigger_multinnov_photo` at `now`. */
  function TriggerPhoto(p: Photo, now: uint32): (r: Photo)
    ensures r.triggered
    ensures p.triggered ==> r == p
    ensures !p.triggered ==> r.time == now && r.pwm == Some(PHOTO_PWM)
  {
    if !p.triggered then Photo(true, now, Some(PHOTO_PWM)) else p
  }

  /** The pulse part of `userhook_MediumLoop` at `now`. */
  function ReleasePhoto(p: Photo, now: uint32): (r: Photo)
    ensures r.time == p.time
    ensures r.triggered ==> r == p
    ensures r != p ==>
              && p.triggered && !r.triggered && r.pwm == Some(RELEASE_PWM)
              && Elapsed(p.time, now) >= PULSE_MS
  {
    if !p.triggered then p
    else if Elapsed(p.time, now) >= PULSE_MS then p.(triggered := false, pwm := Some(RELEASE_PWM))
    else p
  }

  /** A trigger while idle starts a pulse at `now` with the photo PWM; a
      trigger during a pulse changes nothing, so it cannot lengthen it. */
  lemma TriggerStartsPulseOnce(p: Photo, now: uint32, later: uint32)
    ensures !p.triggered ==> TriggerPhoto(p, now) == Photo(true, now, Some(PHOTO_PWM))
    ensures p.triggered ==> TriggerPhoto(p, now) == p
    ensures TriggerPhoto(TriggerPhoto(p, now), later) == TriggerPhoto(p, now)
  {
  }

  /** The medium loop ends a pulse, writing the release PWM, exactly when
      350 ms or more have passed (uint32 wrap included); in every other case
      it changes nothing. */
  lemma ReleaseIffPulseOver(p: Photo, now: uint32)
    ensures ReleasePhoto(p, now) != p <==> p.triggered && Elapsed(p.time, now) >= PULSE_MS
    ensures ReleasePhoto(p, now) != p ==>
              ReleasePhoto(p, now) == Photo(false, p.time, Some(RELEASE_PWM))
  {
  }

  /** Medium-loop passes at the given times. */
  function RunMediumLoop(p: Photo, times: seq<uint32>): (r: Photo)
    decreases |times|
  {
    if times == [] then p else ReleasePhoto(RunMediumLoop(p, times[..|times| - 1]), times[|times| - 1])
  }

  /** A pulse triggered at `t0` is held through every medium-loop pass before
      `t0 + 350`, and the first pass at or after it releases it. */
  lemma {:induction false} PulseHeld(t0: uint32, pwmBefore: Option<uint16>, times: seq<uint32>, last: uint32)
    requires forall k :: 0 <= k < |times| ==> t0 <= times[k] < t0 + PULSE_MS
    requires t0 + PULSE_MS <= last < 0x1_0000_0000
    ensures var p := TriggerPhoto(Photo(false, 0, pwmBefore), t0);
      && RunMediumLoop(p, times) == p
      && ReleasePhoto(RunMediumLoop(p, times), last) == Photo(false, t0, Some(RELEASE_PWM))
    decreases |times|
  {
    var p := TriggerPhoto(Photo(false, 0, pwmBefore), t0);
    if times != [] {
      PulseHeld(t0, pwmBefore, times[..|times| - 1], last);
      assert Elapsed(t0, times[|times| - 1]) < PULSE_MS;
    }
  }

  // ---------------------------------------------------------------------------
  // The copter's fields

  class Copter {
    var autoModeSwitchEngaged: bool
    var autoModeSwitchTime: uint32
    var photoTriggered: bool
    var photoTime: uint32
    /** The last PWM output on the camera-mode servo channel. */
    var cameraPwm: Option<uint16>

    function Watch(): Watchdog
      reads this
    {
      Watchdog(autoModeSwitchEngaged, autoModeSwitchTime)
    }

    function PhotoState(): Photo
      reads this
    {
      Photo(photoTriggered, photoTime, cameraPwm)
    }

    /** Fields in static storage start at zero. */
    constructor ()
      ensures Watch() == Watchdog(false, 0) && PhotoState() == Photo(false, 0, None)
    {
      autoModeSwitchEngaged, autoModeSwitchTime := false, 0;
      photoTriggered, photoTime, cameraPwm := false, 0, None;
    }

    /** `auto_flight_mode_check_loop`; `set_mode` is the returned request. */
    method AutoFlightModeCheck(i: Inputs) returns (request: Option<FlightMode>)
      modifies this`autoModeSwitchEngaged, this`autoModeSwitchTime
      ensures (Watch(), request) == WatchdogTick(old(Watch()), i)
    {
      request := None;
      if !i.switchFlag || !i.enabled {
        autoModeSwitchEngaged := false;
        return;
      }
      var inLoiter := i.mode == Loiter;
      var inAltHold := i.mode == AltHold;
      if inLoiter {
        if i.confidenceOk {
          autoModeSwitchEngaged := false;
          return;
        }
        if !autoModeSwitchEngaged {
          autoModeSwitchEngaged := true;
          autoModeSwitchTime := i.now;
        }
        if Elapsed(autoModeSwitchTime, i.now) >= i.toAltHold {
          request := Some(AltHold);
          autoModeSwitchEngaged := false;
        }
      } else if inAltHold {
        if !i.confidenceOk {
          autoModeSwitchEngaged := false;
          return;
        }
        if !autoModeSwitchEngaged {
          autoModeSwitchEngaged := true;
          autoModeSwitchTime := i.now;
        }
        if Elapsed(autoModeSwitchTime, i.now) >= i.toLoiter {
          request := Some(Loiter);
          autoModeSwitchEngaged := false;
        }
      } else {
        autoModeSwitchEngaged := false;
      }
    }

    /** `trigger_multinnov_photo` at `now` (`millis()`). */
    method TriggerMultinnovPhoto(now: uint32)
      modifies this`photoTriggered, this`photoTime, this`cameraPwm
      ensures PhotoState() == TriggerPhoto(old(PhotoState()), now)
    {
      if !photoTriggered {
        cameraPwm := Some(PHOTO_PWM);
        photoTriggered := true;
        photoTime := now;
      }
    }

    /** `userhook_MediumLoop` at `now` (`millis()`). */
    method UserhookMediumLoop(now: uint32)
      modifies this`photoTriggered, this`cameraPwm
      ensures PhotoState() == ReleasePhoto(old(PhotoState()), now)
    {
      if !photoTriggered {
        return;
      }
      if Elapsed(photoTime, now) >= PULSE_MS {
        cameraPwm := Some(RELEASE_PWM);
        photoTriggered := false;
      }
    }
  }
}
