/**
 * The calibration state machine and the scheduling decisions of main.py.
 *
 * `pin_press` (long press), `pin_press_short` (short press), the timeout
 * check of `user_interface` and one iteration of `display_driver` are given
 * first as transition functions over the globals they touch, then as the
 * methods of `TrimIndicator`, whose fields are those globals and which is
 * proved against the functions.
 *
 * `user_status`: 0 normal, 1 first long press seen, 2/3/4 recording trim
 * full up / neutral / full down, 5/6/7 recording rudder right / neutral / left.
 */
module Calibration {
  import opened Wrappers
  import opened Settings
  import opened PositionMapper

  /** Longest gap between the two long presses that enter setup. */
  const SET_TIME_MS := 10000
  /** Forced redraws after boot. */
  const DISPLAY_WAKEUP := 50
  /** The rudder axis is calibrated after the trim axis. */
  const RUDDER_TRIM := true

  /** The globals the button callbacks and the timeout change: `user_status`,
      `start`, `display_wakeup`, `trim_settings`, `new_trim` (undefined until
      the first short press in status 2) and the sequence of dictionaries
      handed to `config.save`. */
  datatype Calib = Calib(
    status: int, start: int, wakeup: int,
    trim: TrimSettings, pending: Option<TrimSettings>, saved: seq<TrimSettings>)

  /** The latest sensor values (`trim_value`, `rudder_value`, `main_power`). */
  datatype Sample = Sample(trimValue: int, rudderValue: int, mainPower: real)

  /** The locals `old_value` and `old_rudder_value` of `display_driver`. */
  datatype Shown = Shown(oldValue: int, oldRudderValue: int)

  /** The arguments of one `d.indicator(...)` call of `display_driver`. */
  datatype IndicatorCall = IndicatorCall(trimPercent: int, rudderPercent: int, power: real, mode: int)

  /** What one iteration of `display_driver` leaves behind. */
  datatype DriverOutcome = DriverOutcome(call: Option<IndicatorCall>, shown: Shown, wakeup: int)

  /** Statuses stay in 0..7, and `new_trim` exists whenever a status reads it. */
  predicate Valid(c: Calib) {
    0 <= c.status <= 7 && (3 <= c.status ==> c.pending.Some?)
  }

  /** `pin_press`: the long-press callback. */
  function LongPress(c: Calib, now: int): (c': Calib)
    ensures Valid(c) ==> Valid(c')
    ensures c'.wakeup == 1
    ensures c'.trim == c.trim && c'.pending == c.pending && c'.saved == c.saved
  {
    if c.status == 0 then c.(wakeup := 1, start := now, status := 1)
    else if c.status == 1 then c.(wakeup := 1, status := 2)
    else c.(wakeup := 1)
  }

  /** Replace `trim_settings` by `new_trim` and save it, when `ok`. */
  function Commit(c: Calib, ok: bool): Calib
    requires c.pending.Some?
  {
    if ok then c.(trim := c.pending.value, saved := c.saved + [c.pending.value]) else c
  }

  /** `pin_press_short`: the short-press callback, reading the live trim and
      rudder values. */
  function ShortPress(c: Calib, trimValue: int, rudderValue: int): (c': Calib)
    requires Valid(c)
    ensures Valid(c')
    ensures c'.wakeup == 1 && c'.start == c.start
  {
    if c.status == 2 then
      c.(wakeup := 1, pending := Some(c.trim.(fullUp := trimValue)), status := 3)
    else if c.status == 3 then
      c.(wakeup := 1, pending := Some(c.pending.value.(neutral := trimValue)), status := 4)
    else if c.status == 4 then
      var p := c.pending.value.(fullDown := trimValue);
      Commit(c.(wakeup := 1, pending := Some(p)), TrimOrdered(p)).(status := if RUDDER_TRIM then 5 else 0)
    else if c.status == 5 then
      c.(wakeup := 1, pending := Some(c.pending.value.(rudderRight := rudderValue)), status := 6)
    else if c.status == 6 then
      c.(wakeup := 1, pending := Some(c.pending.value.(rudderNeutral := rudderValue)), status := 7)
    else if c.status == 7 then
      var p := c.pending.value.(rudderLeft := rudderValue);
      Commit(c.(wakeup := 1, pending := Some(p)), RudderOrdered(p)).(status := 0)
    else
      c.(wakeup := 1)
  }

  /** One pass of the `user_interface` loop at time `now`: a first long press
      older than `SET_TIME_MS` falls back to normal. */
  function UserInterfaceTick(c: Calib, now: int): (c': Calib)
    ensures Valid(c) ==> Valid(c')
    ensures c'.status != c.status ==> c.status == 1 && c'.status == 0 && now - c.start > SET_TIME_MS
    ensures c' == c.(status := c'.status)
  {
    if c.status == 1 && now - c.start > SET_TIME_MS then c.(status := 0) else c
  }

  /** The fixed needle values drawn while a setup status is active. */
  function SetupCall(status: int, power: real): Option<IndicatorCall> {
    if status == 2 then Some(IndicatorCall(100, 0, power, 2))
    else if status == 3 then Some(IndicatorCall(0, 0, power, 3))
    else if status == 4 then Some(IndicatorCall(-100, 0, power, 4))
    else if status == 5 then Some(IndicatorCall(0, 100, power, 5))
    else if status == 6 then Some(IndicatorCall(0, 0, power, 6))
    else if status == 7 then Some(IndicatorCall(0, -100, power, 7))
    else None
  }

  /** One iteration of the `display_driver` loop up to the busy wait. */
  function DisplayDriverStep(c: Calib, s: Sample, shown: Shown): (r: Result<DriverOutcome, Fault>)
    ensures c.status != 0 && c.status != 1 ==>
      r == Ok(DriverOutcome(SetupCall(c.status, s.mainPower), shown, c.wakeup))
    ensures r.Err? ==> !(TrimOrdered(c.trim) && RudderOrdered(c.trim))
    ensures r.Ok? && (c.status == 0 || c.status == 1) ==>
      match r.value.call
      case Some(call) =>
        && (call.trimPercent != shown.oldValue || call.rudderPercent != shown.oldRudderValue || c.wakeup > 0)
        && r.value.shown == Shown(call.trimPercent, call.rudderPercent)
        && r.value.wakeup == c.wakeup - 1
        && call.mode == c.status && call.power == s.mainPower
        && CalcDisplayPercent(c.trim, s.trimValue, s.trimValue) == Ok(call.trimPercent)
        && CalcRudderPercent(c.trim, s.trimValue, s.rudderValue) == Ok(call.rudderPercent)
        && -100 <= call.trimPercent <= 100 && -100 <= call.rudderPercent <= 100
      case None =>
        && r.value.shown == shown && r.value.wakeup == c.wakeup && c.wakeup <= 0
        && CalcDisplayPercent(c.trim, s.trimValue, s.trimValue) == Ok(shown.oldValue)
        && CalcRudderPercent(c.trim, s.trimValue, s.rudderValue) == Ok(shown.oldRudderValue)
  {
    if c.status == 0 || c.status == 1 then
      var dp := CalcDisplayPercent(c.trim, s.trimValue, s.trimValue);
      var rp := CalcRudderPercent(c.trim, s.trimValue, s.rudderValue);
      if dp.Err? then Err(dp.error)
      else if rp.Err? then Err(rp.error)
      else if dp.value != shown.oldValue || rp.value != shown.oldRudderValue || c.wakeup > 0 then
        Ok(DriverOutcome(Some(IndicatorCall(dp.value, rp.value, s.mainPower, c.status)),
                         Shown(dp.value, rp.value), c.wakeup - 1))
      else
        Ok(DriverOutcome(None, shown, c.wakeup))
    else
      Ok(DriverOutcome(SetupCall(c.status, s.mainPower), shown, c.wakeup))
  }

  /** The six short presses of a whole calibration, started in status 2, with the
      live values at each press. */
  function Calibrate(c: Calib, t1: int, t2: int, t3: int, r1: int, r2: int, r3: int): Calib
    requires Valid(c)
  {
    var c1 := ShortPress(c, t1, r1);
    var c2 := ShortPress(c1, t2, r1);
    var c3 := ShortPress(c2, t3, r1);
    var c4 := ShortPress(c3, t3, r1);
    var c5 := ShortPress(c4, t3, r2);
    ShortPress(c5, t3, r3)
  }

  // ---------------------------------------------------------------------------
  // Properties of the transition functions

  /** The long-press table: 0 -> 1 (recording the time), 1 -> 2, otherwise unchanged. */
  lemma LongPressTable(c: Calib, now: int)
    ensures c.status == 0 ==> LongPress(c, now) == c.(wakeup := 1, status := 1, start := now)
    ensures c.status == 1 ==> LongPress(c, now) == c.(wakeup := 1, status := 2)
    ensures c.status != 0 && c.status != 1 ==> LongPress(c, now) == c.(wakeup := 1)
  {
  }

  /** The short-press table of statuses, and which live value goes where. */
  lemma ShortPressTable(c: Calib, t: int, r: int)
    requires Valid(c)
    ensures var c' := ShortPress(c, t, r);
      && (c.status <= 1 ==> c' == c.(wakeup := 1))
      && (c.status == 2 ==> c'.status == 3 && c'.pending == Some(c.trim.(fullUp := t)))
      && (c.status == 3 ==> c'.status == 4 && c'.pending == Some(c.pending.value.(neutral := t)))
      && (c.status == 4 ==> c'.status == 5 && c'.pending == Some(c.pending.value.(fullDown := t)))
      && (c.status == 5 ==> c'.status == 6 && c'.pending == Some(c.pending.value.(rudderRight := r)))
      && (c.status == 6 ==> c'.status == 7 && c'.pending == Some(c.pending.value.(rudderNeutral := r)))
      && (c.status == 7 ==> c'.status == 0 && c'.pending == Some(c.pending.value.(rudderLeft := r)))
  {
  }

  /** `trim_settings` changes, and is saved, only at the end of an axis and
      only when that axis passes its sanity check; then it becomes `new_trim`. */
  lemma CommitOnlyIfOrdered(c: Calib, t: int, r: int)
    requires Valid(c)
    ensures var c' := ShortPress(c, t, r);
      && (c'.trim != c.trim || c'.saved != c.saved ==>
            (c.status == 4 && TrimOrdered(c'.pending.value)) ||
            (c.status == 7 && RudderOrdered(c'.pending.value)))
      && ((c.status == 4 && TrimOrdered(c'.pending.value)) ||
          (c.status == 7 && RudderOrdered(c'.pending.value)) ==>
            c'.trim == c'.pending.value && c'.saved == c.saved + [c'.pending.value])
      && (c.status != 4 && c.status != 7 ==> c'.trim == c.trim && c'.saved == c.saved)
  {
  }

  /** The outcome of a whole calibration run: the trim part is committed at
      status 4 if it is ordered; at status 7 all six pending endpoints are
      committed if the rudder part is ordered, whatever the trim check said. */
  lemma {:induction false} CalibrationOutcome(c: Calib, t1: int, t2: int, t3: int, r1: int, r2: int, r3: int)
    requires Valid(c) && c.status == 2
    ensures var f := Calibrate(c, t1, t2, t3, r1, r2, r3);
      var trimPart := c.trim.(fullUp := t1, neutral := t2, fullDown := t3);
      var all := trimPart.(rudderRight := r1, rudderNeutral := r2, rudderLeft := r3);
      && Valid(f) && f.status == 0 && f.pending == Some(all)
      && f.trim == (if RudderOrdered(all) then all
                    else if TrimOrdered(trimPart) then trimPart
                    else c.trim)
      && f.saved == c.saved + (if TrimOrdered(trimPart) then [trimPart] else [])
                            + (if RudderOrdered(all) then [all] else [])
  {
    var trimPart := c.trim.(fullUp := t1, neutral := t2, fullDown := t3);
    var all := trimPart.(rudderRight := r1, rudderNeutral := r2, rudderLeft := r3);
    var c1 := ShortPress(c, t1, r1);
    var c2 := ShortPress(c1, t2, r1);
    var c3 := ShortPress(c2, t3, r1);
    assert c3.status == 5 && c3.pending == Some(trimPart);
    assert c3.trim == (if TrimOrdered(trimPart) then trimPart else c.trim);
    assert c3.saved == c.saved + (if TrimOrdered(trimPart) then [trimPart] else []);
    var c4 := ShortPress(c3, t3, r1);
    var c5 := ShortPress(c4, t3, r2);
    var c6 := ShortPress(c5, t3, r3);
    assert c5.status == 7 && c5.trim == c3.trim && c5.saved == c3.saved;
    assert c6.pending == Some(all);
  }

  /** A calibration whose endpoints are all equal leaves `trim_settings` and the
      saved configuration as they were. */
  lemma FailedCalibrationKeepsSettings(c: Calib, t: int, r: int)
    requires Valid(c) && c.status == 2
    ensures var f := Calibrate(c, t, t, t, r, r, r);
      f.trim == c.trim && f.saved == c.saved && f.status == 0
  {
    CalibrationOutcome(c, t, t, t, r, r, r);
  }

  /** Trim endpoints rejected at status 4 are still committed by a rudder
      calibration that passes: the resulting settings fail the trim check. */
  lemma RejectedTrimCommittedByRudder(c: Calib, t1: int, t2: int, t3: int, r1: int, r2: int, r3: int)
    requires Valid(c) && c.status == 2
    requires !AxisOrdered(t2, t1, t3) && AxisOrdered(r2, r3, r1)
    ensures var f := Calibrate(c, t1, t2, t3, r1, r2, r3);
      && f.trim.fullUp == t1 && f.trim.neutral == t2 && f.trim.fullDown == t3
      && !TrimOrdered(f.trim)
      && f.saved == c.saved + [f.trim]
  {
    CalibrationOutcome(c, t1, t2, t3, r1, r2, r3);
  }

  /** A second long press within the window enters setup. */
  lemma ConfirmWithinWindow(c: Calib, t0: int, t1: int, t2: int)
    requires c.status == 0 && t1 - t0 <= SET_TIME_MS
    ensures LongPress(UserInterfaceTick(LongPress(c, t0), t1), t2).status == 2
  {
  }

  /** Without a second long press, the first tick after the window returns to normal. */
  lemma WindowExpires(c: Calib, t0: int, t1: int)
    requires c.status == 0 && t1 - t0 > SET_TIME_MS
    ensures UserInterfaceTick(LongPress(c, t0), t1).status == 0
  {
  }

  /** Two iterations with the same status, settings and sample: once the wakeup
      counter is used up, the second one draws nothing and changes nothing. */
  lemma RedrawSuppressed(c: Calib, s: Sample, shown: Shown)
    requires c.status == 0 || c.status == 1
    requires DisplayDriverStep(c, s, shown).Ok?
    requires DisplayDriverStep(c, s, shown).value.wakeup <= 0
    ensures var o := DisplayDriverStep(c, s, shown).value;
      DisplayDriverStep(c.(wakeup := o.wakeup), s, o.shown) == Ok(DriverOutcome(None, o.shown, o.wakeup))
  {
  }

  /** While the wakeup counter is positive every normal-mode iteration draws. */
  lemma WakeupForcesRedraw(c: Calib, s: Sample, shown: Shown)
    requires c.status == 0 || c.status == 1
    requires c.wakeup > 0
    requires TrimOrdered(c.trim) && RudderOrdered(c.trim)
    ensures DisplayDriverStep(c, s, shown).Ok?
    ensures DisplayDriverStep(c, s, shown).value.call.Some?
    ensures DisplayDriverStep(c, s, shown).value.wakeup == c.wakeup - 1
  {
  }

  // ---------------------------------------------------------------------------
  // The globals of main.py as an object

  class TrimIndicator {
    var userStatus: int
    var start: int
    var displayWakeup: int
    var trimSettings: TrimSettings
    var newTrim: Option<TrimSettings>
    var saved: seq<TrimSettings>
    var trimValue: int
    var rudderValue: int
    var mainPower: real
    var oldValue: int
    var oldRudderValue: int

    function State(): Calib
      reads this
    {
      Calib(userStatus, start, displayWakeup, trimSettings, newTrim, saved)
    }

    function Latest(): Sample
      reads this
    {
      Sample(trimValue, rudderValue, mainPower)
    }

    function LastShown(): Shown
      reads this
    {
      Shown(oldValue, oldRudderValue)
    }

    /** Module initialisation at time `bootTicks`, the start of `display_driver`,
        and the default merge of `main` over the loaded configuration `config`. */
    constructor (config: Config, bootTicks: int)
      ensures State() == Calib(0, bootTicks, DISPLAY_WAKEUP, LoadSettings(config), None, [])
      ensures Latest() == Sample(0, 0, 0.0) && LastShown() == Shown(0, 0)
      ensures Valid(State())
    {
      userStatus := 0;
      start := bootTicks;
      displayWakeup := DISPLAY_WAKEUP;
      newTrim := None;
      saved := [];
      trimValue, rudderValue, mainPower := 0, 0, 0.0;
      oldValue, oldRudderValue := 0, 0;
      trimSettings := LoadSettings(config);
    }

    /** What the sensor task stores on each pass. */
    method StoreSample(trim: int, rudder: int, power: real)
      modifies this
      ensures Latest() == Sample(trim, rudder, power)
      ensures State() == old(State()) && LastShown() == old(LastShown())
    {
      trimValue, rudderValue, mainPower := trim, rudder, power;
    }

    /** `pin_press`. */
    method PinPress(now: int)
      modifies this
      ensures State() == LongPress(old(State()), now)
      ensures Latest() == old(Latest()) && LastShown() == old(LastShown())
    {
      displayWakeup := 1;
      if userStatus == 0 {
        start := now;
        userStatus := 1;
      } else if userStatus == 1 {
        userStatus := 2;
      }
    }

    /** `pin_press_short`. */
    method PinPressShort()
      requires Valid(State())
      modifies this
      ensures State() == ShortPress(old(State()), old(trimValue), old(rudderValue))
      ensures Latest() == old(Latest()) && LastShown() == old(LastShown())
    {
      displayWakeup := 1;
      if userStatus == 2 {
        newTrim := Some(trimSettings.(fullUp := trimValue));
        userStatus := 3;
      } else if userStatus == 3 {
        newTrim := Some(newTrim.value.(neutral := trimValue));
        userStatus := 4;
      } else if userStatus == 4 {
        newTrim := Some(newTrim.value.(fullDown := trimValue));
        var n := newTrim.value;
        if n.fullDown > n.neutral > n.fullUp || n.fullDown < n.neutral < n.fullUp {
          trimSettings := n;
          saved := saved + [trimSettings];
        }
        userStatus := if RUDDER_TRIM then 5 else 0;
      } else if userStatus == 5 {
        newTrim := Some(newTrim.value.(rudderRight := rudderValue));
        userStatus := 6;
      } else if userStatus == 6 {
        newTrim := Some(newTrim.value.(rudderNeutral := rudderValue));
        userStatus := 7;
      } else if userStatus == 7 {
        newTrim := Some(newTrim.value.(rudderLeft := rudderValue));
        var n := newTrim.value;
        if n.rudderLeft > n.rudderNeutral > n.rudderRight || n.rudderLeft < n.rudderNeutral < n.rudderRight {
          trimSettings := n;
          saved := saved + [trimSettings];
        }
        userStatus := 0;
      }
    }

    /** One pass of the `user_interface` loop, after its sleep, at time `now`. */
    method UserInterfaceTickAt(now: int)
      modifies this
      ensures State() == UserInterfaceTick(old(State()), now)
      ensures Latest() == old(Latest()) && LastShown() == old(LastShown())
    {
      if userStatus == 1 && now - start > SET_TIME_MS {
        userStatus := 0;
      }
    }

    /** One pass of the `display_driver` loop up to its busy wait: the indicator
        call it makes, if any. An exception leaves everything unchanged. */
    method DisplayDriverIteration() returns (r: Result<Option<IndicatorCall>, Fault>)
      modifies this
      ensures var step := DisplayDriverStep(old(State()), old(Latest()), old(LastShown()));
        match step
        case Err(e) => r == Err(e) && State() == old(State()) && LastShown() == old(LastShown())
        case Ok(o) =>
          && r == Ok(o.call) && LastShown() == o.shown
          && State() == old(State()).(wakeup := o.wakeup)
      ensures Latest() == old(Latest())
    {
      if userStatus == 0 || userStatus == 1 {
        var displayPercent := CalcDisplayPercent(trimSettings, trimValue, trimValue);
        if displayPercent.Err? {
          return Err(displayPercent.error);
        }
        var rudderPercent := CalcRudderPercent(trimSettings, trimValue, rudderValue);
        if rudderPercent.Err? {
          return Err(rudderPercent.error);
        }
        if displayPercent.value != oldValue || rudderPercent.value != oldRudderValue || displayWakeup > 0 {
          oldValue := displayPercent.value;
          oldRudderValue := rudderPercent.value;
          displayWakeup := displayWakeup - 1;
          r := Ok(Some(IndicatorCall(displayPercent.value, rudderPercent.value, mainPower, userStatus)));
        } else {
          r := Ok(None);
        }
      } else {
        r := Ok(SetupCall(userStatus, mainPower));
      }
    }
  }
}
