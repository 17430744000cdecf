/** The "caught" panel: showing it starts a countdown of `lingerTime` seconds, and the
    frame on which the countdown reaches zero hides the panel again. Frame times are
    inputs. */
module CaughtUIModel {
  import opened Unity

  /** The countdown and the panel's active flag. */
  datatype Countdown = Countdown(timer: real, shown: bool)

  /** One Update with frame time `dt`, for a panel that is present. */
  function Tick(s: Countdown, dt: real): (r: Countdown)
    // a stopped countdown does nothing
    ensures s.timer <= 0.0 ==> r == s
    // a running one loses `dt`
    ensures s.timer > 0.0 ==> r.timer == s.timer - dt
    // and hides the panel on the frame it runs out, and only then
    ensures s.timer > 0.0 && r.timer <= 0.0 ==> !r.shown
    ensures r.timer > 0.0 ==> r.shown == s.shown
  {
    if s.timer > 0.0 then
      var t := s.timer - dt;
      Countdown(t, if t <= 0.0 then false else s.shown)
    else s
  }

  /** ShowCaught with a panel present: the panel comes up and the countdown restarts
      from the full `lingerTime`, whatever was left of it. */
  function Show(lingerTime: real, s: Countdown): (r: Countdown)
    ensures r.shown && r.timer == lingerTime
  {
    Countdown(lingerTime, true)
  }

  /** A run of Updates with the given frame times. */
  function Run(s: Countdown, dts: seq<real>): Countdown
    decreases |dts|
  {
    if |dts| == 0 then s else Run(Tick(s, dts[0]), dts[1..])
  }

  function Sum(dts: seq<real>): real {
    if |dts| == 0 then 0.0 else dts[0] + Sum(dts[1..])
  }

  predicate NonNegative(dts: seq<real>) {
    forall i :: 0 <= i < |dts| ==> dts[i] >= 0.0
  }

  lemma {:induction false} SumNonNegative(dts: seq<real>)
    requires NonNegative(dts)
    ensures Sum(dts) >= 0.0
  {
    if |dts| > 0 {
      assert NonNegative(dts[1..]) by {
        forall i | 0 <= i < |dts| - 1
          ensures dts[1..][i] >= 0.0
        {
          assert dts[1..][i] == dts[i + 1];
        }
      }
      SumNonNegative(dts[1..]);
    }
  }

  /** Once the countdown has stopped, further Updates change nothing: the panel keeps
      whatever state it has. */
  lemma {:induction false} StoppedCountdownIsFrozen(s: Countdown, dts: seq<real>)
    requires s.timer <= 0.0
    ensures Run(s, dts) == s
    decreases |dts|
  {
    if |dts| > 0 {
      StoppedCountdownIsFrozen(Tick(s, dts[0]), dts[1..]);
    }
  }

  /** With frame times that never go backwards, a panel shown with `t` seconds left is
      still up after a run exactly when the frames add up to less than `t`, and then
      `t` minus their total is left on the countdown. */
  lemma {:induction false} PanelLingers(s: Countdown, dts: seq<real>)
    requires s.timer > 0.0 && s.shown && NonNegative(dts)
    ensures Run(s, dts).shown <==> Sum(dts) < s.timer
    ensures Sum(dts) < s.timer ==> Run(s, dts).timer == s.timer - Sum(dts)
    ensures Sum(dts) >= s.timer ==> Run(s, dts).timer <= 0.0
    decreases |dts|
  {
    if |dts| > 0 {
      var next := Tick(s, dts[0]);
      assert NonNegative(dts[1..]) by {
        forall i | 0 <= i < |dts| - 1
          ensures dts[1..][i] >= 0.0
        {
          assert dts[1..][i] == dts[i + 1];
        }
      }
      if next.timer > 0.0 {
        PanelLingers(next, dts[1..]);
      } else {
        StoppedCountdownIsFrozen(next, dts[1..]);
        SumNonNegative(dts[1..]);
      }
    }
  }

  /** A `lingerTime` of zero or less never starts the countdown, so the panel, once
      shown, stays up. */
  lemma NonPositiveLingerKeepsPanel(lingerTime: real, s: Countdown, dts: seq<real>)
    requires lingerTime <= 0.0
    ensures Run(Show(lingerTime, s), dts).shown
  {
    StoppedCountdownIsFrozen(Show(lingerTime, s), dts);
  }

  class CaughtUI {
    const caughtPanel: GameObject?
    var lingerTime: real
    var timer: real

    constructor (caughtPanel: GameObject?)
      ensures this.caughtPanel == caughtPanel && lingerTime == 1.5 && timer == 0.0
    {
      this.caughtPanel := caughtPanel;
      lingerTime := 1.5;
      timer := 0.0;
    }

    /** A frame: a running countdown loses the frame time and, on running out, hides the
        panel if there is one. */
    method Update(dt: real)
      modifies this`timer, caughtPanel
      ensures caughtPanel != null ==>
                Countdown(timer, caughtPanel.activeSelf) ==
                Tick(Countdown(old(timer), old(caughtPanel.activeSelf)), dt)
      ensures caughtPanel == null ==> timer == Tick(Countdown(old(timer), false), dt).timer
    {
      if timer > 0.0 {
        timer := timer - dt;
        if timer <= 0.0 && caughtPanel != null {
          caughtPanel.activeSelf := false;
        }
      }
    }

    /** Called when a player is caught: with a panel, it comes up and the countdown
        restarts; without one nothing happens. */
    method ShowCaught()
      modifies this`timer, caughtPanel
      ensures caughtPanel != null ==>
                Countdown(timer, caughtPanel.activeSelf) ==
                Show(lingerTime, Countdown(old(timer), old(caughtPanel.activeSelf)))
      ensures caughtPanel == null ==> timer == old(timer)
    {
      if caughtPanel != null {
        caughtPanel.activeSelf := true;
        timer := lingerTime;
      }
    }
  }
}
