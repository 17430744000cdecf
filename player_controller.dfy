/** PotControllerLegacy: the single-player controller with a jump buffer and coyote time
    but no jump counter, so a jump needs ground contact (or coyote time) every time. The
    ground check, the horizontal axis, the jump button and the fixed step are inputs;
    the rigidbody's velocity is a field and the jump impulse is folded into it. */
module PotControllerLegacyModel {
  import opened Unity

  /** The tuning fields. */
  datatype Tuning = Tuning(jumpBufferTime: real, coyoteTime: real)

  /** The runtime fields. */
  datatype Pot = Pot(grounded: bool, jumpBuffer: real, coyote: real)

  /** The field initialisers. */
  const Rest: Pot := Pot(false, 0.0, 0.0)

  /** The coyote counter after the ground check: refreshed on the ground, run down in
      the air (Assets/Scripts/PlayerController.cs:50-52). */
  function CoyoteAfter(t: Tuning, s: Pot, onGround: bool, fixedDt: real): real {
    if onGround then t.coyoteTime else s.coyote - fixedDt
  }

  /** The jump bookkeeping of one FixedUpdate, and whether it jumped. */
  function Tick(t: Tuning, s: Pot, onGround: bool, fixedDt: real): (r: (Pot, bool))
    ensures r.0.grounded == onGround
    // a jump fires exactly when the buffer holds a press and coyote time remains
    ensures r.1 <==> s.jumpBuffer > 0.0 && CoyoteAfter(t, s, onGround, fixedDt) > 0.0
    // a jump consumes both counters
    ensures r.1 ==> r.0.jumpBuffer == 0.0 && r.0.coyote == 0.0
    // otherwise the buffer runs down by one step
    ensures !r.1 ==> r.0.jumpBuffer == s.jumpBuffer - fixedDt &&
                     r.0.coyote == CoyoteAfter(t, s, onGround, fixedDt)
  {
    var coyote := if onGround then t.coyoteTime else s.coyote - fixedDt;
    if s.jumpBuffer > 0.0 && coyote > 0.0 then (Pot(onGround, 0.0, 0.0), true)
    else (Pot(onGround, s.jumpBuffer - fixedDt, coyote), false)
  }

  /** A frame in which the jump button went down, or a physics step with the ground
      check's result. */
  datatype Event = ButtonDown | Step(onGround: bool)

  /** The state after a sequence of events, and the number of jumps fired. */
  function Run(t: Tuning, s: Pot, events: seq<Event>, fixedDt: real): (Pot, nat)
    decreases |events|
  {
    if |events| == 0 then (s, 0)
    else
      match events[0]
      case ButtonDown => Run(t, s.(jumpBuffer := t.jumpBufferTime), events[1..], fixedDt)
      case Step(g) =>
        var (s', jumped) := Tick(t, s, g, fixedDt);
        var (s'', n) := Run(t, s', events[1..], fixedDt);
        (s'', n + if jumped then 1 else 0)
  }

  /** No second jump without ground contact: once coyote time is spent (as it is right
      after a jump), no run of airborne steps and button presses fires a jump, however
      often the button is pressed, and coyote time stays spent. */
  lemma {:induction false} NoJumpWithoutGround(t: Tuning, s: Pot, events: seq<Event>, fixedDt: real)
    requires fixedDt >= 0.0 && s.coyote <= 0.0
    requires forall i :: 0 <= i < |events| ==> events[i] != Step(true)
    ensures Run(t, s, events, fixedDt).1 == 0
    ensures Run(t, s, events, fixedDt).0.coyote <= 0.0
    decreases |events|
  {
    if |events| > 0 {
      match events[0]
      case ButtonDown =>
        NoJumpWithoutGround(t, s.(jumpBuffer := t.jumpBufferTime), events[1..], fixedDt);
      case Step(g) =>
        NoJumpWithoutGround(t, Tick(t, s, g, fixedDt).0, events[1..], fixedDt);
    }
  }

  /** A jump leaves coyote time spent, so the lemma above applies right after it. */
  lemma JumpSpendsCoyote(t: Tuning, s: Pot, onGround: bool, fixedDt: real)
    requires Tick(t, s, onGround, fixedDt).1
    ensures Tick(t, s, onGround, fixedDt).0.coyote <= 0.0
  {
  }

  class PotControllerLegacy {
    var moveSpeed: real
    var jumpForce: real
    var jumpBufferTime: real
    var coyoteTime: real

    /** The rigidbody's velocity. */
    var velocity: Vec3

    var grounded: bool
    var jumpBufferCounter: real
    var coyoteCounter: real

    function Tune(): Tuning
      reads this
    {
      Tuning(jumpBufferTime, coyoteTime)
    }

    function State(): Pot
      reads this
    {
      Pot(grounded, jumpBufferCounter, coyoteCounter)
    }

    constructor (moveSpeed: real, jumpForce: real, jumpBufferTime: real, coyoteTime: real)
      ensures this.moveSpeed == moveSpeed && this.jumpForce == jumpForce
      ensures Tune() == Tuning(jumpBufferTime, coyoteTime)
      ensures State() == Rest && velocity == Zero3
    {
      this.moveSpeed := moveSpeed;
      this.jumpForce := jumpForce;
      this.jumpBufferTime := jumpBufferTime;
      this.coyoteTime := coyoteTime;
      velocity := Zero3;
      grounded, jumpBufferCounter, coyoteCounter := false, 0.0, 0.0;
    }

    /** A rendered frame; `jumpDown` says whether the Jump button went down in it. */
    method Update(jumpDown: bool)
      modifies this`jumpBufferCounter
      ensures jumpBufferCounter == if jumpDown then jumpBufferTime else old(jumpBufferCounter)
    {
      if jumpDown {
        jumpBufferCounter := jumpBufferTime;
      }
    }

    /** A physics step with horizontal axis `axis` and ground-check result `onGround`. */
    method FixedUpdate(axis: real, onGround: bool, fixedDt: real)
      modifies this`velocity, this`grounded, this`jumpBufferCounter, this`coyoteCounter
      ensures State() == Tick(Tune(), old(State()), onGround, fixedDt).0
      // only the horizontal component follows the axis; a jump sets the vertical one
      ensures velocity.x == axis * moveSpeed && velocity.z == old(velocity.z)
      ensures velocity.y == if Tick(Tune(), old(State()), onGround, fixedDt).1
                            then jumpForce else old(velocity.y)
    {
      var v := velocity;
      v := v.(x := axis * moveSpeed);
      velocity := v;
      grounded := onGround;
      if grounded {
        coyoteCounter := coyoteTime;
      } else {
        coyoteCounter := coyoteCounter - fixedDt;
      }
      if jumpBufferCounter > 0.0 && coyoteCounter > 0.0 {
        v := velocity;
        v := v.(y := 0.0);
        velocity := v;
        velocity := velocity.(y := velocity.y + jumpForce);
        jumpBufferCounter := 0.0;
        coyoteCounter := 0.0;
      } else {
        jumpBufferCounter := jumpBufferCounter - fixedDt;
      }
    }
  }
}
