/** The two-character controller: per-character keys and jump allowance, a jump buffer
    filled by the jump key, coyote time refreshed on the ground, and a jump counter reset
    only on landing. The ground check, key states and the fixed time step are inputs;
    the rigidbody's velocity is a field and the jump impulse is folded into it. */
module DualPlayerControllerModel {
  import opened Unity

  datatype PlayerType = Rat | Pigeon

  // ---------------------------------------------------------------------------
  // Jump bookkeeping
  // ---------------------------------------------------------------------------

  /** The jump tuning fields. */
  datatype Tuning = Tuning(jumpBufferTime: real, coyoteTime: real, maxJumps: int)

  /** The runtime fields: ground flags, jumps used since landing, the two counters. */
  datatype Jumper = Jumper(grounded: bool, wasGrounded: bool, jumpCount: int,
                           jumpBuffer: real, coyote: real)

  /** The field initialisers. */
  const Rest: Jumper := Jumper(false, false, 0, 0.0, 0.0)

  /** Update with the jump key pressed this frame: the buffer is refilled. */
  function Press(t: Tuning, s: Jumper): (r: Jumper)
    ensures r.jumpBuffer == t.jumpBufferTime
    ensures r == s.(jumpBuffer := r.jumpBuffer)
  {
    s.(jumpBuffer := t.jumpBufferTime)
  }

  /** The ground-check half of FixedUpdate, with the check's result `onGround`. */
  function Ground(t: Tuning, s: Jumper, onGround: bool, fixedDt: real): (r: Jumper)
    ensures r.wasGrounded == s.grounded && r.grounded == onGround
    ensures onGround ==> r.coyote == t.coyoteTime
    ensures !onGround ==> r.coyote == s.coyote - fixedDt
    // the jump count drops only on a landing (not grounded before, grounded now), to 0
    ensures r.jumpCount != s.jumpCount ==> !s.grounded && onGround && r.jumpCount == 0
    ensures !s.grounded && onGround ==> r.jumpCount == 0
    ensures r.jumpBuffer == s.jumpBuffer
  {
    var s1 := s.(wasGrounded := s.grounded, grounded := onGround);
    if onGround then
      var s2 := s1.(coyote := t.coyoteTime);
      if !s2.wasGrounded then s2.(jumpCount := 0) else s2
    else
      s1.(coyote := s1.coyote - fixedDt)
  }

  /** HandleJump's condition, as the source writes it. */
  function CanJump(t: Tuning, s: Jumper): (b: bool)
    // the grounded/airborne split of the air-jump test cancels out
    ensures b <==> s.jumpBuffer > 0.0 && (s.coyote > 0.0 || s.jumpCount < t.maxJumps)
  {
    var canCoyoteJump := s.coyote > 0.0;
    var hasAirJumpsLeft := s.jumpCount < t.maxJumps;
    s.jumpBuffer > 0.0 &&
      (canCoyoteJump || (!s.grounded && hasAirJumpsLeft) || (s.grounded && hasAirJumpsLeft))
  }

  /** HandleJump: either jump, consuming the buffer and the coyote time, or let the
      buffer run down. */
  function Jump(t: Tuning, s: Jumper, fixedDt: real): (r: (Jumper, bool))
    ensures r.1 <==> s.jumpBuffer > 0.0 && (s.coyote > 0.0 || s.jumpCount < t.maxJumps)
    ensures r.1 ==> r.0 == Jumper(false, s.wasGrounded, s.jumpCount + 1, 0.0, 0.0)
    ensures !r.1 ==> r.0 == s.(jumpBuffer := s.jumpBuffer - fixedDt)
  {
    if CanJump(t, s) then
      (s.(jumpCount := s.jumpCount + 1, jumpBuffer := 0.0, coyote := 0.0, grounded := false), true)
    else
      (s.(jumpBuffer := s.jumpBuffer - fixedDt), false)
  }

  /** The jump part of one FixedUpdate: the ground check of
      Assets/Scripts/DualPlayerController.cs:75-94, then HandleJump (lines 117-141). */
  function Tick(t: Tuning, s: Jumper, onGround: bool, fixedDt: real): (Jumper, bool) {
    Jump(t, Ground(t, s, onGround, fixedDt), fixedDt)
  }

  /** Between landings the character jumps at most maxJumps times: the jump count stays
      within 0..maxJumps, and it is 0 whenever the character is grounded or still has
      coyote time (a coyote jump is always the first jump since landing). */
  predicate JumpInvariant(t: Tuning, s: Jumper) {
    0 <= s.jumpCount <= t.maxJumps &&
    (s.grounded ==> s.jumpCount == 0) &&
    (s.coyote > 0.0 ==> s.jumpCount == 0)
  }

  lemma RestSatisfiesInvariant(t: Tuning)
    requires t.maxJumps >= 0
    ensures JumpInvariant(t, Rest)
  {
  }

  lemma TickKeepsInvariant(t: Tuning, s: Jumper, onGround: bool, fixedDt: real)
    requires t.maxJumps >= 1 && fixedDt >= 0.0
    requires JumpInvariant(t, s)
    ensures JumpInvariant(t, Tick(t, s, onGround, fixedDt).0)
  {
    var g := Ground(t, s, onGround, fixedDt);
    assert JumpInvariant(t, g);
  }

  /** What the controller sees between two states: a frame in which the jump key went
      down, or a physics step with the ground check's result. */
  datatype Event = KeyDown | Step(onGround: bool)

  /** The state after a sequence of events, and the number of jumps fired. */
  function Run(t: Tuning, s: Jumper, events: seq<Event>, fixedDt: real): (Jumper, nat)
    decreases |events|
  {
    if |events| == 0 then (s, 0)
    else
      match events[0]
      case KeyDown => Run(t, Press(t, s), events[1..], fixedDt)
      case Step(g) =>
        var (s', jumped) := Tick(t, s, g, fixedDt);
        var (s'', n) := Run(t, s', events[1..], fixedDt);
        (s'', n + if jumped then 1 else 0)
  }

  /** Over any sequence of frames and physics steps, the jump count never exceeds the
      character's allowance. */
  lemma {:induction false} RunKeepsInvariant(t: Tuning, s: Jumper, events: seq<Event>, fixedDt: real)
    requires t.maxJumps >= 1 && fixedDt >= 0.0
    requires JumpInvariant(t, s)
    ensures JumpInvariant(t, Run(t, s, events, fixedDt).0)
    ensures Run(t, s, events, fixedDt).0.jumpCount <= t.maxJumps
    decreases |events|
  {
    if |events| > 0 {
      match events[0]
      case KeyDown =>
        RunKeepsInvariant(t, Press(t, s), events[1..], fixedDt);
      case Step(g) =>
        TickKeepsInvariant(t, s, g, fixedDt);
        RunKeepsInvariant(t, Tick(t, s, g, fixedDt).0, events[1..], fixedDt);
    }
  }

  /** In the air the character fires at most as many jumps as it has left: with no
      ground contact, a run from a state with coyote time spent fires at most
      maxJumps - jumpCount jumps. */
  lemma {:induction false} AirborneJumpsBounded(t: Tuning, s: Jumper, events: seq<Event>, fixedDt: real)
    requires t.maxJumps >= 1 && fixedDt >= 0.0
    requires JumpInvariant(t, s) && s.coyote <= 0.0
    requires forall i :: 0 <= i < |events| ==> events[i] != Step(true)
    ensures Run(t, s, events, fixedDt).1 <= t.maxJumps - s.jumpCount
    decreases |events|
  {
    if |events| > 0 {
      match events[0]
      case KeyDown =>
        AirborneJumpsBounded(t, Press(t, s), events[1..], fixedDt);
      case Step(g) =>
        TickKeepsInvariant(t, s, g, fixedDt);
        AirborneJumpsBounded(t, Tick(t, s, g, fixedDt).0, events[1..], fixedDt);
    }
  }

  // ---------------------------------------------------------------------------
  // Movement
  // ---------------------------------------------------------------------------

  /** HandleMove's direction from the left and right keys. */
  function MoveDirection(leftHeld: bool, rightHeld: bool): (d: real)
    // right wins over left
    ensures d == 1.0 <==> rightHeld
    ensures d == -1.0 <==> leftHeld && !rightHeld
    ensures d == 0.0 <==> !leftHeld && !rightHeld
  {
    var d := if leftHeld then -1.0 else 0.0;
    if rightHeld then 1.0 else d
  }

  /** The model pivot's yaw after moving in direction `d`: facing right is -90 degrees,
      facing left +90, and no movement keeps the previous yaw. */
  function Facing(yaw: real, d: real): (y: real)
    ensures d > 0.0 ==> y == -90.0
    ensures d < 0.0 ==> y == 90.0
    ensures d == 0.0 ==> y == yaw
  {
    if d != 0.0 then (if d > 0.0 then -90.0 else 90.0) else yaw
  }

  // ---------------------------------------------------------------------------
  // The component
  // ---------------------------------------------------------------------------

  class DualPlayerController {
    var player: PlayerType
    var moveSpeed: real
    var jumpForce: real
    var jumpBufferTime: real
    var coyoteTime: real
    var maxJumps: int
    var leftKey: KeyCode
    var rightKey: KeyCode
    var jumpKey: KeyCode
    /** Whether a model pivot is assigned, and its local yaw in degrees. */
    const hasPivot: bool
    var pivotYaw: real

    /** The rigidbody's velocity. */
    var velocity: Vec3

    var grounded: bool
    var wasGrounded: bool
    var jumpCount: int
    var jumpBufferCounter: real
    var coyoteCounter: real

    function Tune(): Tuning
      reads this
    {
      Tuning(jumpBufferTime, coyoteTime, maxJumps)
    }

    function State(): Jumper
      reads this
    {
      Jumper(grounded, wasGrounded, jumpCount, jumpBufferCounter, coyoteCounter)
    }

    /** The component as placed, with the serialized defaults. */
    constructor (player: PlayerType, moveSpeed: real, jumpForce: real, jumpBufferTime: real,
                 coyoteTime: real, hasPivot: bool, pivotYaw: real)
      ensures this.player == player && this.moveSpeed == moveSpeed && this.jumpForce == jumpForce
      ensures this.hasPivot == hasPivot && this.pivotYaw == pivotYaw
      ensures Tune() == Tuning(jumpBufferTime, coyoteTime, 1)
      ensures leftKey == A && rightKey == D && jumpKey == W
      ensures State() == Rest && velocity == Zero3
    {
      this.player := player;
      this.moveSpeed := moveSpeed;
      this.jumpForce := jumpForce;
      this.jumpBufferTime := jumpBufferTime;
      this.coyoteTime := coyoteTime;
      this.hasPivot := hasPivot;
      this.pivotYaw := pivotYaw;
      maxJumps := 1;
      leftKey, rightKey, jumpKey := A, D, W;
      velocity := Zero3;
      grounded, wasGrounded, jumpCount := false, false, 0;
      jumpBufferCounter, coyoteCounter := 0.0, 0.0;
    }

    /** The rat jumps once and uses A/D/W; the pigeon jumps twice and uses J/L/Space. */
    method Awake()
      modifies this`maxJumps, this`leftKey, this`rightKey, this`jumpKey
      ensures player == Rat ==> maxJumps == 1 && leftKey == A && rightKey == D && jumpKey == W
      ensures player == Pigeon ==> maxJumps == 2 && leftKey == J && rightKey == L && jumpKey == Space
    {
      if player == Rat {
        maxJumps := 1;
        leftKey := A; rightKey := D; jumpKey := W;
      } else {
        maxJumps := 2;
        leftKey := J; rightKey := L; jumpKey := Space;
      }
    }

    /** A rendered frame; `keysDown` are the keys that went down during it. */
    method Update(keysDown: set<KeyCode>)
      modifies this`jumpBufferCounter
      ensures State() == if jumpKey in keysDown then Press(Tune(), old(State())) else old(State())
    {
      if jumpKey in keysDown {
        jumpBufferCounter := jumpBufferTime;
      }
    }

    /** Horizontal movement from the held keys; the pivot turns to face the movement. */
    method HandleMove(keysHeld: set<KeyCode>)
      modifies this`velocity, this`pivotYaw
      ensures velocity == old(velocity).(x := MoveDirection(leftKey in keysHeld, rightKey in keysHeld) * moveSpeed)
      ensures pivotYaw == if hasPivot
                          then Facing(old(pivotYaw), MoveDirection(leftKey in keysHeld, rightKey in keysHeld))
                          else old(pivotYaw)
    {
      var dir := 0.0;
      if leftKey in keysHeld { dir := -1.0; }
      if rightKey in keysHeld { dir := 1.0; }
      velocity := velocity.(x := dir * moveSpeed);
      if dir != 0.0 && hasPivot {
        pivotYaw := if dir > 0.0 then -90.0 else 90.0;
      }
    }

    method HandleJump(fixedDt: real)
      modifies this`velocity, this`jumpCount, this`jumpBufferCounter, this`coyoteCounter, this`grounded
      ensures State() == Jump(Tune(), old(State()), fixedDt).0
      ensures velocity == if Jump(Tune(), old(State()), fixedDt).1
                          then old(velocity).(y := jumpForce) else old(velocity)
    {
      var canCoyoteJump := coyoteCounter > 0.0;
      var hasAirJumpsLeft := jumpCount < maxJumps;
      if jumpBufferCounter > 0.0 &&
         (canCoyoteJump || (!grounded && hasAirJumpsLeft) || (grounded && hasAirJumpsLeft)) {
        velocity := velocity.(y := 0.0);
        velocity := velocity.(y := velocity.y + jumpForce);
        jumpCount := jumpCount + 1;
        jumpBufferCounter := 0.0;
        coyoteCounter := 0.0;
        grounded := false;
      } else {
        jumpBufferCounter := jumpBufferCounter - fixedDt;
      }
    }

    /** A physics step: movement, the ground check (its result `onGround`), then the jump.
        It keeps the jump count within the character's allowance. */
    method FixedUpdate(keysHeld: set<KeyCode>, onGround: bool, fixedDt: real)
      requires maxJumps >= 1 && fixedDt >= 0.0
      requires JumpInvariant(Tune(), State())
      modifies this`velocity, this`pivotYaw, this`grounded, this`wasGrounded, this`jumpCount,
               this`jumpBufferCounter, this`coyoteCounter
      ensures State() == Tick(Tune(), old(State()), onGround, fixedDt).0
      ensures JumpInvariant(Tune(), State())
      ensures velocity == var moved := old(velocity).(x := MoveDirection(leftKey in keysHeld, rightKey in keysHeld) * moveSpeed);
                          if Tick(Tune(), old(State()), onGround, fixedDt).1 then moved.(y := jumpForce) else moved
      ensures pivotYaw == if hasPivot
                          then Facing(old(pivotYaw), MoveDirection(leftKey in keysHeld, rightKey in keysHeld))
                          else old(pivotYaw)
    {
      HandleMove(keysHeld);
      wasGrounded := grounded;
      grounded := onGround;
      if grounded {
        coyoteCounter := coyoteTime;
        if !wasGrounded {
          jumpCount := 0;
        }
      } else {
        coyoteCounter := coyoteCounter - fixedDt;
      }
      ghost var before := old(State());
      assert State() == Ground(Tune(), before, onGround, fixedDt);
      HandleJump(fixedDt);
      TickKeepsInvariant(Tune(), before, onGround, fixedDt);
    }
  }
}
