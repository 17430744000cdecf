/** The lives counter: a single manager instance, lives added with a clamp, lost without
    one, a game-over event when they run out, and a respawn of the player otherwise.
    Lives are C# ints, so the additions wrap at 32 bits. */
module LivesManagerModel {
  import opened Unity

  /** The starting and reset value: at least one life whatever maxLives says. */
  function FullLives(maxLives: int32): (r: int32)
    ensures r >= 1 && r >= maxLives
    ensures maxLives >= 1 ==> r == maxLives
  {
    MaxInt(1, maxLives)
  }

  /** AddLife's new value: the (wrapping) sum clamped to 0..maxLives. */
  function AddedLives(lives: int32, amount: int32, maxLives: int32): (r: int32)
    ensures maxLives >= 0 ==> 0 <= r <= maxLives
    ensures Add32(lives, amount) < 0 ==> r == 0
    ensures 0 <= Add32(lives, amount) && maxLives < Add32(lives, amount) ==> r == maxLives
    ensures 0 <= Add32(lives, amount) <= maxLives ==> r == Add32(lives, amount)
    // a sum that lands in range cannot have wrapped
    ensures 0 <= lives + amount <= maxLives ==> r == lives + amount
  {
    ClampInt(Add32(lives, amount), 0, maxLives)
  }

  /** What one call does to the counter: the new value, the values reported through
      OnLivesChanged, and whether OnGameOver fired. */
  datatype Effect = Effect(lives: int32, reported: seq<int32>, gameOver: bool)

  /** A call of AddLife, LoseLife or ResetLives. */
  datatype Call = Add(amount: int32) | Lose(amount: int32) | Reset

  function Apply(maxLives: int32, lives: int32, call: Call): (e: Effect)
    // AddLife reports the new value only when it changed
    ensures call.Add? ==> e.lives == AddedLives(lives, call.amount, maxLives) && !e.gameOver &&
                              e.reported == (if e.lives != lives then [e.lives] else [])
    // LoseLife does nothing at all once the lives are gone
    ensures call.Lose? && lives <= 0 ==> e == Effect(lives, [], false)
    // otherwise it subtracts without a clamp, always reports, and ends the game at 0 or below
    ensures call.Lose? && lives > 0 ==>
              e.lives == Sub32(lives, call.amount) && e.reported == [e.lives] &&
              (e.gameOver <==> e.lives <= 0)
    ensures call.Reset? ==> e == Effect(FullLives(maxLives), [FullLives(maxLives)], false)
  {
    match call
    case Add(n) =>
      var v := AddedLives(lives, n, maxLives);
      Effect(v, if v != lives then [v] else [], false)
    case Lose(n) =>
      if lives <= 0 then Effect(lives, [], false)
      else
        var v := Sub32(lives, n);
        Effect(v, [v], v <= 0)
    case Reset =>
      Effect(FullLives(maxLives), [FullLives(maxLives)], false)
  }

  /** Game overs, and revivals (calls that raise the lives from 0 or below to above 0),
      over a sequence of calls. */
  function GameOvers(maxLives: int32, lives: int32, calls: seq<Call>): nat
    decreases |calls|
  {
    if |calls| == 0 then 0
    else
      var e := Apply(maxLives, lives, calls[0]);
      (if e.gameOver then 1 else 0) + GameOvers(maxLives, e.lives, calls[1..])
  }

  function Revivals(maxLives: int32, lives: int32, calls: seq<Call>): nat
    decreases |calls|
  {
    if |calls| == 0 then 0
    else
      var e := Apply(maxLives, lives, calls[0]);
      (if lives <= 0 < e.lives then 1 else 0) + Revivals(maxLives, e.lives, calls[1..])
  }

  /** OnGameOver does not fire twice without the lives being raised above 0 in between:
      over any sequence of calls, game overs number at most one (if lives remain at the
      start) plus the number of revivals. */
  lemma {:induction false} GameOverOncePerRevival(maxLives: int32, lives: int32, calls: seq<Call>)
    ensures GameOvers(maxLives, lives, calls) <=
              (if lives > 0 then 1 else 0) + Revivals(maxLives, lives, calls)
    decreases |calls|
  {
    if |calls| > 0 {
      var e := Apply(maxLives, lives, calls[0]);
      GameOverOncePerRevival(maxLives, e.lives, calls[1..]);
    }
  }

  /** So a run of LoseLife calls alone ends the game at most once. */
  lemma {:induction false} LosingAloneEndsTheGameOnce(maxLives: int32, lives: int32, calls: seq<Call>)
    requires forall i :: 0 <= i < |calls| ==> calls[i].Lose?
    ensures Revivals(maxLives, lives, calls) == 0
    ensures GameOvers(maxLives, lives, calls) <= 1
    decreases |calls|
  {
    if |calls| > 0 {
      var e := Apply(maxLives, lives, calls[0]);
      LosingAloneEndsTheGameOnce(maxLives, e.lives, calls[1..]);
    }
    GameOverOncePerRevival(maxLives, lives, calls);
  }

  /** The static LivesManager.Instance slot. */
  class LivesRegistry {
    var instance: LivesManager?
    constructor ()
      ensures instance == null
    {
      instance := null;
    }
  }

  class LivesManager {
    var maxLives: int32
    var currentLives: int32
    /** The values passed to OnLivesChanged, in order. */
    var livesChanged: seq<int32>
    /** How many times OnGameOver fired. */
    var gameOvers: nat
    /** Set when Awake finds another instance and destroys this one. */
    var destroyed: bool
    /** The optional player to move back, and where to. */
    var player: Body?
    var respawnPoint: Option<Vec3>

    constructor (maxLives: int32, player: Body?, respawnPoint: Option<Vec3>)
      ensures this.maxLives == maxLives && this.player == player && this.respawnPoint == respawnPoint
      ensures currentLives == 0 && livesChanged == [] && gameOvers == 0 && !destroyed
    {
      this.maxLives := maxLives;
      this.player := player;
      this.respawnPoint := respawnPoint;
      currentLives := 0;
      livesChanged := [];
      gameOvers := 0;
      destroyed := false;
    }

    /** The first instance claims the slot and starts with full lives; any later one
        destroys itself and leaves the slot alone. */
    method Awake(registry: LivesRegistry)
      modifies registry, this
      ensures old(registry.instance) != null && old(registry.instance) != this ==>
                registry.instance == old(registry.instance) && destroyed &&
                currentLives == old(currentLives) && livesChanged == old(livesChanged)
      ensures old(registry.instance) == null || old(registry.instance) == this ==>
                registry.instance == this && destroyed == old(destroyed) &&
                currentLives == FullLives(maxLives) && livesChanged == old(livesChanged) + [currentLives]
      ensures maxLives == old(maxLives) && gameOvers == old(gameOvers)
      ensures player == old(player) && respawnPoint == old(respawnPoint)
    {
      if registry.instance != null && registry.instance != this {
        destroyed := true;
        return;
      }
      registry.instance := this;
      currentLives := MaxInt(1, maxLives);
      livesChanged := livesChanged + [currentLives];
    }

    /** The lives left, as last stored. */
    function CurrentLives(): (r: int32)
      reads this
      ensures r == currentLives
    {
      currentLives
    }

    method AddLife(amount: int32)
      modifies this`currentLives, this`livesChanged
      ensures var e := Apply(maxLives, old(currentLives), Add(amount));
              currentLives == e.lives && livesChanged == old(livesChanged) + e.reported
    {
      var prev := currentLives;
      currentLives := ClampInt(Add32(currentLives, amount), 0, maxLives);
      if currentLives != prev {
        livesChanged := livesChanged + [currentLives];
      }
    }

    /** Losing lives; a player who survives is moved back to the respawn point with its
        velocity cleared. */
    method LoseLife(amount: int32)
      modifies this`currentLives, this`livesChanged, this`gameOvers, player
      ensures var e := Apply(maxLives, old(currentLives), Lose(amount));
              currentLives == e.lives && livesChanged == old(livesChanged) + e.reported &&
              gameOvers == old(gameOvers) + (if e.gameOver then 1 else 0)
      ensures player != null ==>
                if old(currentLives) > 0 && currentLives > 0 && respawnPoint.Some? then
                  player.position == respawnPoint.value &&
                  player.velocity == (if player.hasRigidbody then Zero3 else old(player.velocity))
                else
                  player.position == old(player.position) && player.velocity == old(player.velocity)
      ensures player != null ==> player.hasRigidbody == old(player.hasRigidbody)
    {
      if currentLives <= 0 {
        return;
      }
      currentLives := Sub32(currentLives, amount);
      livesChanged := livesChanged + [currentLives];
      if currentLives <= 0 {
        gameOvers := gameOvers + 1;
      } else {
        if player != null && respawnPoint.Some? {
          player.position := respawnPoint.value;
          if player.hasRigidbody {
            player.velocity := Zero3;
          }
        }
      }
    }

    method ResetLives()
      modifies this`currentLives, this`livesChanged
      ensures var e := Apply(maxLives, old(currentLives), Reset);
              currentLives == e.lives && livesChanged == old(livesChanged) + e.reported
    {
      currentLives := MaxInt(1, maxLives);
      livesChanged := livesChanged + [currentLives];
    }
  }
}
