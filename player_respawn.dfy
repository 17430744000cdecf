/** The per-player damage hook: it forwards damage to the shared health manager, and when
    the damaged player has no hearts left it restores both players' hearts and moves both
    players to the current respawn point, side by side. */
module PlayerRespawnModel {
  import opened Unity
  import opened PlayerHealthModel
  import opened RespawnManagerModel
  import opened PushableBoxModel

  /** The hearts both players get back on a death: 3, through the clamping setters. */
  function RestoredHearts(maxHearts: int32): (r: int32)
    ensures maxHearts >= 3 ==> r == 3
    ensures 0 <= maxHearts < 3 ==> r == maxHearts
  {
    SetHeartsValue(3, maxHearts)
  }

  /** The health-manager tag a hit is forwarded to: "Player1" stays player 1, and every
      other tag (an untagged object included) counts as player 2. */
  function ForwardedTag(playerTag: string): (t: string)
    ensures t == "Player1" || t == "Player2"
    ensures t == "Player1" <==> playerTag == "Player1"
  {
    if playerTag == "Player1" then "Player1" else "Player2"
  }

  /** The count the death check reads for this object's tag. */
  function HeartsFor(h: Hearts, playerTag: string): int32 {
    if playerTag == "Player1" then h.pigeonton else h.squeaks
  }

  /** Whether `amount` damage leaves this object's player with no hearts. */
  predicate Dies(h: Hearts, playerTag: string, amount: int32) {
    HeartsFor(TakeDamageOn(h, ForwardedTag(playerTag), amount), playerTag) <= 0
  }

  /** The heart counts after PlayerRespawn.TakeDamage. */
  function AfterHit(maxHearts: int32, h: Hearts, playerTag: string, amount: int32): (r: Hearts)
    // a death restores both players
    ensures Dies(h, playerTag, amount) ==>
              r == Hearts(RestoredHearts(maxHearts), RestoredHearts(maxHearts))
    // otherwise only the damaged player's count changes, floored at 0
    ensures !Dies(h, playerTag, amount) && playerTag == "Player1" ==>
              r == h.(pigeonton := Damaged(h.pigeonton, amount))
    ensures !Dies(h, playerTag, amount) && playerTag != "Player1" ==>
              r == h.(squeaks := Damaged(h.squeaks, amount))
  {
    var hit := TakeDamageOn(h, ForwardedTag(playerTag), amount);
    if HeartsFor(hit, playerTag) <= 0 then Hearts(RestoredHearts(maxHearts), RestoredHearts(maxHearts))
    else hit
  }

  /** With at least one heart allowed, a player is never left without hearts by a hit:
      either some remain or the reset gives them back. */
  lemma HitNeverLeavesPlayerHeartless(maxHearts: int32, h: Hearts, playerTag: string, amount: int32)
    requires maxHearts >= 1
    ensures HeartsFor(AfterHit(maxHearts, h, playerTag, amount), playerTag) > 0
  {
  }

  /** With three or more hearts allowed, a death brings both players back to three. */
  lemma DeathRestoresThree(maxHearts: int32, h: Hearts, playerTag: string, amount: int32)
    requires maxHearts >= 3 && Dies(h, playerTag, amount)
    ensures AfterHit(maxHearts, h, playerTag, amount) == Hearts(3, 3)
  {
  }

  /** Where the two players are put, relative to the respawn point. */
  const Player1Offset: Vec3 := Vec3(-1.0, 0.5, 0.0)
  const Player2Offset: Vec3 := Vec3(1.0, 0.5, 0.0)

  /** The respawned players never land on the same spot. */
  lemma SpawnSpotsDiffer(respawnPoint: Vec3)
    ensures !SameVector(Plus(respawnPoint, Player1Offset), Plus(respawnPoint, Player2Offset))
  {
    assert Minus(Plus(respawnPoint, Player1Offset), Plus(respawnPoint, Player2Offset)) ==
           Vec3(-2.0, 0.0, 0.0);
  }

  class PlayerRespawn {
    /** The health manager found at Start, this object's tag, the respawn-manager slot,
        the objects a lookup by tag finds for the two players, and the boxes a lookup by
        type finds. */
    var healthManager: PlayerHealthManager?
    var playerTag: string
    const respawns: RespawnRegistry
    const player1: Body?
    const player2: Body?
    const boxes: seq<PushableBox>

    constructor (respawns: RespawnRegistry, player1: Body?, player2: Body?, boxes: seq<PushableBox>)
      ensures this.respawns == respawns && this.player1 == player1 && this.player2 == player2
      ensures this.boxes == boxes
      ensures healthManager == null && playerTag == ""
    {
      this.respawns := respawns;
      this.player1 := player1;
      this.player2 := player2;
      this.boxes := boxes;
      healthManager := null;
      playerTag := "";
    }

    /** Records the health manager and the object's own tag. */
    method Start(foundHealthManager: PlayerHealthManager?, ownTag: string)
      modifies this`healthManager, this`playerTag
      ensures healthManager == foundHealthManager && playerTag == ownTag
    {
      healthManager := foundHealthManager;
      playerTag := ownTag;
    }

    /** The health manager and its label are at hand, and on a death the respawn
        manager is too. */
    predicate Ready(amount: int32)
      reads this, healthManager, respawns
    {
      healthManager != null && healthManager.HasLabel() &&
      (Dies(healthManager.Counts(), playerTag, amount) ==> respawns.instance != null)
    }

    method TakeDamage(amount: int32)
      requires Ready(amount)
      modifies healthManager, healthManager.healthText, healthManager.sceneLabel, player1, player2
      modifies set b | b in boxes
      ensures healthManager.maxHearts == old(healthManager.maxHearts)
      // the label drawn on is the assigned one or the scene's, and a scene label not drawn
      // on is left alone
      ensures healthManager.healthText == old(healthManager.healthText) ||
              healthManager.healthText == healthManager.sceneLabel
      ensures healthManager.sceneLabel != null && healthManager.sceneLabel != healthManager.healthText ==>
                unchanged(healthManager.sceneLabel)
      // the players' rigidbodies are left alone
      ensures player1 != null ==>
                player1.velocity == old(player1.velocity) && player1.hasRigidbody == old(player1.hasRigidbody)
      ensures player2 != null ==>
                player2.velocity == old(player2.velocity) && player2.hasRigidbody == old(player2.hasRigidbody)
      ensures healthManager.Counts() ==
              AfterHit(healthManager.maxHearts, old(healthManager.Counts()), playerTag, amount)
      ensures healthManager.HasLabel() && healthManager.Shown()
      // on a death both players go to the respawn point, side by side
      ensures Dies(old(healthManager.Counts()), playerTag, amount) ==>
                (player2 != null ==>
                   player2.position == Plus(old(respawns.instance.GetRespawnPoint()), Player2Offset)) &&
                (player1 != null && player1 != player2 ==>
                   player1.position == Plus(old(respawns.instance.GetRespawnPoint()), Player1Offset)) &&
                forall b :: b in boxes ==> b.AtStart() && b.startPos == old(b.startPos)
      // otherwise nobody moves
      ensures !Dies(old(healthManager.Counts()), playerTag, amount) ==>
                (player1 != null ==> player1.position == old(player1.position)) &&
                (player2 != null ==> player2.position == old(player2.position)) &&
                forall b :: b in boxes ==> unchanged(b)
    {
      ghost var dies := Dies(healthManager.Counts(), playerTag, amount);
      ghost var point := if respawns.instance != null then respawns.instance.GetRespawnPoint() else Zero3;
      ghost var drawnOn := healthManager.healthText;
      if playerTag == "Player1" {
        healthManager.DamagePlayer1(amount);
      } else {
        healthManager.DamagePlayer2(amount);
      }
      assert healthManager.healthText == drawnOn || healthManager.healthText == healthManager.sceneLabel;
      assert dies <==> HeartsFor(healthManager.Counts(), playerTag) <= 0;
      assert dies ==> respawns.instance != null && respawns.instance.GetRespawnPoint() == point;
      CheckIfDead();
    }

    method CheckIfDead()
      requires healthManager != null && healthManager.HasLabel() && healthManager.Shown()
      requires HeartsFor(healthManager.Counts(), playerTag) <= 0 ==> respawns.instance != null
      modifies healthManager, healthManager.healthText, healthManager.sceneLabel, player1, player2
      modifies set b | b in boxes
      ensures healthManager.maxHearts == old(healthManager.maxHearts)
      // the label drawn on is the assigned one or the scene's, and a scene label not drawn
      // on is left alone
      ensures healthManager.healthText == old(healthManager.healthText) ||
              healthManager.healthText == healthManager.sceneLabel
      ensures healthManager.sceneLabel != null && healthManager.sceneLabel != healthManager.healthText ==>
                unchanged(healthManager.sceneLabel)
      // the players' rigidbodies are left alone
      ensures player1 != null ==>
                player1.velocity == old(player1.velocity) && player1.hasRigidbody == old(player1.hasRigidbody)
      ensures player2 != null ==>
                player2.velocity == old(player2.velocity) && player2.hasRigidbody == old(player2.hasRigidbody)
      ensures HeartsFor(old(healthManager.Counts()), playerTag) <= 0 ==>
                healthManager.Counts() ==
                Hearts(RestoredHearts(healthManager.maxHearts), RestoredHearts(healthManager.maxHearts)) &&
                (player2 != null ==>
                   player2.position == Plus(old(respawns.instance.GetRespawnPoint()), Player2Offset)) &&
                (player1 != null && player1 != player2 ==>
                   player1.position == Plus(old(respawns.instance.GetRespawnPoint()), Player1Offset)) &&
                forall b :: b in boxes ==> b.AtStart() && b.startPos == old(b.startPos)
      ensures HeartsFor(old(healthManager.Counts()), playerTag) > 0 ==>
                healthManager.Counts() == old(healthManager.Counts()) &&
                (player1 != null ==> player1.position == old(player1.position)) &&
                (player2 != null ==> player2.position == old(player2.position)) &&
                forall b :: b in boxes ==> unchanged(b)
      ensures healthManager.HasLabel() && healthManager.Shown()
    {
      var currentHearts := if playerTag == "Player1" then healthManager.GetPlayer1Hearts()
                           else healthManager.GetPlayer2Hearts();
      if currentHearts <= 0 {
        RespawnBothPlayers();
      }
    }

    /** Teleports each player found to its spot beside `respawnPoint`. */
    method MovePlayers(respawnPoint: Vec3)
      modifies player1, player2
      // the players' rigidbodies are left alone
      ensures player1 != null ==>
                player1.velocity == old(player1.velocity) && player1.hasRigidbody == old(player1.hasRigidbody)
      ensures player2 != null ==>
                player2.velocity == old(player2.velocity) && player2.hasRigidbody == old(player2.hasRigidbody)
      ensures player2 != null ==> player2.position == Plus(respawnPoint, Player2Offset)
      ensures player1 != null && player1 != player2 ==> player1.position == Plus(respawnPoint, Player1Offset)
    {
      if player1 != null {
        player1.position := Plus(respawnPoint, Player1Offset);
      }
      if player2 != null {
        player2.position := Plus(respawnPoint, Player2Offset);
      }
    }

    method RespawnBothPlayers()
      requires healthManager != null && healthManager.HasLabel() && respawns.instance != null
      modifies healthManager, healthManager.healthText, healthManager.sceneLabel, player1, player2
      modifies set b | b in boxes
      ensures healthManager.maxHearts == old(healthManager.maxHearts)
      // the label drawn on is the assigned one or the scene's, and a scene label not drawn
      // on is left alone
      ensures healthManager.healthText == old(healthManager.healthText) ||
              healthManager.healthText == healthManager.sceneLabel
      ensures healthManager.sceneLabel != null && healthManager.sceneLabel != healthManager.healthText ==>
                unchanged(healthManager.sceneLabel)
      // the players' rigidbodies are left alone
      ensures player1 != null ==>
                player1.velocity == old(player1.velocity) && player1.hasRigidbody == old(player1.hasRigidbody)
      ensures player2 != null ==>
                player2.velocity == old(player2.velocity) && player2.hasRigidbody == old(player2.hasRigidbody)
      ensures healthManager.Counts() ==
              Hearts(RestoredHearts(healthManager.maxHearts), RestoredHearts(healthManager.maxHearts))
      ensures healthManager.HasLabel() && healthManager.Shown()
      ensures player2 != null ==>
                player2.position == Plus(old(respawns.instance.GetRespawnPoint()), Player2Offset)
      ensures player1 != null && player1 != player2 ==>
                player1.position == Plus(old(respawns.instance.GetRespawnPoint()), Player1Offset)
      // and every box is stopped and back where it started
      ensures forall b :: b in boxes ==> b.AtStart() && b.startPos == old(b.startPos)
    {
      ghost var point := respawns.instance.GetRespawnPoint();
      healthManager.SetPlayer1Hearts(3);
      healthManager.SetPlayer2Hearts(3);
      var respawnPoint := respawns.instance.GetRespawnPoint();
      assert respawnPoint == point;
      ghost var text := healthManager.healthText.text;
      MovePlayers(respawnPoint);
      ResetBoxes(boxes);
      assert healthManager.healthText.text == text;
    }
  }
}
