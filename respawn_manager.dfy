/** The respawn point: the last checkpoint, else the default spawn point, else the
    origin. A checkpoint is "set" when it differs from the origin by Vector3's equality,
    so a checkpoint at (or within the equality tolerance of) the origin counts as unset. */
module RespawnManagerModel {
  import opened Unity

  /** GetRespawnPoint's choice, given the stored checkpoint and the default spawn point's
      position (None when no default spawn point is assigned). */
  function SelectRespawnPoint(checkpoint: Vec3, defaultSpawn: Option<Vec3>): (r: Vec3)
    ensures !SameVector(checkpoint, Zero3) ==> r == checkpoint
    ensures SameVector(checkpoint, Zero3) && defaultSpawn.Some? ==> r == defaultSpawn.value
    ensures SameVector(checkpoint, Zero3) && defaultSpawn.None? ==> r == Zero3
  {
    if !SameVector(checkpoint, Zero3) then checkpoint
    else if defaultSpawn.Some? then defaultSpawn.value
    else Zero3
  }

  /** The point always comes from one of the three sources. */
  lemma RespawnPointHasASource(checkpoint: Vec3, defaultSpawn: Option<Vec3>)
    ensures var r := SelectRespawnPoint(checkpoint, defaultSpawn);
            r == checkpoint || (defaultSpawn.Some? && r == defaultSpawn.value) || r == Zero3
  {
  }

  /** A checkpoint within the equality tolerance of the origin (the origin itself among
      them) behaves exactly like no checkpoint: the choice falls back to the default. */
  lemma OriginCheckpointIsUnset(checkpoint: Vec3, defaultSpawn: Option<Vec3>)
    requires SameVector(checkpoint, Zero3)
    ensures SelectRespawnPoint(checkpoint, defaultSpawn) == SelectRespawnPoint(Zero3, defaultSpawn)
    ensures SelectRespawnPoint(checkpoint, defaultSpawn) ==
            (if defaultSpawn.Some? then defaultSpawn.value else Zero3)
  {
    assert SameVector(Zero3, Zero3);
  }

  /** A checkpoint at a small but nonzero offset from the origin is still ignored. */
  lemma TinyCheckpointIsIgnored()
    ensures SelectRespawnPoint(Vec3(0.000001, 0.0, 0.0), None) == Zero3
  {
    var offset := Vec3(0.000001, 0.0, 0.0);
    assert Minus(offset, Zero3) == offset;
    assert SqrMagnitude(offset) == 0.000000000001;
    assert 0.000000000001 < 0.00001 * 0.00001;
  }

  /** The static RespawnManager.Instance slot. */
  class RespawnRegistry {
    var instance: RespawnManager?
    constructor ()
      ensures instance == null
    {
      instance := null;
    }
  }

  class RespawnManager {
    /** The default spawn point's position, or None when it is not assigned. */
    var defaultSpawnPoint: Option<Vec3>
    var activeCheckpoint: Vec3
    /** Set when Awake finds another instance and destroys this one. */
    var destroyed: bool

    constructor (defaultSpawnPoint: Option<Vec3>)
      ensures this.defaultSpawnPoint == defaultSpawnPoint
      ensures activeCheckpoint == Zero3 && !destroyed
    {
      this.defaultSpawnPoint := defaultSpawnPoint;
      activeCheckpoint := Zero3;
      destroyed := false;
    }

    /** Only the first instance is kept; a later one destroys itself. */
    method Awake(registry: RespawnRegistry)
      modifies registry, this`destroyed
      ensures old(registry.instance) != null && old(registry.instance) != this ==>
                registry.instance == old(registry.instance) && destroyed
      ensures old(registry.instance) == null || old(registry.instance) == this ==>
                registry.instance == this && destroyed == old(destroyed)
    {
      if registry.instance != null && registry.instance != this {
        destroyed := true;
        return;
      }
      registry.instance := this;
    }

    /** After storing a checkpoint away from the origin, it is the respawn point. */
    method SetCheckpoint(position: Vec3)
      modifies this`activeCheckpoint
      ensures activeCheckpoint == position
      ensures !SameVector(position, Zero3) ==> GetRespawnPoint() == position
      ensures SameVector(position, Zero3) ==>
                GetRespawnPoint() == (if defaultSpawnPoint.Some? then defaultSpawnPoint.value else Zero3)
    {
      activeCheckpoint := position;
    }

    /** The respawn point for the current checkpoint and default spawn point. */
    function GetRespawnPoint(): (r: Vec3)
      reads this
      ensures !SameVector(activeCheckpoint, Zero3) ==> r == activeCheckpoint
      ensures SameVector(activeCheckpoint, Zero3) && defaultSpawnPoint.Some? ==> r == defaultSpawnPoint.value
      ensures SameVector(activeCheckpoint, Zero3) && defaultSpawnPoint.None? ==> r == Zero3
    {
      SelectRespawnPoint(activeCheckpoint, defaultSpawnPoint)
    }
  }
}
