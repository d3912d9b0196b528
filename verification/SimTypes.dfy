/**
 The simulator's plain data.  The scalar type is a parameter: the archive stores the bit patterns of floats,
 the prediction, interpolation and rewind code computes with real numbers.
 */
module SimTypes {
  import opened Words

  datatype Vec3<F> = Vec3(x: F, y: F, z: F)

  datatype PlayerState<F> = PlayerState(
    playerId: I32,
    position: Vec3<F>,
    velocity: Vec3<F>,
    yaw: F,
    pitch: F,
    health: F,
    maxHealth: F,
    weaponCooldownRemaining: F,
    jumpsUsed: I32,
    grounded: bool)

  datatype RemoteActorState<F> = RemoteActorState(
    entityId: I32,
    position: Vec3<F>,
    velocity: Vec3<F>,
    yaw: F,
    pitch: F,
    health: F,
    radius: F,
    alive: bool)

  datatype SimConfig<F> = SimConfig(
    playerEyeHeight: F,
    playerMoveSpeed: F,
    playerJumpVelocity: F,
    playerGravity: F,
    playerMaxJumps: I32,
    playerRadius: F,
    playerCollisionHeight: F,
    minPitch: F,
    maxPitch: F,
    playerMaxHealth: F,
    enemyRadius: F,
    enemyMaxHealth: F,
    weaponCooldownSeconds: F,
    weaponDamage: F,
    weaponRange: F,
    arenaHalfSize: F)
}
