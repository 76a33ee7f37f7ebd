// The platformer's game state and player respawn: the player spawns at
// (0, 20, 0), which is also the first checkpoint, and a player who falls
// below y = -100 is put back on the current checkpoint.

module Movement {
  import opened Vectors

  const SpawnPoint: Vec3 := Vec3(0.0, 20.0, 0.0)
  const RespawnYThreshold: real := -100.0

  /// The `GameState` resource: gems collected and the checkpoint.
  class GameState {
    var gemsCollected: nat
    var currentCheckpoint: Vec3

    /// `GameState::new`: no gems, the checkpoint at the spawn point.
    constructor()
      ensures gemsCollected == 0 && currentCheckpoint == Vec3(0.0, 20.0, 0.0)
    {
      gemsCollected := 0;
      currentCheckpoint := SpawnPoint;
    }
  }

  /// The player's transform.
  class Player {
    var translation: Vec3

    constructor(t: Vec3)
      ensures translation == t
    {
      translation := t;
    }
  }

  /// Where the respawn check leaves a player at `p`.
  function Respawned(p: Vec3, checkpoint: Vec3): (r: Vec3)
    ensures p.y < -100.0 ==> r == checkpoint
    ensures p.y >= -100.0 ==> r == p
  {
    if p.y < RespawnYThreshold then checkpoint else p
  }

  /// A second check right after the first changes nothing, unless the
  /// checkpoint itself is below the threshold.
  lemma RespawnIdempotent(p: Vec3, checkpoint: Vec3)
    requires checkpoint.y >= -100.0
    ensures Respawned(Respawned(p, checkpoint), checkpoint) == Respawned(p, checkpoint)
    ensures Respawned(p, checkpoint).y >= -100.0
  {
  }

  /// `spawn_player`.
  method SpawnPlayer(player: Player)
    modifies player
    ensures player.translation == Vec3(0.0, 20.0, 0.0)
  {
    player.translation := SpawnPoint;
  }

  /// `check_player_respawn`: reads the game state and writes only the
  /// player's translation.
  method CheckPlayerRespawn(player: Player, state: GameState)
    modifies player
    ensures player.translation == Respawned(old(player.translation), state.currentCheckpoint)
    ensures state.gemsCollected == old(state.gemsCollected) && state.currentCheckpoint == old(state.currentCheckpoint)
  {
    if player.translation.y < RespawnYThreshold {
      player.translation := state.currentCheckpoint;
    }
  }
}
