# Platformer frame simulation in Dafny

This project models the per-frame simulation of a small PyQt 2D platformer:
the player controller (`game/player.py`), the patrolling enemy
(`game/enemy.py`), the sword hitbox (`game/sword.py`) and the scene
controller (`game/game_scene.py`) that owns them and runs one frame in a
fixed order:
1. the attack cooldown;
2. the held A/D keys;
3. the player's update;
4. the enemies, with contact damage and push-back;
5. the swords, each killing at most one enemy;
6. coin pickup;
7. the level-complete check.

The model has two layers.

- **Values.** `PlayerState`, `EnemyState`, `SwordState` and `World` are
  datatypes. Pure functions (`PlayerStep`, `EnemyStep`, `Tick`, `Step`,
  `LevelLoaded`, `Attacked`, ...) say what each operation does to them. The
  lemmas (bounds, clamps, counters, the patrol's turning points, the sword
  lifetime, the one-sword invariant, the score bookkeeping) are proved about
  these functions.
- **Objects.** The classes `Player`, `Enemy`, `Sword` and `GameScene` have the
  source's mutable fields. Their methods work as the source does: in place,
  with loops over platforms and over snapshot copies of the enemy, sword and
  coin lists, removing items from the live lists. Each method is proved to
  leave its object in exactly the state the value function gives:
  `State() == EnemyStep(old(State()), platforms)`,
  `Snapshot() == Step(old(Snapshot()))`, and so on. `GameScene.UpdateScene`
  and the input handlers also keep the invariant `Valid()`: distinct objects
  in the lists, and the between-frame invariant `Inv`.

Further details of the model:

- **Coordinates and numbers.** Positions and speeds are `real`. Every
  constant in the source is dyadic, so `real` arithmetic matches the
  source's doubles exactly. Health, counters and `direction` are `int`.
- **Overlap.** Qt's `collidesWithItem` is modelled as a strict axis-aligned
  box overlap (`Geometry.Overlaps`). Boxes that only share an edge do not
  overlap.
- **Restarts mid-call.** `Player.take_damage` restarts the level from inside
  the call. Here it returns a `died` flag, and the scene calls
  `RestartLevel` at once. With frames run one at a time, this gives the
  same final state, because `load_level` and `reset_position` put the player
  at the same spawn point.
- **A restart in the middle of the enemy loop.** The source keeps iterating
  over its snapshot copy: the remaining old enemies are still updated and
  can still touch the player, although they are no longer in the list.
  `SceneRules.EnemiesFrom` tracks this with its `restarted` flag.
- **Game-window hooks.** The hooks the scene calls on the game window and
  the statistics store are counters in the `Hooks` value:
  - `add_score`, `add_coin_collected`, `add_enemy_killed`;
  - `lose_life`, and the death record;
  - `level_complete`, and the completion record.

Two points of the code are easy to misread:

- **When an enemy turns.** A speed of 2 and a patrol distance of 100 suggest
  a turn after 50 updates. The code tests `abs(x - start_x) > 100` after the
  move, so the first turn comes on the 51st update, at offset 102
  (`Enemies.FirstTurnOnFiftyFirstUpdate`).
- **A sword that hits.** A hit does not consume the sword: it stays in the
  list until its frames run out (`SceneFacts.SwordKillsScored`).

## Model

| member | source | states |
|---|---|---|
| Lists.RemoveFirst | game/game_scene.py:159 | `list.remove` of an item the list holds (Python raises `ValueError` otherwise, so the item is required to be present): one occurrence goes (length one less), and nothing new appears |
| Lists.RemoveFirstAt | game/game_scene.py:142 | removing an item from the list that holds it once after a prefix without it leaves exactly the prefix followed by the rest |
| Geometry.Overlaps | game/player.py:70 | `collidesWithItem` as a strict box overlap; no ensures, it is the definition the other contracts are stated with |
| Geometry.FirstOverlap | game/enemy.py:37-40 | a scan stopping at its first hit: it finds an overlapping index with no overlap before it, or none exactly when nothing overlaps |
| Players.AttackTick | game/player.py:49-53 | while attacking the counter rises by one, and passing 10 ends the attack and resets the counter; when not attacking nothing changes |
| Players.AttackRunsTenFrames | game/player.py:49-53 | after `attack_animation`, each of the next ten updates leaves the attack on, the counter equal to the number of updates so far |
| Players.AttackEndsOnEleventhFrame | game/player.py:49-53 | the eleventh update after `attack_animation` clears `is_attacking` and resets `attack_frame` to 0 |
| Players.Fall | game/player.py:56-60 | the new fall speed is never above 15 nor above the old one plus gravity, and is one of the two |
| Players.SnapTo | game/player.py:70-79 | one platform check; no ensures of its own, its cases are stated by `CollideFirstMatch` and `CollideAtRest` |
| Players.Collide | game/player.py:67-79 | the platform checks only ever keep `velocity_y` or zero it, and never clear an on-ground flag they set |
| Players.CollideAtRest | game/player.py:69-79 | once `velocity_y` is 0, no further platform changes y, speed or on-ground: later overlaps are ignored after a snap |
| Players.CollideFirstMatch | game/player.py:67-79 | only the first overlapping platform in list order counts: landing puts the bottom on its top with on-ground set; a head bump puts the top under its bottom; speed 0 or no overlap changes nothing |
| Players.MovedLeft | game/player.py:92-100 | x becomes max(x - 5, 0); nothing else changes |
| Players.MovedRight | game/player.py:102-110 | x becomes min(x + 5, 760); nothing else changes |
| Players.ClampX | game/player.py:81-85 | the result lies in [0, 760]: an x below 0 becomes 0, one above 760 becomes 760, and an x already inside is kept |
| Players.Jumped | game/player.py:118-122 | from the ground: speed -12 and off the ground; in the air: no change; keeps the player invariant |
| Players.Damage | game/player.py:130-139 | the player dies exactly when health - d <= 0, and health is then 0; otherwise health drops by exactly d; health is never negative |
| Players.Physics | game/player.py:47-85 | after the physics part of `update`: fall speed at most 15, x in [0, 760], health unchanged, attack counter advanced by one tick |
| Players.FellOut | game/player.py:87-90 | below y = 600: 50 damage and back to (50, 400) at rest, with a restart exactly when that damage kills; otherwise nothing changes |
| Players.PlayerStep | game/player.py:47-90 | after `update`: fall speed at most 15, x in [0, 760], health 0 when a restart is due, and the player invariant (health 0..100, counter 0..10) kept |
| Players.Player.constructor | game/player.py:17-33 | a new player is at (50, 400), at rest, not on the ground, with 100 health and no attack |
| Players.Player.Update | game/player.py:47-90 | the fields after `update` and the restart flag are exactly `PlayerStep` of the fields before |
| Players.Player.CheckPlatforms | game/player.py:67-79 | the platform loop leaves y, speed and on-ground exactly as `Collide` says, starting from on-ground cleared |
| Players.Player.MoveLeft | game/player.py:92-100 | the fields become `MovedLeft` of the old ones |
| Players.Player.MoveRight | game/player.py:102-110 | the fields become `MovedRight` of the old ones |
| Players.Player.Jump | game/player.py:118-122 | the fields become `Jumped` of the old ones |
| Players.Player.AttackAnimation | game/player.py:124-127 | the attack starts with the counter at 0, and nothing else changes |
| Players.Player.TakeDamage | game/player.py:130-139 | health becomes `Damage`'s value and `died` is `Damage`'s flag; nothing else changes |
| Players.Player.ResetPosition | game/player.py:141-144 | the player is back at (50, 400) with no vertical speed; nothing else changes |
| Enemies.Placed | game/enemy.py:17-26 | a new enemy patrols from where it stands, heading right, inside the patrol invariant |
| Enemies.Patrol | game/enemy.py:30-33 | x moves by exactly 2 x direction; direction is kept or negated, and negated exactly when the new offset from `start_x` exceeds 100; y and `start_x` unchanged; the patrol invariant (direction +-1, offset within 102) is kept |
| Enemies.WalksOutFromPlacement | game/enemy.py:28-33 | a placed enemy walks right 2 per update for its first 50 updates without turning |
| Enemies.FirstTurnOnFiftyFirstUpdate | game/enemy.py:32-33 | the first turn happens on the 51st update, at offset 102 |
| Enemies.NoTurnAfterRightTurn | game/enemy.py:28-33 | after turning past the right bound, the next 100 updates all walk left: no oscillation at the boundary |
| Enemies.NoTurnAfterLeftTurn | game/enemy.py:28-33 | after turning past the left bound, the next 100 updates all walk right |
| Enemies.EnemyStep | game/enemy.py:28-40 | the patrol move; y falls by 0.5 unless the moved box overlaps a platform, and then sits on the first overlapping platform in list order; the patrol invariant is kept |
| Enemies.Enemy.constructor | game/enemy.py:17-26 | the fields of a new enemy are `Placed` at its position |
| Enemies.Enemy.Update | game/enemy.py:28-40 | the fields after `update` are exactly `EnemyStep` of the fields before |
| Swords.Spawn | game/sword.py:16-29 | a right-facing sword's left edge is at the player's right side, a left-facing sword's right edge at the player's left side, 20 below the player's top, frame count 0, active |
| Swords.Tick | game/sword.py:31-33 | one update: the frame count rises by exactly one and nothing else changes |
| Swords.SwordState.Active | game/sword.py:36-38 | `is_active` on the value; no ensures, `Lifetime` states when it holds (exactly the first 10 frames) |
| Swords.Lifetime | game/sword.py:29-34 | after n updates a spawned sword is n frames old at the same place and facing, and is active exactly for n < 10 |
| Swords.Sword.constructor | game/sword.py:16-29 | the fields of a new sword are `Spawn` of the player position and facing |
| Swords.Sword.IsActive | game/sword.py:36-38 | `is_active` on the object; no ensures, `Sword.Update` states that its result equals it |
| Swords.Sword.Update | game/sword.py:31-34 | the frame count rises by exactly one and nothing else changes; the result equals `is_active` afterwards |
| SceneRules.LevelLoaded | game/game_scene.py:47-101 | `load_level` on the value; no ensures, the facts are in `LevelLoadedLayout` |
| SceneRules.LevelLoadedLayout | game/game_scene.py:47-101 | every level has 7 platforms (ground first), 3 enemies each placed at its spot inside the patrol invariant, 6 coins and no sword; player at (50, 400) at rest with 100 health; `current_level` is n; cooldown, keys and counters kept |
| SceneRules.Restarted | game/game_scene.py:103-115 | one death and one life lost, and the current level loaded again; nothing else changes |
| SceneRules.Initial | game/game_scene.py:22-45 | the scene starts at level 1 with no cooldown, no key held, the window's start counters, a freshly spawned player and no sword |
| SceneRules.KeyPressed | game/game_scene.py:168-173 | the key is added to the held keys; Space also jumps; nothing else changes |
| SceneRules.KeyReleased | game/game_scene.py:175-182 | the key is no longer held; nothing else changes |
| SceneRules.Attacked | game/game_scene.py:189-201 | a positive cooldown makes the attack a no-op; otherwise exactly one sword is appended, facing left exactly when A is held, with the cooldown set to 20 and the attack animation started |
| SceneRules.MousePressed | game/game_scene.py:184-187 | the left button attacks, and any other button does nothing |
| SceneRules.CooledDown | game/game_scene.py:119-120 | the cooldown drops by one when positive and is kept otherwise; nothing else changes |
| SceneRules.HeldKeysApplied | game/game_scene.py:123-126 | only the player's x changes: A alone gives `MovedLeft`, D alone `MovedRight`, both give `MovedLeft` then `MovedRight`, neither leaves the player as it was |
| SceneRules.PlayerMoved | game/game_scene.py:128 | the player's update, followed by a restart exactly when it killed the player |
| SceneRules.Pushed | game/game_scene.py:134-137 | the push is exactly 30, to the left exactly when the player is left of the enemy |
| SceneRules.Contact | game/game_scene.py:132-137 | no overlap: nothing happens; overlap: 10 damage and a push of 30 away from the enemy, and when the damage kills, a restart and then the push from the spawn point |
| SceneRules.EnemiesFrom | game/game_scene.py:130-137 | the enemy loop changes neither the cooldown, the keys nor the level; among the counters only lives and deaths change, one life per death |
| SceneRules.EnemiesMoved | game/game_scene.py:130-137 | the whole enemy loop; no ensures, the facts are in `EnemiesFrom` and `EnemiesFromKeepsMidInv` |
| SceneRules.Strike | game/game_scene.py:145-154 | a live sword removes only the first enemy in list order that it overlaps, and scores 50 and one kill for it; no overlap changes nothing |
| SceneRules.SwordsFrom | game/game_scene.py:139-154 | the sword loop from one snapshot slot on; no ensures, the facts are in `SwordKillsScored` |
| SceneRules.SwordsMoved | game/game_scene.py:139-154 | the whole sword loop; no ensures, the facts are in `SwordKillsScored` |
| SceneRules.Uncollected | game/game_scene.py:156-163 | the coins left after the coin loop, never more than before; which coins they are is stated by `UncollectedExactly` |
| SceneRules.CoinsCollected | game/game_scene.py:156-163 | the touched coins are removed, in order, with 10 points and one coin event each; nothing else changes |
| SceneRules.LevelCompleted | ui/game_window.py:172-184 | the window's level goes up by one, one completion is recorded, and that level is loaded |
| SceneRules.LevelChecked | game/game_scene.py:165-166 | the level completes exactly when no coin and no enemy is left; otherwise nothing changes |
| SceneRules.Step | game/game_scene.py:117-166 | one whole frame, the phases in source order; no ensures, the facts are in `StepKeepsInv` and `StepCountsDown` |
| SceneFacts.ContactKeepsMidInv | game/game_scene.py:130-137 | a contact keeps health in [0, 100] and the patrol invariant, also when it restarts the level |
| SceneFacts.EnemiesFromKeepsMidInv | game/game_scene.py:130-137 | the whole enemy loop keeps the in-frame invariant, with or without a restart on the way |
| SceneFacts.SwordKillsScored | game/game_scene.py:139-154 | the sword loop keeps exactly the swords still active, whether or not they hit; it kills at most one enemy per live sword, 50 points and one kill event per kill; enemies are only removed; nothing else changes |
| SceneFacts.UncollectedExactly | game/game_scene.py:156-163 | a coin stays exactly when it was there and the player does not touch it |
| SceneFacts.CoinLoopStep | game/game_scene.py:156-159 | one more coin in the loop: a touched coin is removed from the live list and not kept; an untouched one is kept |
| SceneFacts.LiveSwordsKeepInv | game/game_scene.py:139-143 | a sword that survives its update still satisfies the between-frame sword invariant against the lowered cooldown |
| SceneFacts.CooledDownMidInv | game/game_scene.py:119-120 | the cooldown tick turns the between-frame invariant into the in-frame one |
| SceneFacts.PlayerPhaseMidInv | game/game_scene.py:119-128 | the cooldown tick, the held keys and the player's update turn the between-frame invariant into the in-frame one |
| SceneFacts.SwordPhaseInv | game/game_scene.py:139-166 | the swords, the coins and the level-complete check turn the in-frame invariant back into the between-frame one |
| SceneFacts.StepKeepsInv | game/game_scene.py:117-166 | a frame keeps the invariant: cooldown >= 0, health 0..100, attack counter 0..10, fall speed <= 15, every enemy direction +-1 with offset within 102, at most one sword, aged below 10 with age + cooldown = 20 |
| SceneFacts.StepCountsDown | game/game_scene.py:119-120 | each frame lowers a positive cooldown by exactly one and leaves 0 at 0 |
| SceneFacts.AttackedKeepsInv | game/game_scene.py:189-201 | an attack keeps the invariant, and with the cooldown at 0 it leaves exactly one sword |
| SceneFacts.InputKeepsInv | game/game_scene.py:168-187 | key presses, key releases and mouse presses keep the invariant |
| SceneFacts.InitialInv | game/game_scene.py:22-45 | the scene starts out satisfying the invariant |
| Scenes.GameScene.constructor | game/game_scene.py:22-45 | the new scene is `Initial()` and valid |
| Scenes.GameScene.LoadLevel | game/game_scene.py:47-101 | the scene becomes `LevelLoaded` of the old one, with fresh distinct enemies and no sword |
| Scenes.GameScene.AddPlatforms | game/game_scene.py:74-86 | the platform list becomes the ground followed by the six ledges |
| Scenes.GameScene.AddEnemies | game/game_scene.py:88-92 | the enemy list becomes three fresh distinct enemies placed at the level's spots |
| Scenes.GameScene.AddCoins | game/game_scene.py:94-101 | the coin list becomes the level's six coins |
| Scenes.GameScene.RestartLevel | game/game_scene.py:103-115 | the scene becomes `Restarted` of the old one |
| Scenes.GameScene.LevelComplete | ui/game_window.py:172-184 | the scene becomes `LevelCompleted` of the old one |
| Scenes.GameScene.UpdateScene | game/game_scene.py:117-166 | one frame turns the scene into `Step` of the old one and keeps it valid |
| Scenes.GameScene.MovePlayer | game/game_scene.py:119-128 | cooldown tick, held keys and the player's update, with a restart when it killed the player |
| Scenes.GameScene.ApplyHeldKeys | game/game_scene.py:119-126 | the cooldown tick and the held-key moves, and nothing else |
| Scenes.GameScene.UpdateEnemies | game/game_scene.py:130-137 | the loop over the enemy snapshot leaves the scene as `EnemiesMoved` says, restarts included |
| Scenes.GameScene.EnemyTurn | game/game_scene.py:131-137 | one snapshot enemy's update and contact advance the enemy loop by one step |
| Scenes.GameScene.MoveEnemy | game/game_scene.py:131 | one enemy's update shows up in its slot when it is still listed, and nowhere otherwise |
| Scenes.GameScene.EnemyContact | game/game_scene.py:132-137 | the contact with one enemy changes the scene exactly as `Contact` says |
| Scenes.GameScene.UpdateSwords | game/game_scene.py:139-154 | the loop over the sword snapshot leaves the scene as `SwordsMoved` says |
| Scenes.GameScene.SwordTurn | game/game_scene.py:140-154 | one snapshot sword: an expired one is removed from the live list, a live one strikes and stays |
| Scenes.GameScene.Slash | game/game_scene.py:145-154 | one live sword changes the scene exactly as `Strike` says |
| Scenes.GameScene.KillFirstHit | game/game_scene.py:145-154 | the scan removes the first enemy the box overlaps and scores it, or changes nothing |
| Scenes.GameScene.CollectCoins | game/game_scene.py:156-163 | the scene becomes `CoinsCollected` of the old one |
| Scenes.GameScene.PickUpCoins | game/game_scene.py:156-163 | the coin loop leaves exactly the untouched coins, with 10 points and one coin event per touched coin |
| Scenes.GameScene.CheckLevelComplete | game/game_scene.py:165-166 | the scene becomes `LevelChecked` of the old one |
| Scenes.GameScene.HandleKeyPress | game/game_scene.py:168-173 | the scene becomes `KeyPressed` of the old one, still valid |
| Scenes.GameScene.HandleKeyRelease | game/game_scene.py:175-182 | the scene becomes `KeyReleased` of the old one, still valid |
| Scenes.GameScene.HandleMousePress | game/game_scene.py:184-187 | the scene becomes `MousePressed` of the old one, still valid |
| Scenes.GameScene.SwordAttack | game/game_scene.py:189-201 | the scene becomes `Attacked` of the old one, still valid |

## Left out

- Rendering: `addItem`/`removeItem`, brushes, pens and `update_color`'s health colours. They are visual only.
- Qt hit-testing details: the 2-pixel pen that widens every shape, and the round shape of the coin ellipse. Every overlap is a strict box test.
- Floating-point rounding. Positions are `real`, which is exact for the source's dyadic constants.
- The message boxes of `restart_level` and `level_complete`, the window's timers, pause and clock, and `game_over` when lives reach 0. Lives may go to 0 or below in the model; what the window does then is not modelled.
- The message boxes are modal: they run a nested Qt event loop, during which the game timer can call `update_scene` again before `load_level` has run. That could repeat a death (and a lost life) or a `level_complete` call. The model runs one frame at a time to completion, so its statement that a restart from inside `take_damage` ends in the same state as the scene's own restart holds only under that one-frame-at-a-time reading.
- The statistics store (`database/db_manager.py`) is not part of this model. Its `add_death`, `add_kill`, `add_coin` and `increment_level_completions` calls are counters in `Hooks`. The per-level key of the completion record is dropped.
- `current_player`, `stop_horizontal` (it does nothing) and the unused `velocity_x` field.
- The window's UI labels and `update_ui`. Only the counters they show are modelled.
- No separate lemma says that `start_x`, a sword's position and facing, and the sizes of every entity never change: they are `const` fields and constants here, so the types already guarantee it.
- Qt key codes: keys are `KeyA`, `KeyD`, `KeySpace` or another key, and mouse buttons are left or other.
