# Platformer level scene — a Dafny model

This project models the gameplay scene `Game` of a small Phaser platformer
(`src/scenes/Game.js`) with the engine taken away. The scene is a
class whose fields are the state its handlers change in place:

- the score;
- the three scroll/letter flags `scrollUnlocked`, `scrollOpen` and `letterVisible`;
- whether the physics simulation is paused;
- the player's tint (none, gray, red);
- the 12 stars, as an array of records (active flag, x, y);
- the bombs released so far, in order;
- the scene starts scheduled by `time.delayedCall`.

The handlers are the class's methods. They are called as the engine would call them:

- `CollectStar` for the overlap of the player with a star;
- `HitBomb` for a collision with a bomb;
- `HandleScrollClick` and `CloseLetter` for pointer-down on the scroll and on the letter;
- `Update` once per frame, given the keys held and the player's `blocked.down`.

Files and modules:

- `pickups.dfy` (`Pickups`): the star record, the grid the group lays the stars on, and the active count (`countActive(true)`) with its lemmas.
- `hazards.dfy` (`Hazards`): the bomb record and the spawn range that keeps a new bomb out of the player's half.
- `scene.dfy` (`Scene`): the `Game` class, its invariant `Valid()`, the round invariant `InCycle()` and the handlers.
- `scenarios.dfy` (`Scenarios`): client methods that drive the scene through whole plays. Examples are ten stars then reading the letter, a full round of twelve stars, and a bomb hit.

Engine calls are treated as follows:

- Cosmetic calls become state or disappear. These are `setTexture`, the pulse tween, `scoreText.setText`, `anims.play` and `setVisible`.
- Opening the scroll and starting its pulse is counted in the field `pulses`.
- The player's movement calls are the `PlayerCommand` values that `Update` returns.
- `Phaser.Math.Between` draws are nondeterministic choices (`:|`) within the inclusive integer range the source gives.
- The player's x-coordinate belongs to the physics, so it is a parameter of `CollectStar` and `ReleaseBomb`.

Invariants kept by every handler (`Scene.Game.Valid`):

- the score is 10 times the number of `collectStar` calls;
- `scrollOpen == scrollUnlocked`, and both hold exactly when the score is at least 100;
- the letter is only visible over an open scroll;
- the pulse was started once if the scroll is unlocked, and never otherwise;
- every star stays in its grid column, and at least one is active;
- every bomb was released at height 16, with drift 20 and bounce 1.

`InCycle` adds the round structure. While every collected star was active when it was collected:

- the number of bombs is the number of completed rounds of 12;
- the active count is what remains of the current round.

Where the code and the design description of the system differ, the model follows the code:

- `collectStar` has no guard against a star that is already inactive. The design calls such a repeated callback a no-op. The model adds 10 points as the code does. The round invariant is promised only when the collected star was active.
- The comment above the unlock says "300+", while the code tests `score >= 100`. The model uses 100.
- The score is never reset when the stars respawn.
- The design describes touch and long-press input. The scene has keyboard input only, so `Update` takes the four key and ground flags.
- The design says nothing moves during the 2000 ms before the game-over scene starts. In the code, `closeLetter` resumes the physics and clears the tint unconditionally, so with the scroll open, hit then click-scroll then click-letter resumes the physics while the game-over start is still pending. `Scenarios.HitThenLetter` proves this sequence. The model keeps the code's behaviour.

## Model

| member | source | states |
|---|---|---|
| Scene.Game.constructor | src/scenes/Game.js:25-56 | score 0; scroll locked and closed; letter hidden; physics running with no tint; no bombs; stars 0..11 active at x = 12 + 70·k, y = 0; the invariant and the round invariant hold |
| Pickups.StarX | src/scenes/Game.js:52-56 | the k-th star's x is at least 12 and each star stands 70 to the right of the previous one |
| Pickups.ActiveCount | src/scenes/Game.js:126 | the active count of a group is never larger than the group |
| Pickups.NoneActive | src/scenes/Game.js:126 | the active count is 0 exactly when no star is active |
| Pickups.AllActive | src/scenes/Game.js:127-129 | the active count equals the group size exactly when every star is active |
| Pickups.ActiveCountUpdate | src/scenes/Game.js:107 | replacing one star changes the active count by the difference of the old and new star's activity |
| Pickups.DeactivateCount | src/scenes/Game.js:107 | disabling an active star lowers the active count by one; disabling an inactive star leaves it unchanged |
| Scene.Deactivated | src/scenes/Game.js:107 | after `disableBody`, star i is inactive at the same position and every other star is unchanged |
| Scene.FullLayoutCount | src/scenes/Game.js:127-129 | after the group is re-enabled, all 12 stars are active |
| Scene.Game.Update | src/scenes/Game.js:71-83 | the first command is MoveLeft iff left is held; MoveRight iff right is held and left is not; Idle iff neither is held; Jump is issued, as the second command, iff up is held and the player is blocked below |
| Scene.Game.HandleScrollClick | src/scenes/Game.js:86-90 | the letter is shown (paused, gray) exactly when the scroll is open and the letter hidden; otherwise pause and tint are unchanged; score, scroll flags, bombs and transitions never change |
| Scene.Game.ShowLetter | src/scenes/Game.js:92-97 | letter visible, physics paused, player gray; the rest is unchanged and the invariant is kept |
| Scene.Game.CloseLetter | src/scenes/Game.js:99-104 | letter hidden, physics running, tint cleared, whatever the state was; the rest is unchanged |
| Scene.Game.CollectStar | src/scenes/Game.js:106-132 | score +10. The scroll is unlocked iff it was already unlocked or the score reached 100; once unlocked it stays unlocked. The pulse starts only on the unlocking call. If the collection leaves no star active, all 12 are re-enabled at their columns with y = 0 and exactly one bomb is appended; otherwise only star i changes (disabled) and the bombs are unchanged. The invariant is kept, and the round invariant too when the star was active |
| Scene.Game.DisableStar | src/scenes/Game.js:107 | the stars become `Deactivated(old stars, i)` |
| Scene.Game.AwardPoints | src/scenes/Game.js:108-124 | score +10; unlock and open the scroll once, the first time the score reaches 100; keeps the scroll invariant |
| Scene.Game.RespawnStars | src/scenes/Game.js:127-129 | every star is active again, at its own column and at y = 0 |
| Scene.RoundStep | src/scenes/Game.js:126-131 | collecting an active star either leaves one star fewer in the current round or completes the round, which adds one to the number of completed rounds |
| Scene.Game.HitBomb | src/scenes/Game.js:134-141 | paused, tinted red, exactly one `GameOver` start with delay 2000 appended; score, scroll and letter flags, bombs unchanged |
| Scene.Game.ReleaseBomb | src/scenes/Game.js:143-151 | exactly one bomb is appended and the earlier bombs are kept. Its x lies in the half opposite the player, y = 16, vx ∈ [-200, 200], vy = 20 and bounce 1 |
| Hazards.SpawnRange | src/scenes/Game.js:144-146 | the spawn range lies within [0, 800] and is half the level wide. It lies right of the midpoint when the player is left of 400, and left of it otherwise. 400 is in both ranges |
| Scenarios.CollectFirst | src/scenes/Game.js:106-131 | after n ≤ 12 collections from the start, the score is 10·n and the scroll is unlocked iff n ≥ 10. Below 12 there are no bombs and 12 − n stars are active; at 12 all stars are back and exactly one bomb exists |
| Scenarios.UnlockAndRead | src/scenes/Game.js:86-124 | ten stars give score 100 and unlock the scroll; a click on it shows the letter, pauses the physics and tints gray; a click on the letter hides it, resumes the physics and clears the tint |
| Scenarios.ShowThenClose | src/scenes/Game.js:86-104 | from an open scroll with the letter hidden, the physics running and no tint, show then close restores letter, pause and tint and changes nothing else |
| Scenarios.LockedClick | src/scenes/Game.js:86-90 | at 90 points the scroll is locked and a click on it shows nothing and pauses nothing |
| Scenarios.FullRound | src/scenes/Game.js:126-151 | after all 12 stars are collected, 12 stars are active and exactly one bomb exists, spawned in the half opposite the player |
| Scenarios.HitThenLetter | src/scenes/Game.js:86-141 | a hit pauses and tints red and schedules one `GameOver` start in 2000 ms; then scroll and letter clicks resume the physics and clear the tint while that start is still pending |

## Left out

- `src/scenes/GameOver.js`: it only draws text, recolours on hover and restarts `Game`; there is no decision logic in it.
- Physics is not modelled: gravity, the platform colliders, overlap detection and the stars' and bombs' motion after spawn. The engine is assumed to deliver overlaps and collisions by calling the handlers. Star and bomb positions are only what the scene sets.
- The random star bounce `FloatBetween(0.4, 0.8)` is floating point and only cosmetic.
- `setCollideWorldBounds(true)` on bombs is a physics flag with no logic.
- Rendering is not modelled: textures, tint colour values beyond the three-valued `Tint`, the pulse tween's parameters, the score text, `setVisible` and the `turn` animation in `hitBomb`.
- The Player class (`src/gameObjects/Player.js`) is not part of this model. Its movement calls are returned as commands. Whether they take effect while the physics is paused is physics behaviour and is not modelled.
- The delayed call firing and the scene switch are not modelled; only the scheduled start is recorded.
- Touch and long-press input are not modelled because the scene has no such code.
