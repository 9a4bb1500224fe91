# RetroSpaceShooter frame loop in Dafny

This project models the simulation core of RetroSpaceShooter, a pygame
arcade shooter (`main.py`). The player's ship fights waves of enemy ships
that descend from above the window. The model covers:

- Lasers: their vertical move and the off-screen test.
- Firing: the shared cooldown of every ship and each ship's shot, including
  where an enemy's laser appears.
- The player's keyboard movement inside the window.
- Each ship's pass over its own lasers. This pass removes lasers from the list
  it is iterating over, so the laser after a removed one is skipped that
  frame. The player's pass also removes enemies it hits from the enemy list.
- One pass through the body of `main()`'s `while` loop: the end-of-run check
  with the game-over grace period and the best score, the wave refill, the
  player's move, every enemy's turn (move, laser pass, random shot, ram or
  escape), and the player's laser pass.

Modules:

- `Screen` (`screen.dfy`): the window size, sprites, sprite sizes and the
  collision test. The collision test is abstract and is not assumed
  symmetric.
- `Lasers` (`lasers.dfy`): the `Laser` value and `SweepLasers`, the pass
  `Ship.move_lasers` makes as written. `SweepEvery` is a reference pass
  that visits every laser, for comparison.
- `Ships` (`ships.dfy`): the cooldown, the shot and the steering as
  functions, and the classes `Enemy` and `Player` with the source's fields
  and methods. `StrikeEnemies` and `PlayerLaserSweep` state the player's
  two nested loops.
- `Game` (`game.dfy`): the end-of-run state machine, waves, enemy fates,
  and the class `Game`. The loop's local variables are its fields, and
  `Game.Step` is one frame.

Behaviour of the code that the model keeps as written:

- Skipped elements. Every pass removes from the very list it iterates, so
  the element after a removed one is not visited that frame. `SweepLasers`,
  `StrikeEnemies` and `PlayerLaserSweep` model the skip, and
  `SweepSkipsAfterRemoval` exhibits it against `SweepEvery`.
- Second hit. After a player laser hits an enemy, the inner loop keeps
  testing the remaining enemies. A second hit by the same laser calls
  `self.lasers.remove(laser)` again, which raises `ValueError`. The model
  returns `LaserRemovedTwice`, and `Game.Step` returns `Crashed`.
- Frame order. The wave refill comes first in a played frame
  (main.py:328-334), before the player moves.
- Enemy lasers. Each enemy's lasers move inside the enemy loop
  (main.py:344), before that enemy's ram and exit checks.
- Laser lifetime. `off_screen` is true only once `y < 0`. A player laser at
  height `y` moving up `s` per frame therefore leaves after exactly
  `y / s + 1` moves (`PlayerLaserLifetime`). This equals `ceil(y / s)` unless
  `s` divides `y`; then the laser spends one more frame at `y = 0`.

## Model

| member | source | states |
|---|---|---|
| Lasers.Laser.Moved | main.py:94-95 | a move changes only `y`, by exactly `velocity` |
| Lasers.Laser.OffScreen | main.py:97-98 | a laser is off screen iff `y < 0` or `y > height` |
| Screen.CollideByOffset | main.py:240-243 | whether two objects collide depends only on their relative offset: moving both by the same amount changes nothing |
| Lasers.MovedTimesShift | main.py:94-95 | `n` moves at one velocity shift `y` by `n * velocity` and change nothing else |
| Lasers.PlayerLaserLifetime | main.py:177-180 | a player laser fired inside the window is off screen after `n` moves iff `n > y / speed` |
| Lasers.SweepKeep | main.py:123-127 | a visited laser that stays on screen and misses is kept, moved, and the pass goes on with the next one |
| Lasers.SweepDrop | main.py:123-130 | a visited laser that leaves the screen or hits is removed, counts one hit only if on screen, and the laser after it is skipped and kept unmoved |
| Lasers.SweepLasers | main.py:121-130 | the pass as the loop runs it, skipping the laser after a removed one; it never keeps more lasers or scores more hits than there were lasers |
| Lasers.SweepCounts | main.py:121-130 | the lasers kept plus the hits never exceed the lasers there were |
| Lasers.SweepSurvivors | main.py:121-130 | every kept laser was skipped unchanged, or was moved and is on screen and missed |
| Lasers.SweepHitsAtMostEvery | main.py:121-130 | the skipping pass never scores more hits than the pass that visits every laser |
| Lasers.SweepAgreesWhenNoneRemoved | main.py:121-130 | when no laser is removed, the pass equals the full pass: every laser moved, no hits |
| Lasers.SweepSkipsAfterRemoval | main.py:123-130 | two concrete lasers where the skipping pass keeps a laser that the full pass would count as a hit |
| Ships.NextCoolDown | main.py:132-136 | a counter at 30 or above resets to 0, 0 stays 0, the range [0, 30] is kept, and the result is 0 iff the counter was 0 or at least 30 |
| Ships.CoolDownAfterShot | main.py:132-142 | after a shot (counter 1) the ship is not ready for 29 frames and is ready again after exactly 30 |
| Ships.ReadyStaysReady | main.py:132-136 | a ready counter stays 0 over any number of frames |
| Ships.CoolDownsInRange | main.py:132-136 | a counter in [0, 30] stays in [0, 30] over any number of frames |
| Ships.Fired | main.py:138-142 | a ready gun appends exactly the new laser and sets the counter to 1; any other gun is unchanged |
| Ships.LaserOffset | main.py:215-218 | an enemy laser starts 25 pixels left of a blue ship and 15 pixels left of a red or green one |
| Ships.Steer | main.py:162-170 | each coordinate changes by `-v`, `0` or `+v`; a single pressed direction moves the ship exactly when the move keeps it strictly inside the window (30 pixels kept at the bottom), and does nothing otherwise; opposite keys with room on both sides cancel; no key, no move; a ship inside stays inside |
| Ships.Enemy.constructor | main.py:205-208 | a new enemy at `(x, y)` with the given color, health 100, no lasers and a ready gun |
| Ships.Enemy.Movement | main.py:210-211 | the enemy moves down by `velocity` |
| Ships.Enemy.CoolDown | main.py:132-136 | the counter takes the next cooldown value |
| Ships.Enemy.Shoot | main.py:213-220 | a ready enemy fires one laser at its height, 25 pixels left for blue and 15 otherwise; otherwise nothing changes |
| Ships.Enemy.MoveLasers | main.py:121-130 | one cooldown step; the lasers become the skipping pass's survivors; the target loses 10 health per hit |
| Ships.StrikeEnemies | main.py:182-187 | the survivors plus the hits are the enemies there were, and there are no hits iff the list is unchanged |
| Ships.StrikeLoop | main.py:182-187 | the inner loop with in-place removal computes exactly `StrikeEnemies` |
| Ships.StrikeSubset | main.py:182-187 | the inner loop only removes enemies, never adds or repeats one |
| Ships.StrikeOnlyRemoves | main.py:182-187 | the survivors are a sub-multiset of the enemies, and a list without repeats stays without |
| Ships.StrikeRemovesOnlyHits | main.py:182-187 | every enemy the inner loop removes is one the laser collides with |
| Ships.StrikeMissesAll | main.py:182-187 | a laser that scores no hit collides with none of the enemies |
| Ships.PlayerLaserSweep | main.py:175-187 | on success, the surviving enemies plus the kills are the enemies there were, and the lasers kept plus the kills are at most the lasers there were |
| Ships.PlayerPassOnlyRemoves | main.py:175-187 | a successful pass only removes enemies, and keeps the enemy list free of repeats |
| Ships.PlayerPassRemovesOnlyHits | main.py:175-187 | every enemy a successful pass removes collides with some player laser that was moved up and is on screen |
| Ships.PlayerPassKeptLasers | main.py:175-187 | every laser left after a successful pass was skipped unchanged, or was moved up, is on screen and touches none of the enemies left |
| Ships.OneEnemyNeverFails | main.py:182-187 | with at most one enemy in the list, no laser can hit twice, so the pass never raises |
| Ships.Player.constructor | main.py:152-157 | a new player at `(x, y)` with level 0, 5 lives, score 0 and maximum health equal to health |
| Ships.Player.CoolDown | main.py:132-136 | the counter takes the next cooldown value |
| Ships.Player.Shoot | main.py:138-142 | a ready player fires one laser from its own position; otherwise nothing changes |
| Ships.Player.Movement | main.py:162-173 | the position is the one `Steer` gives; with space held the gun fires from the new position, and otherwise the gun is unchanged |
| Ships.Player.MoveLasers | main.py:175-187 | one cooldown step; `ok` iff the pass does not raise; then the lasers and enemies left are the pass's and the score rises by 100 per kill |
| Game.EndOfRun | main.py:308-326 | once lost, a run stays lost; it is lost iff lives or health ran out; the screen is frozen iff lost with count at most 180, and the frame is the last iff the count exceeds 180; the best score and the record flag change only on the first frame without lives or health, and only to a higher score |
| Game.GracePeriod | main.py:308-326 | from the first dead frame, the next 180 frames are frozen and the 181st is played and ends the loop; the best score is written once, if beaten |
| Game.NextWave | main.py:330-331 | a refill raises the level by one and the wave size by five |
| Game.WavesFromStart | main.py:328-334 | from level 0 and wave size 5, the n-th refill gives level n and 5 + 5n enemies |
| Game.FatesPartition | main.py:349-356 | the enemies kept, rammed and escaped add up to the enemies there were |
| Game.KeptOnlyRemoves | main.py:342-356 | every enemy left was in the list, and a list without repeats stays without |
| Game.RemoveFirstAfter | main.py:352-356 | `list.remove(x)` on a list whose first `x` follows `front` removes exactly that element |
| Game.Turned | main.py:343-347 | an enemy's turn moves it down by 1 and changes neither its x, its color nor its health |
| Game.TurnedShot | main.py:346-347 | a ready enemy fires on a draw of 1, from its new height and 25 pixels left if blue or 15 otherwise; on other draws its gun stays ready |
| Game.FateOf | main.py:349-356 | an enemy rams iff it collides with the player; it escapes iff it does not and its bottom is below the window; it stays otherwise, so it meets exactly one fate |
| Game.Game.constructor | main.py:252-263 | the start of `main()`: the player at (325, 625) with 100 health, 5 lives, score 0, level 0; no enemies; wave size 5; the run not lost |
| Game.Game.CheckEndOfRun | main.py:308-326 | the run state and phase are exactly those of `EndOfRun`; the enemies, the wave size and the player are untouched |
| Game.Game.RefillWave | main.py:328-334 | an empty list gets the next wave: level + 1, wave size + 5, that many new enemies in the drawn positions and colors, with health 100, no lasers and a ready gun; a non-empty list and its enemies are left as they are |
| Game.Game.EnemyTurn | main.py:343-347 | the enemy's state becomes `Turned`; the player loses 10 health per hit of its lasers |
| Game.Game.VisitEnemy | main.py:343-356 | the enemy takes its turn and meets exactly one fate; a ram costs 10 health and an escape one life, and either removes the enemy; no other enemy changes |
| Game.Game.TakeTurn | main.py:342-356 | one iteration of the enemy loop keeps the loop's bookkeeping |
| Game.Game.TakeTurns | main.py:342-356 | every enemy of the snapshot takes its turn in order; the list keeps exactly those that stay; the health and lives losses are the laser hits, rams and escapes |
| Game.Game.AdvanceEnemies | main.py:342-356 | the whole enemy loop: each enemy's new state, the list left, and the player's health and lives, as functions of the old states; health and lives only fall |
| Game.Game.FireLasers | main.py:358 | one cooldown step; `ok` iff the player's pass does not raise; then the enemy list and the player's lasers are the pass's, the score rises by 100 per kill, and the list holds only enemies that were there, none twice; the enemies themselves do not change |
| Game.Game.MovePlayer | main.py:340 | the player moves as `Steer` says and fires from the new position when space is held; score, lives, health, level and every enemy are untouched |
| Game.Game.Resolve | main.py:342-358 | every enemy of the list takes its turn; the list keeps those that stay; health and lives fall by the laser hits, rams and escapes; then the player's pass runs over that list with the results of `FireLasers` |
| Game.Game.Play | main.py:328-358 | a played frame, as `Played` states it: the refill (the old list, or a fresh wave at the drawn spawns), the player's position by `Steer`, every enemy `Turned`, the list after the enemies' loop `Kept` by their fates, health and lives by the laser hits, rams and escapes, and the player's pass with its cooldown, lasers, enemies and score; the end-of-run fields do not change |
| Game.Game.Step | main.py:304-358 | one frame: the run state is `EndOfRun`'s; a frozen frame changes nothing else, neither the player nor any enemy; any other frame is played exactly as `Play` states, and it ends the loop exactly on the last frame unless it raises |

## Left out

- Rendering: `draw`, `health_bar`, `window_refresh`, `draw_score` and the fonts. They only read the state.
- Sound: every `.play()` and `.stop()`. They have no effect on the state.
- Files: `read_score_save` and `save_best_score`. The best score is the integer field `Game.best`, given to the constructor; a missing file reads as 0.
- The clock (`clock.tick`), the event queue and `quit_game`. A frame is one call of `Game.Step`. The loop across frames is not a method; `GracePeriod` covers the frames of the end of a run.
- The start-up code, the asset loading and the fallback that installs pygame.
- Pixel masks. Collision is the abstract predicate `Screen.Collide` over sprites and offsets, and sprite sizes are constants of `Assets`.
- Randomness. The spawn draws and the fire rolls are parameters (`spawns`, `rolls`) constrained to the source's ranges.
- The enemies' own `health`. It is set to 100 and never read by the game.
- `max_health`. It is kept, but it only matters for drawing the health bar.
- Game.Game.FireLasers: when the pass raises, the contract says nothing about the enemy list. The exception ends the program, so that state is never observed.
- Ships.Player.MoveLasers: when the pass raises, the contract says nothing about the lasers, the score or `remaining`, for the same reason.
- Game.Game.Step: after a `Crashed` outcome, the contract says nothing about the enemy list, the player's lasers or the score, for the same reason; position, enemy states, health, lives and cooldown are still stated.
- Lasers are values in a sequence, not objects. Python's `list.remove(laser)` compares by identity. The model removes the laser at the iterator's index, which is the same element.
