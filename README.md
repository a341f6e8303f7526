# Open World Game — integer game rules in Dafny

This project models the game rules underneath a single-screen arcade game.
A player character walks a 1280 × 800 viewport and is blocked by obstacles.
Mobs chase the player. The player kills mobs for points, with melee or with
thrown balls. An NPC hands out a quest, and a boss ends the game when it
falls. What is modelled is the integer state the frame loop changes, with
pygame's `Rect` replaced by an explicit `left/top/width/height` rectangle
and a strict-overlap predicate:

- `wrappers.dfy` — `Option`, for the nullable boss and weapon.
- `sums.dfy` — the sum of an integer sequence, used for elapsed time and
  for points drawn.
- `geometry.dfy` — rectangles, overlap and containment, key-driven
  movement, the viewport clamp and the obstacle push-back (pure functions
  and lemmas).
- `characters.dfy` — the `Character` class (health, stamina, attack power,
  weapon) and its in-place `Attack`, `Heal`, `RestoreStamina` and
  `EquipWeapon`.
- `danger.dfy` — the danger timer as a step function. It has three warning
  bands, a 3000 ms limit, and a lemma about uninterrupted overlap.
- `combat.dfy` — mobs, the boss and balls as values. It holds the
  specification functions for a ball meeting the mobs and the boss, and for
  the melee sweep, with lemmas about them.
- `game.dfy` — the `Game` class: the player (a `Character` object plus the
  player-only fields), the NPC, mobs, obstacles, the boss and the
  story/running flags. Its methods change them in place: one call of the
  player's update, the mobs' contact check, the projectile step, the SPACE key, the
  level-up, the boss and mob spawns, and the win/lose flags. Each method is
  proved against the specification functions above. Three client methods at
  the end replay scenarios: five melee kills level up once, standing on a
  mob for 3000 ms loses, and two balls fell the boss.

Random draws (`random.randint`) are parameters of the operations: the
points per kill (`gains`, one entry per mob, each in [0, 10]), the spawn
coordinates and the mob health. The frame time `dt` is a
parameter too.

In these places the code does something other than one might expect, and
the model follows the code:

- The player can end an update outside the viewport. The clamp runs before the
  obstacle push-back, and the push-back can move the player past the border
  (`Geometry.PushBackCanLeaveScreen`). So "the player stays inside the
  viewport" holds after the clamp step only.
- The boss spawns automatically when there is no mob, no boss and no story on
  screen (game.py:339-341). The quest need not have been given. A SPACE
  press while the story is shown also creates a boss, replacing any boss
  there was (game.py:317-321). "At most one boss" is therefore not claimed.
- The level-up is checked only after a melee kill (game.py:330-332), never
  after a ball kill. So a player can hold 50 points or more without having
  levelled up.
- A melee kill (SPACE) removes every touched mob whatever its health, and
  does not go through `Character.attack`.
- The game is lost when the danger timer reaches 3000, not when it exceeds it
  (game.py:150). A mob touching the player also ends the game at once
  (game.py:190-191, `Game.MobsContact`). In the real loop this makes the
  timer limit practically unreachable, so no loop-level liveness is claimed.
- A ball that is spent (off screen, or after a hit) still finishes its step.
  One ball can hit several mobs and the boss in the same step.

## Model

| member | source | states |
|---|---|---|
| Geometry.CenteredRect | game.py:44-46 | A sprite rectangle built around a centre has the given size, and its centre is that point. |
| Geometry.Overlaps | game.py:131 | The sprite collision test: rectangles that lie apart or only share an edge do not collide, and a rectangle with a zero side collides with nothing. In the model a negative side also means no collision; no rectangle in the game has one. |
| Geometry.OverlapsIsIntersection | game.py:131 | Two rectangles collide exactly when both have positive size and their common part has positive width and height. The test is symmetric. |
| Geometry.Contains | game.py:226 | The screen-containment test on a ball: a rectangle of positive size is contained exactly when its common part with the outer rectangle is all of it. Against the screen rectangle, that is exactly lying inside the 1280 × 800 viewport. |
| Geometry.Move | game.py:105-117 | Each held arrow key moves the player by `speed` along its axis. The size is kept. The facing is the last held key in the order left, right, up, down. No key held: nothing changes. |
| Geometry.ClampToScreen | game.py:119-127 | After the clamp, a rectangle no larger than the screen has left ≥ 0, top ≥ 0, right ≤ 1280 and bottom ≤ 800. Width and height are unchanged. A rectangle already inside is left as it is. |
| Geometry.PushBack | game.py:131-139 | Facing LEFT puts the player's left on the obstacle's right; RIGHT, UP and DOWN do the same with their edges. Only that one coordinate changes. The player no longer overlaps the obstacle and has moved against its facing. |
| Geometry.PushAll | game.py:130-139 | The pass over the obstacles keeps the player's size and ends clear of the last obstacle. A player that overlaps no obstacle is not moved. |
| Geometry.PushAllAlongAxis | game.py:129-139 | The obstacle pass keeps the size and moves only along the facing axis, only against the facing. It ends clear of the last obstacle. |
| Geometry.PushBackCanLeaveScreen | game.py:119-139 | A player clamped inside the viewport, facing right into an obstacle at the left border, ends the frame outside the viewport. |
| Characters.CappedAdd | game.py:61-65 | The capped addition never exceeds the cap. It is the cap or the sum. With a non-negative amount and a value within the cap, it never decreases the value. |
| Characters.Character.constructor | game.py:41-53 | A new character is a 40×40 square around its centre, at full health and stamina, unarmed and facing right. |
| Characters.Character.Attack | game.py:55-59 | With stamina > 0, the target loses exactly attack power plus weapon damage (0 without a weapon) and the attacker loses exactly 1 stamina. With stamina ≤ 0 nothing changes. |
| Characters.Character.Heal | game.py:61-62 | Health becomes the capped sum of health and amount, capped at max health. |
| Characters.Character.RestoreStamina | game.py:64-65 | Stamina becomes the capped sum of stamina and amount, capped at max stamina. |
| Characters.Character.EquipWeapon | game.py:79-80 | The character holds the given weapon. |
| Danger.DangerStep | game.py:146-160 | With no mob overlapping, the timer resets to 0 and the colour to green. Otherwise the timer grows by exactly `dt`. The game ends exactly when the timer reaches 3000. The colour is yellow from 500, orange from 1000 and red from 2000; otherwise it is kept. |
| Danger.OverlapEndsGameAtLimit | game.py:146-151 | Over frames of uninterrupted overlap, the timer is the total elapsed time. The game is lost exactly when that total reaches 3000. |
| Combat.NewMob | game.py:177-179 | A spawned mob is centred on its spawn point with the drawn health. |
| Combat.NewBoss | game.py:194-197 | A boss is centred on its spawn point with 200 health, is unwounded and is purple. |
| Combat.NewBall | game.py:99-100 | A shot is a 10×10 ball centred on the shooter, flying the shooter's way. |
| Combat.BallMoved | game.py:217-224 | A ball moves exactly 10 along its own direction and nowhere else. |
| Combat.HitMob | game.py:230-236 | A touched mob loses exactly 10 health. It is removed if and only if its health is then ≤ 0. A missed mob is untouched. |
| Combat.MobsHit | game.py:229-238 | A ball step never adds a mob. It counts as a hit whenever the ball touches some mob. Non-negative draws give non-negative points. |
| Combat.MobsHitAccounting | game.py:229-238 | A ball step removes as many mobs as it kills (touched, and health 10 or less). It gains between 0 and 10 points per kill. It is a hit exactly when it touches some mob. Touching none changes nothing. |
| Combat.MobsHitSurvivors | game.py:229-238 | Each missed mob, and each touched mob with health left (10 lower), is among the survivors, and every survivor is one of those. |
| Combat.MobsHitSurvivorCounts | game.py:229-238 | Counted with multiplicity: a missed mob survives exactly as often as it occurred. A touched survivor with health h > 0 occurs exactly as often as the same mob with health h + 10 did before. A touched mob with no health left never survives. |
| Combat.BossHit | game.py:240-249 | The first hit on the boss only sets `hit_once` (and turns it yellow); the boss stays. The second hit removes it. A miss changes nothing. |
| Combat.BossFallsOnSecondHit | game.py:240-249 | An unwounded boss hit repeatedly is gone exactly from the second hit on. After one hit it still stands, wounded. |
| Combat.MeleeSweep | game.py:322-328 | Every mob is either kept or counted as removed. No kept mob touches the player. Touching no mob changes nothing. |
| Combat.MeleeSweepAccounting | game.py:322-328 | The melee sweep removes as many mobs as it counts as killed. A mob is kept if and only if it is one of the old mobs and the player does not touch it. It gains between 0 and 10 points per removed mob. |
| Combat.MeleeSweepSurvivors | game.py:322-328 | The sweep keeps each untouched mob exactly as many times as it occurred and no touched mob at all, counted as multisets. |
| Combat.MeleeSweepAllTouched | game.py:322-328 | When the player touches every mob, the sweep removes them all and gains the sum of the draws. |
| GameState.QuestTalk | game.py:170-174 | The first talk sets the quest flag and yields the non-empty quest text. Once the flag is set, a talk yields "" and changes nothing, so repeated talks are idempotent. |
| GameState.LevelUpDue | game.py:330 | The level-up is due exactly when it has not happened yet and the points are 50 or more. It is never due again after it has happened. |
| GameState.BossSpawnDue | game.py:339 | The automatic boss spawn is due exactly when no mob is left, there is no boss and no story is shown. The quest flag plays no part. |
| GameState.TouchesAnyMob | game.py:147 | The player touches a mob exactly when some member of the mob group collides with it. With no mobs, or a rectangle with a zero side, nothing is touched. |
| GameState.Game.constructor | game.py:285-299 | The initial state has the player in the middle of the screen with 100 health, 50 stamina and attack 10. There are no points, no quest and no level-up. The NPC is at (100, 100). There is no boss and no story, and the game is running. |
| GameState.Game.EndGame | game.py:272-275 | `running` becomes false. |
| GameState.Game.CheckWinCondition | game.py:259-263 | `running` is cleared exactly when there is no boss. |
| GameState.Game.GiveQuest | game.py:170-174 | The quest flag and returned text are those of `QuestTalk` on the old flag. |
| GameState.Game.MovePlayer | game.py:105-117 | The player's rectangle and facing become those of `Move`. |
| GameState.Game.ClampPlayer | game.py:119-127 | The player's rectangle becomes its viewport clamp. |
| GameState.Game.PushBackFromObstacles | game.py:129-139 | The loop over obstacles leaves the player where one push-back pass over them, in order, puts it. |
| GameState.Game.UpdateDangerTimer | game.py:146-160 | `in_red_circle`, the timer and the colour follow `DangerStep`. `running` is cleared exactly when that step ends the game. |
| GameState.Game.PlayerUpdate | game.py:104-160 | One call of `Player.update`: move, clamp, push back along the new facing, then one danger-timer step on the final position. |
| GameState.Game.MobsContact | game.py:189-191 | `running` is cleared exactly when some mob overlaps the player. |
| GameState.Game.LevelUpEffect | game.py:91-97 | Attack power doubles and the player turns turquoise. Exactly two new followers are appended. |
| GameState.Game.MeleeKills | game.py:322-332 | Touched mobs are removed for their drawn points. The level-up fires exactly when it was not done before, some mob was removed and the points reached 50. Then attack power is doubled and two followers are added; otherwise neither changes. |
| GameState.Game.PressSpace | game.py:312-332 | Next to the NPC with no story, SPACE gives the quest and shows the story; the NPC, boss, mobs, points and level-up are unchanged. With the story shown, it hides the story and the NPC and creates a boss; the story text, quest flag, mobs, points and level-up are unchanged. Otherwise it is the melee sweep with its level-up; the boss, story, story text, quest flag and NPC are unchanged. |
| GameState.Game.SpawnBossIfCleared | game.py:339-341 | A boss appears exactly when there is no mob, no boss and no story displayed. Otherwise the boss is unchanged. |
| GameState.Game.SpawnMob | game.py:308-311 | The spawn event appends one mob at the drawn point with the drawn health. |
| GameState.Game.BallHitsMobs | game.py:229-238 | The loop over mobs leaves the mobs and points that `MobsHit` gives. It reports whether any mob was touched. |
| GameState.Game.BallHitsBoss | game.py:240-249 | The boss follows `BossHit`. `running` is cleared exactly when the second hit removes the boss. |
| GameState.Game.BallUpdate | game.py:215-249 | The ball moves 10, then meets the mobs and then the boss. It stays alive only if it is still on screen and hit nothing. |

## Left out

- Rendering, fonts, display flips, message waits, the event queue, `clock.tick` and the spawn timer are I/O over pygame. The frame time `dt`, the held keys and the pressed keys are parameters. The frame loop that calls the operations in order is not modelled as one operation.
- The QUIT event (it clears `running`) is event plumbing and is not modelled.
- `calculate_distance` and the nearest-mob speed formula are floating point. `PlayerUpdate` leaves the integer `speed` field unchanged.
- Mob chase movement (`Vector2.normalize_ip`) is floating point. `MobsContact` models only the contact check of a mob's update, on the mobs' current positions.
- `attack_with_sword` is left out (its 0.22 and 1.15 damage factors are floating point). So is the K key's choice between the sword and a shot. A shot is modelled by `Combat.NewBall` only.
- Sprite groups are plain sequences. `all_sprites` membership is not modelled, except the NPC's visibility flag. The `balls` group and `balls.update` are left out: `BallUpdate` steps one ball and returns whether it is still alive instead of removing it.
- Follower position syncing to the player is left out. Sprite images are reduced to a colour tag.
- Mob stamina and attack power are not kept in `Combat.Mob`, and the boss's stamina 50, attack power 20 and max health 200 (game.py:196) are not kept in `Combat.Boss`. No rule in the game reads them.
- Every `random.randint` result is a parameter. Only the points per kill (`gains`) are required to lie in their drawn range [0, 10]. Mob spawn positions, boss positions and mob health are any integers, which generalises the drawn ranges (0..1280, 0..800, 20..50). Likewise `GameState.Game.constructor` takes any initial mobs and any obstacles. The game starts with exactly five mobs at random points and five 50×50 obstacles with their top-left corners drawn from 0..1230 × 0..750 (game.py:287-288).
- The frame loop's second update pass, `all_sprites.update()` (game.py:349), is not modelled. It runs `Player.update`, `Ball.update` and `Mob.update` once more with `dt` = 0 on every sprite in `all_sprites`. So in the real game the player moves twice per frame, a ball still alive after `balls.update` moves 20 per frame and gets a second collision check (a ball that hit in the first pass has already removed itself with `kill`, game.py:238 and 249, so it is not updated again), and the second danger step can reset the timer when the second move ends the overlap. Each modelled method is one call of one update.
