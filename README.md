# Doodle Jump simulation step, in Dafny

A model of the per-frame simulation of a small Doodle Jump clone written in Go
with the ebiten engine. The game keeps one record: the player's position
(`playerX`, `playerY`), vertical speed, facing direction, a list of platforms
and a watermark (`highestPlatformY`) that records where the next row of
platforms goes. `NewGame` builds the starting record, and `Update` advances it
by one frame with seven rules applied in a fixed order:

1. gravity integration (position first, then speed);
2. floor clamp and bounce at y = 580;
3. swept landing test against every platform, in list order;
4. left and right movement with screen wrap;
5. camera scroll, which shifts every platform and the watermark;
6. spawning of new platform rows in 100-px bands;
7. pruning of the platforms that have scrolled off the bottom.

The project has two modules:

- `Simulation` (simulation.dfy) holds the constants, the `Platform` and `Frame`
  datatypes, and one pure function per rule: `Fall`, `LandOn` (built on
  `Landed`), `Steer` (built on `MoveLeft` and `MoveRight`), and `Scroll` (built
  on `Shifted`, `Spawned` and `Kept`). `Step` composes them. The lemmas about
  these functions state what the rules guarantee.
- `DoodleJump` (game.dfy) holds the class `Game`. Its fields are the simulation
  fields of the Go record. Its constructor builds the `NewGame` state, and its
  `Update` method mutates the fields in the source's order. Each block of
  `Update` is a method of its own, called in sequence. Each loop of the source is
  a `while` loop with invariants. Every method is proved to change the state
  exactly as its pure counterpart does. `Update` itself is proved to compute
  `Step`.

Inputs that come from the engine are parameters:

- the two arrow keys are a `Keys` value;
- the native pixel sizes of the player and platform images, which the Go code
  reads from `Bounds()`, are a `Sprites` value of natural numbers;
- the values `rand.Intn` returns are a function `rolls: nat -> int`, where
  `rolls(k)` is the x of the k-th platform spawned in that frame.

`Update` requires `platformDx < 480` and every roll to lie in
`[0, 480 - platformDx)`. These are the conditions under which `rand.Intn` is
defined and what it returns.

Two consequences of main.go that are easy to miss:

- Only the first qualifying platform in list order lands. A snap sets the
  speed to -18 (main.go:104), and the landing guard needs a positive speed
  (main.go:98), so no later platform in the same frame can qualify
  (`LandingIsFirstMatch`).
- From the `NewGame` state, the first frame with no key held is a floor
  bounce. The player starts at y = 580 with speed 0 (main.go:76-77), so the
  integrated y is 580, which meets the floor test `>= 580` (main.go:85-91)
  (`FirstFrameBounces`).

## Model

| member | source | states |
|---|---|---|
| `Simulation.Initial` | main.go:64-81 | The starting record: player on the floor line at rest, facing right, four platforms, watermark at the top platform's y; it satisfies the running-game invariant `Playable`. |
| `DoodleJump.Game.constructor` | main.go:64-81 | The new game's fields are exactly `Initial()`, so they satisfy `Playable`. |
| `DoodleJump.Game.Update` | main.go:84-155 | One frame changes the fields exactly as `Step` does; afterwards 320 <= playerY <= 580; a `Playable` state stays `Playable`. |
| `DoodleJump.Game.ApplyGravity` | main.go:85-91 | The integration and floor block changes the fields exactly as `Fall` does. |
| `Simulation.Fall` | main.go:85-91 | playerY ends at most 580 (never below the floor line on screen). A bounce (y = 580, speed = -18) happens if and only if y + speed reaches 580. Otherwise y gains the old speed and the speed gains 0.4. Nothing else changes. |
| `DoodleJump.Game.LandOnPlatforms` | main.go:93-106 | The landing loop, visiting the platforms in order, changes the fields exactly as `LandOn` does. |
| `Simulation.FirstLanding` | main.go:98-102 | Reference search: returns the index of the first platform whose swept guard holds, with no earlier platform qualifying, or None when none qualifies. |
| `Simulation.Lands` | main.go:94-102 | The guard of one iteration, with `Sprites.PlayerWidth`, `Sprites.PlayerHeight` and `Sprites.PlatformWidth` giving the sizes of main.go:94-96. The player is falling, its bottom edge is below the platform top, y + playerHeight - speed < platform.y, and the two overlap horizontally. Here speed already includes this frame's gravity, so the bottom edge before the step may lie up to 0.4 below the platform top (`GuardBeforeStep`). Whenever the guard holds, the speed is positive and the snap target platform.y - playerHeight lies strictly above y. |
| `Simulation.GuardBeforeStep` | main.go:85-102 | In a frame without a floor bounce, the guard on the integrated state is equivalent to conditions on the state before the frame. The swept term becomes y0 + playerHeight < platform.y + 0.4. |
| `Simulation.GuardAdmitsOverlap` | main.go:85-104 | A concrete frame whose bottom edge starts 0.2 below a platform's top and still lands on it: y 100, speed 1, a platform at 109.8, player height 10. |
| `Simulation.Landed` | main.go:93-106 | (y, speed) after the loop has visited the platforms in order, each snap feeding the next guard. y never increases, and (y, speed) is either unchanged or ends with speed -18. |
| `Simulation.LandingIsFirstMatch` | main.go:93-105 | At most one landing per frame. The loop's result is the snap to the first qualifying platform (y = platform.y - playerHeight, speed = -18), or the unchanged (y, speed) when none qualifies. |
| `Simulation.LandingRaises` | main.go:98-104 | A landing always raises the player strictly and sets speed -18. Otherwise y and speed are unchanged. They are unchanged exactly when no platform's guard holds. |
| `Simulation.LandOn` | main.go:93-106 | The landing phase never moves the player down. It leaves x, facing, the platforms and the watermark untouched. |
| `Simulation.MoveLeft` | main.go:108-115 | x drops by 5, or wraps to 480 when that falls below -40; the result is never left of -40. |
| `Simulation.MoveRight` | main.go:117-124 | x rises by 5, or wraps to 0 when that exceeds 520; the result is never right of 520. |
| `Simulation.Steer` | main.go:108-124 | Facing is set by the last key handled (right over left), x follows the held keys' moves in order, the band [-40, 520] is preserved, and the vertical state, platforms and watermark are untouched. |
| `DoodleJump.Game.Move` | main.go:108-124 | The movement block changes the fields exactly as `Steer` does. |
| `Simulation.Scroll` | main.go:126-152 | A player above the midline is pinned to y = 320. A player at or below it leaves the whole record unchanged. Only y, the platforms and the watermark can change. |
| `DoodleJump.Game.ScrollCamera` | main.go:126-152 | The scroll block changes the fields exactly as `Scroll` does. |
| `Simulation.Shifted` | main.go:130-132 | Every platform keeps its x and moves down by the same offset; the list keeps its length and order. |
| `DoodleJump.Game.ShiftPlatforms` | main.go:130-132 | The in-place loop turns the platform list into `Shifted(old list, offset)`. |
| `Simulation.SpawnedShape` | main.go:136-143 | The spawn loop appends one platform per band. The i-th is at y = h - 100·(i + 1), (i + 1) bands above the starting watermark on screen, and takes roll i as x. The watermark decreases by 100 per platform and ends at or below 0. It ends above -100 when it started above -100. Nothing spawns exactly when the watermark starts at or below 0. |
| `Simulation.Spawned` | main.go:136-143 | The platforms the spawn loop appends, in order, and the watermark it leaves. The watermark ends at or below 0, and nothing is appended exactly when it starts at or below 0. Its full shape is given by `SpawnedShape`. |
| `Simulation.SpawnedOnScreen` | main.go:137-140 | With rolls in rand.Intn's range, every spawned platform lies horizontally within the screen: 0 <= x and x + platformWidth < 480. |
| `DoodleJump.Game.SpawnPlatforms` | main.go:136-143 | The loop appends `Spawned(...)` at the end of the list and leaves the watermark where `Spawned` says; nothing else changes. |
| `Simulation.Kept` | main.go:145-151 | What the accumulating filter keeps, with `OnScreen` as the test y < 640 of main.go:147. The result is no longer than the input. Its meaning is given by `KeptMembers` and `KeptConcat`. |
| `Simulation.KeptMembers` | main.go:145-151 | A platform is in the pruned list if and only if it was in the list and has y < 640. |
| `Simulation.KeptConcat` | main.go:145-151 | Pruning distributes over concatenation, so survivors keep their relative order and multiplicity. |
| `Simulation.KeptAllOnScreen` | main.go:145-151 | A list that is entirely above the bottom of the screen passes the filter unchanged. |
| `DoodleJump.Game.PrunePlatforms` | main.go:145-151 | The accumulating loop replaces the list by `Kept(old list)`; nothing else changes. |
| `Simulation.ScrollEffect` | main.go:126-152 | After a scroll frame the list holds the surviving shifted old platforms, in order, followed by the surviving new rows. Every platform has y < 640. |
| `Simulation.ScrollWatermark` | main.go:134-143 | After a scroll frame the watermark is the old one plus the offset, minus 100 per spawned row. A watermark that started above -100 ends in (-100, 0]. |
| `Simulation.ShiftedSurvivors` | main.go:130-151 | An old platform, moved down by the offset, survives the scroll frame if and only if its new y is below 640. |
| `Simulation.Step` | main.go:84-155 | After any frame, from any state, 320 <= playerY <= 580. |
| `Simulation.StepPreservesPlayable` | main.go:84-155 | A frame preserves `Playable`: the player between midline and floor, x within [-40, 520], every platform above the bottom of the screen, watermark above -100. |
| `Simulation.FreeFall` | main.go:85-106 | With no key held, no floor contact, no landing and no climb above the midline, a frame is pure gravity integration and changes nothing else. |
| `Simulation.FirstFrameBounces` | main.go:76-91 | From the initial state with no key held, the first frame is a floor bounce: speed -18, y = 580, no landing, nothing else changes. |

## Left out

- Asset loading (`assetPath`, `getImage`, main.go:38-57) reads files and logs. It is not modelled. Image sizes enter only as the `Sprites` parameter, and the image handles are not fields of the class.
- `Draw` (main.go:157-177) is a sequence of engine transform and draw calls with no state change. It is not modelled.
- `Layout` (main.go:179-181) only returns the screen constants, and `main` (main.go:183-192) only seeds the random generator and hands the game to the engine. Neither is modelled.
- Keyboard polling (`ebiten.IsKeyPressed`) is replaced by the `Keys` parameter.
- Randomness: `rand.Intn` is replaced by the `rolls` parameter, restricted to the range `rand.Intn` returns. Its distribution and its panic on a non-positive bound are not modelled; the bound's positivity is a precondition of `Update`.
- `Update` always returns a nil error in the source. The model has no error result.
- `float64` arithmetic is modelled with `real`. Rounding, such as 0.4 being inexact, is not captured. Equalities such as the exact offset shift hold in the model, not necessarily bit for bit in Go.
