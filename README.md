# koda-adventure: the platformer frame step

koda-adventure is a small Go platformer built on the ebiten game library. Its
player is a 16×32 box with a float position and velocity and a ground flag.
Once per frame the game reads the keyboard, applies gravity with a
fall-speed cap and probes the next position with integer bounding boxes.
It resolves collisions against a fixed, ordered list of four platform
rectangles, one axis at a time with the first platform in the list winning.
It then clamps the player to the screen's width and resets a player that
has fallen below the screen.

The repository holds the frame step twice:

- the **layered** copy: a `Player` object with mutator methods
  (`player/player.go`), a platform catalog (`world/platform.go`) and a
  `Game` that drives them (`game/game.go`);
- the **flat** copy: everything inline in one `Update` (`game.go`).

The two copies differ in three small ways, and the model keeps all three:

- **Vertical probe.** The layered probe's bottom edge stays at the
  current box's bottom; the flat probe's bottom moves with the vertical
  speed.
- **Edge clamp.** The layered clamp zeroes the horizontal speed; the flat
  clamp leaves it.
- **Fall-off reset.** The layered reset is a full reset to the start
  state; the flat reset sets only `x`, `y` and `vy`.

## Modules

- `geometry.dfy`, module `Geometry`:
  - integer points and rectangles with the semantics of Go's
    `image.Rectangle`: half-open, `image.Rect` normalising the corners,
    `Overlaps` requiring both rectangles non-empty;
  - `Trunc`, Go's `int(float64)` conversion, which truncates toward zero.
- `world.dfy`, module `World`: the screen size and the platform catalog.
- `kinematics.dfy`, module `Kinematics`:
  - the player's constants;
  - `Body`, the value of the player's five fields;
  - the pure transitions each mutator performs and the bounding boxes;
  - class `Player`, whose methods update the fields in place and are each
    proved to perform their transition on `State()`.
- `frame_parts.dfy`, module `FrameParts`, the parts both copies share:
  - the pre-collision phase;
  - the first-match scan `FirstHit`;
  - the two collision responses and the per-axis commits.
- `layered_game.dfy`, module `LayeredGame`:
  - the layered frame as the function `Step`, with its lemmas;
  - class `Game`, whose imperative `Update` is proved to compute `Step`.
- `flat_game.dfy`, module `FlatGame`: the same for the flat copy, plus
  lemmas that relate the two copies.

Numbers are Dafny `real`s: the model computes over the rationals, not in
float64. The keyboard state enters as three booleans: `left`, `right` and
`jumpJustPressed`.

## Model

| member | source | states |
|---|---|---|
| Geometry.Trunc | player/player.go:35 | `int(f)` truncates toward zero: for f ≥ 0 it is the largest integer not above f, for f < 0 the smallest integer not below f |
| Geometry.MkRect | player/player.go:35 | `image.Rect(x0, y0, x1, y1)`; its meaning, sorted corners that keep both coordinates of each axis, is stated by `MkRectSorts` |
| Geometry.Empty | game/game.go:60 | `Rectangle.Empty`: the rectangle holds no point; used by `Overlaps`, whose meaning `OverlapsIffCommonPoint` states |
| Geometry.Overlaps | game/game.go:60 | `Rectangle.Overlaps`, also called at game/game.go:70 and game.go:108,123; `OverlapsIffCommonPoint` states that it holds exactly when the rectangles share an integer point, `OverlapsSymmetric` and `TouchingDoesNotOverlap` state its symmetry and that touching edges do not count |
| Geometry.TruncRoundsTowardZero | player/player.go:35 | 100.4 becomes 100, -0.5 becomes 0 and -2.5 becomes -2, so the conversion is not the floor |
| Geometry.TruncMonotone | player/player.go:35 | a larger float never truncates to a smaller integer |
| Geometry.MkRectSorts | player/player.go:35 | `image.Rect` yields min ≤ max on each axis and keeps both given coordinates of each axis |
| Geometry.OverlapsIffCommonPoint | game/game.go:60 | `Overlaps` holds exactly when some integer point lies in both half-open rectangles |
| Geometry.OverlapsSymmetric | game/game.go:60 | overlap does not depend on which rectangle is the receiver |
| Geometry.TouchingDoesNotOverlap | game/game.go:70 | rectangles that share only an edge do not overlap |
| World.Platforms | world/platform.go:18-25 | the level has exactly four platforms |
| World.PlatformsAre | world/platform.go:19-24 | the platforms are (0,440)-(640,480), (200,380)-(300,400), (400,300)-(500,320) and (50,220)-(150,240), in this order |
| World.PlatformsNonEmpty | world/platform.go:20-23 | every platform has min < max on both axes |
| World.PlatformsOnScreen | world/platform.go:11-24 | every platform lies within [0,640]×[0,480] |
| World.PlatformsDisjoint | world/platform.go:20-23 | no two platforms overlap |
| World.FloorAndThickness | world/platform.go:20-23 | the floor spans the full screen width at the screen's bottom, and every platform is at least 20 pixels tall |
| Kinematics.Start | player/player.go:29-31 | a new player is at (100, 100), at rest and not on the ground |
| Kinematics.WithInput | player/player.go:51-65 | left gives vx = -3 and wins over right, right alone gives +3, neither gives 0; a jump fires only when just pressed while on the ground and then gives vy = -7 and clears the ground flag; otherwise vy and the flag are unchanged; the position is unchanged |
| Kinematics.WithGravity | player/player.go:68-74 | vy never ends above 8, grows by exactly 0.4 while that stays within the cap, becomes 8 otherwise, and strictly grows while below the cap; all other fields are unchanged |
| Kinematics.Moved | player/player.go:77-80 | the position changes by exactly the velocity, and velocity and ground flag are unchanged |
| Kinematics.StoppedX | player/player.go:92-94 | vx becomes 0 and no other field changes |
| Kinematics.SnappedY | player/player.go:97-106 | falling puts the player's bottom on the given edge and sets the ground flag; rising puts its top on that edge and keeps the flag; vy is 0 afterwards in every case; x and vx are untouched |
| Kinematics.BoxOf | player/player.go:34-36 | the box is 16×32 with its corner at the truncated position |
| Kinematics.NextBoxX | player/player.go:39-42 | the box is 16×32 with its corner at (Trunc(x+vx), Trunc(y)) |
| Kinematics.NextBoxY | player/player.go:45-48 | the sides are those of the current box; whenever Trunc(y+vy) ≤ Trunc(y)+32 (so that `image.Rect` does not swap the vertical corners) the top is Trunc(y+vy) and the bottom is Trunc(y)+32. Inside a frame this always holds, since vy ≤ 8 after gravity (`NextBoxYSpan`) |
| Kinematics.NextBoxXIsMovedBox | player/player.go:39-42 | the horizontal probe is the current box of the player moved horizontally |
| Kinematics.NextBoxYSpan | player/player.go:45-48 | within the speed cap, the vertical probe runs from the moved box's top to the current box's bottom |
| Kinematics.FallingSpeed | player/player.go:68-74 | after n frames of gravity alone, vy is min(vy + 0.4·n, 8) |
| Kinematics.Player.constructor | player/player.go:29-31 | the new player's fields hold the start state |
| Kinematics.Player.HandleInput | player/player.go:51-65 | the fields afterwards hold `WithInput` of the fields before |
| Kinematics.Player.ApplyGravity | player/player.go:68-74 | the fields afterwards hold `WithGravity` of the fields before |
| Kinematics.Player.UpdatePosition | player/player.go:77-80 | the fields afterwards hold `Moved` of the fields before |
| Kinematics.Player.ResetPosition | player/player.go:83-89 | from any state, the fields afterwards hold exactly the start state (100, 100, 0, 0, false), so a second reset changes nothing |
| Kinematics.Player.HandleCollisionX | player/player.go:92-94 | the fields afterwards hold `StoppedX` of the fields before |
| Kinematics.Player.HandleCollisionY | player/player.go:97-106 | the fields afterwards hold `SnappedY` of the fields before, for the given edge |
| FrameParts.PreparedJump | game/game.go:44-51 | after input, gravity and clearing the flag, the ground flag is false and the position is that of the frame's start; a jump pressed while the previous frame's flag was set gives vy = -7 + 0.4; otherwise vy grows by 0.4 while within the cap |
| FrameParts.NoJumpInAir | player/player.go:61-64 | for a player not on the ground, pressing jump changes nothing |
| FrameParts.Prepared | game/game.go:44-51 | input, gravity and the cleared flag before the loops, also game.go:71-95; its meaning is stated by `PreparedJump` and `NoJumpInAir` |
| FrameParts.FirstHit | game/game.go:59-64 | the result is the least index of a platform that overlaps the box, or none exactly when no platform overlaps it |
| FrameParts.FirstHitIgnoresLater | game/game.go:59-64 | once a platform in the list overlaps, platforms appended after the list do not change which one is used |
| FrameParts.ResolveX | game/game.go:58-65 | on a horizontal hit the player stops horizontally; with no hit nothing changes |
| FrameParts.ResolveY | game/game.go:68-80 | only the first overlapping platform is used: a falling player lands on its top edge, a rising one is put under its bottom edge, a still one is untouched; with no hit nothing changes |
| FrameParts.AdvanceX | game.go:116-118 | x advances by vx exactly when the horizontal axis did not collide |
| FrameParts.AdvanceY | game.go:139-141 | y advances by vy exactly when the vertical axis did not collide |
| FrameParts.Commit | game/game.go:85-90 | each axis advances by its velocity exactly when that axis did not collide; the velocities and ground flag are kept |
| FrameParts.CommitIsBothAdvances | game/game.go:85-90 | committing both axes together is committing one after the other, and with no collision it is one frame of `Moved` |
| FrameParts.Committed | game/game.go:54-90 | both probes start from the start-of-frame position: a horizontal hit keeps x and zeroes vx, otherwise x += vx. A vertical hit zeroes vy, and when falling puts the bottom on that platform's top with the flag set; when rising it puts the top on that platform's bottom. With no vertical hit, y += vy |
| FrameParts.CommittedGround | game/game.go:51-80 | once the flag has been cleared, it ends the loops set exactly when the vertical probe hit a platform while vy > 0 |
| FrameParts.CommittedFallSpeed | game/game.go:68-90 | the collision loops never make vy exceed the cap |
| LayeredGame.EdgeClamp | game/game.go:94-100 | afterwards 0 ≤ x ≤ 624: a player with x < 0 ends at x = 0, one with x + 16 > 640 ends at x = 624, a player within the screen is untouched; a clamped player has vx = 0; y, vy and the flag are kept |
| LayeredGame.Step | game/game.go:43-108 | one layered frame, the specification `Game.Update` is proved against; its meaning is stated by `StepBounds`, `StepClampStops`, `StepFallOff`, `StepGround` and the concrete frame lemmas |
| LayeredGame.StepBounds | game/game.go:43-108 | after every frame 0 ≤ x ≤ 624 and vy ≤ 8 |
| LayeredGame.StepClampStops | game/game.go:94-100 | whenever the clamp fires, the frame ends with vx = 0 |
| LayeredGame.StepFallOff | game/game.go:103-105 | when the committed y is greater than 480 (below the screen) the frame ends exactly in (100, 100, 0, 0, false); otherwise it ends with the clamped state |
| LayeredGame.StepGround | game/game.go:45-105 | the frame ends on the ground exactly when the vertical probe hit a platform while falling and the player was not reset |
| LayeredGame.IdleFrameFromStart | game/game.go:30-33 | from the new game's state, one frame with no key pressed ends in (100, 100.4, 0, 0.4, false) |
| LayeredGame.LandsOnFloor | game/game.go:68-90 | a player at y = 439 falling at full speed lands on the floor at y = 408 and stands |
| LayeredGame.StandingSinks | player/player.go:45-48 | a player standing exactly on the floor does not stay on the ground, because its probe only touches the floor; it sinks by 0.4 |
| LayeredGame.NearFloorFallsOn | player/player.go:45-48 | at y = 405 falling at full speed, the probe stops at the player's bottom and misses the floor, so the player falls on to y = 413 |
| LayeredGame.FirstPlatformWins | game/game.go:69-79 | of two platforms that both meet the vertical probe, the earlier one in the list decides the landing, even where the later one is higher |
| LayeredGame.Game.constructor | game/game.go:30-39 | a new game holds a new player in the start state and the catalog's platforms |
| LayeredGame.Game.Layout | game/game.go:140-142 | the logical screen is the floor's extent, 640×480, whatever the window size |
| LayeredGame.Game.Update | game/game.go:43-108 | the player's fields afterwards hold `Step` of the fields before, and the platform list is unchanged |
| LayeredGame.Game.CheckHorizontal | game/game.go:57-65 | the flag is set exactly when some platform overlaps the probe, and the player afterwards is the horizontal response to the first one |
| LayeredGame.Game.CheckVertical | game/game.go:67-80 | the flag is set exactly when some platform overlaps the probe, and the player afterwards is the vertical response to the first one |
| FlatGame.ProbeY | game.go:103 | the probe is 16×32 with its corner at (Trunc(x), Trunc(y+vy)), so its bottom moves with vy |
| FlatGame.ProbeYIsMovedBox | game.go:98-103 | the flat vertical probe is the current box of the player moved vertically |
| FlatGame.ProbeYVersusLayered | game.go:103 | the flat and layered probes share top and sides; the flat bottom is lower by Trunc(y+vy) - Trunc(y) |
| FlatGame.Interleaved | game.go:105-141 | the flat collision loops and commits in source order; `InterleavedIsCommitted` states that they end in `FrameParts.Committed`, whose contract gives every field |
| FlatGame.InterleavedIsCommitted | game.go:105-141 | committing x before the vertical loop ends in the same state as committing both axes after both loops |
| FlatGame.EdgeClamp | game.go:145-149 | afterwards 0 ≤ x ≤ 624: a player with x < 0 ends at x = 0, one with x + 16 > 640 ends at x = 624, a player within the screen is untouched; the velocity, y and the flag are kept |
| FlatGame.FallReset | game.go:152-156 | the reset puts the player at (100, 100) with vy = 0 |
| FlatGame.FallResetKeeps | game.go:152-156 | the flat reset is the start state with vx and the ground flag kept from before, and is idempotent |
| FlatGame.Step | game.go:69-159 | one flat frame, the specification `Game.Update` is proved against; its meaning is stated by `StepBounds`, `StepKeepsVx`, `StepFallOff`, `StepGround`, the concrete frame lemmas and the `CopiesDifferOn…` lemmas |
| FlatGame.StepBounds | game.go:69-159 | after every frame 0 ≤ x ≤ 624 and vy ≤ 8 |
| FlatGame.StepKeepsVx | game.go:143-156 | neither the clamp nor the reset changes vx |
| FlatGame.StepFallOff | game.go:151-156 | when the committed y is greater than 480 (below the screen) the frame ends in the flat reset of the clamped state; otherwise it ends with the clamped state |
| FlatGame.StepGround | game.go:95-141 | the frame ends on the ground exactly when the vertical probe hit a platform while falling, even when the player was then reset |
| FlatGame.IdleFrameFromStart | game.go:48-159 | from the start state, one frame with no key pressed ends in (100, 100.4, 0, 0.4, false) |
| FlatGame.LandsOnFloor | game.go:121-141 | a player at y = 439 falling at full speed lands on the floor at y = 408 and stands |
| FlatGame.CopiesDifferOnLanding | game.go:103 | at y = 405 falling at full speed the flat copy lands at y = 408, while the layered copy falls on to y = 413 |
| FlatGame.CopiesDifferOnClamp | game.go:145-149 | walking right into the right edge, both copies end at x = 624, the flat copy with vx = 3 and the layered copy with vx = 0 |
| FlatGame.CopiesDifferOnFallOff | game.go:152-156 | walking right below the floor, the flat copy is reset to (100, 100) with vx = 3 kept, while the layered copy is reset to the start state |
| FlatGame.Game.constructor | game.go:48-58 | a new game holds a new player at (100, 100) at rest and the same four platforms as the layered catalog |
| FlatGame.Game.Update | game.go:69-159 | the player's fields afterwards hold the flat `Step` of the fields before, and the platform list is unchanged |
| FlatGame.Game.CheckHorizontal | game.go:105-118 | the flag is set exactly when some platform overlaps the probe, and the player afterwards is the horizontal response to the first one followed by the horizontal commit |
| FlatGame.Game.CheckVertical | game.go:120-141 | the flag is set exactly when some platform overlaps the probe, and the player afterwards is the vertical response to the first one followed by the vertical commit |

## Left out

- **Rendering.** `Draw`, the white helper image, the colours and the
  image operations are graphics output (game.go:161-192,
  game/game.go:110-137).
- **Debug overlay.** The debug text of the layered copy is output only
  (game/game.go:134-136).
- **Program entry.** `main` in both copies — window size, window title,
  `ebiten.RunGame` and its error handling — is process and window
  plumbing, as is the 60 Hz scheduling of `Update`.
- **Keyboard.** `ebiten.IsKeyPressed` and `inpututil.IsKeyJustPressed`
  become the parameters `left`, `right` and `jumpJustPressed`. Detecting a
  key that was just pressed belongs to the library.
- **float64 rounding.** The model computes in `real`. Equalities such as
  y = 100.4 hold over the rationals, not bit for bit in float64, where 0.4
  is inexact.
- **Out-of-range conversion.** `Trunc` does not model Go's
  implementation-specific result of `int(f)` for floats beyond the range
  of `int`.
- **`NewGame`'s error result** in the layered copy is always `nil`, and
  `Update` always returns `nil`. Neither result is modelled.
- **Flat `Player.Rect`** (game.go:34-36) is the same computation as the
  layered `Rect` and is modelled once, as `Kinematics.BoxOf`.
  `Kinematics.Player.Rect`, `NextRectX` and `NextRectY` return `BoxOf`,
  `NextBoxX` and `NextBoxY` of `State()`, which carry the contracts.
- **Flat `Layout`** (game.go:195-197) returns the same constants as
  `LayeredGame.Game.Layout` and is not repeated.
- **Flat constants.** The flat copy's constants (game.go:14-24) have the
  same values as the layered ones and are the shared `World` and
  `Kinematics` constants.
- **Flat player as a struct value.** The flat copy keeps the player as a
  struct value inside `Game`. The model keeps it as a `Kinematics.Player`
  object that nothing else references, so no aliasing is lost. The flat
  input and gravity statements (game.go:71-91) are statement for statement
  the bodies of player.go's `HandleInput` and `ApplyGravity`, so the flat
  `Update` calls those methods.
- **LayeredGame.Game.Update** and **FlatGame.Game.Update** run their two
  collision loops as the methods `CheckHorizontal` and `CheckVertical`,
  called at the point where the loops stand. Each loop is thereby verified
  on its own.
  - In the flat copy, each of those methods also performs the commit of
    its axis, which there follows the loop.
  - Which state the loops run from is unchanged: both probes are computed
    before the loops.
