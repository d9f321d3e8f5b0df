# Card manipulation in the BevyJam3 tabletop prototype, modelled in Dafny

The game is a 3D tabletop prototype. When play starts it lays out two rows of five
cards. Each frame, three systems then rewrite the cards' transforms:

- the hover system lifts a hovered card;
- the drag system moves a selected card onto the point where the cursor's ray
  meets the drag plane. When the cursor hits the drag plane and the left
  button is released, it also clears the selection of every pickable player
  card;
- the facing system turns the cards toward the camera.

This project models those rules and proves what they promise.

- `engine.dfy`, module `Engine`: the engine and picking values the game uses.
  These are a `real` vector `Vec3`, a `Transform` whose rotation is kept
  symbolic (`Identity` or `LookingAt(eye, target)`), and `Pick`, which holds
  the picking library's `Hover` and `Selection` components.
- `resources.dfy`, module `Resources`: the ownership markers and the `Card`
  record. A record holds a transform, an owner, and `pick: Option<Pick>`. That
  field is present only for cards spawned with the pickable bundle.
- `main.dfy`, module `Game`, in three parts:
  - The per-card rule of each system (`HoveredCard`, `FollowedCard`,
    `FacingCard`). `Run` applies a rule to the whole card table, and
    `Frame` runs the hover and drag passes in either order.
  - The lemmas about those rules.
  - The class `World`, the entity store. Its `cards` field is the table that
    the systems rewrite one card at a time. Each of its methods is proved
    equal to the matching specification function.

The model follows the code as written. In particular:

- Both rows are tagged `PlayerOwned` (src/main.rs:106, src/main.rs:120);
  `EnemyOwned` is never attached. As a result, the facing system turns both
  rows.
- The hover system queries `Hover`, which only the first row has, so it never
  touches the second row.
- The three systems are registered with no ordering (src/main.rs:25-27), so
  the hover and drag passes may run in either order within a frame. `Frame` takes the
  order as a parameter, and the lemmas say which property holds under which
  order.
- "Every pickable player card rests at height 0 or 2" holds in three cases: when the hover
  pass runs last, when there is no drag-plane hit, or when the hit lies at
  one of those heights.

## Model

| member | source | states |
|---|---|---|
| Game.Row | src/main.rs:95-108 | a layout loop of n iterations spawns exactly n cards |
| Game.RowAt | src/main.rs:95-122 | the card spawned at iteration i of a row is at x = -2 + i, height 0, on that row's depth, with that row's picking components |
| Game.HandLayout | src/main.rs:95-122 | the layout spawns exactly 10 cards: cards 0-4 at (-2 + i, 0, 4.5), cards 5-9 at (-2 + (i - 5), 0, -4.5), all unrotated and player-owned (none enemy-owned); a card is pickable exactly when it is on the z = 4.5 row, and pickable cards start neither hovered nor selected |
| Game.World.DrawHand | src/main.rs:90-123 | the layout appends exactly the ten cards of the hand, in spawn order, after the existing cards and changes nothing else |
| Game.Run | src/main.rs:131-133 | a system's pass over the table neither adds nor removes cards |
| Game.RunAt | src/main.rs:183-192 | a pass leaves card i as the system's rule makes it from card i alone, independent of the other cards |
| Game.HoverElevation | src/main.rs:136-143 | a pickable player card ends at height 2 if and only if hovered and at height 0 if and only if not; its x, z, rotation, owner and flags are kept; every other card is unchanged |
| Game.HoverIdempotent | src/main.rs:137-143 | running the hover pass twice equals running it once |
| Game.HoverSettles | src/main.rs:137-143 | after the hover pass every pickable player card is at height 0 or 2 |
| Game.World.CardHover | src/main.rs:136-144 | the in-place loop leaves the table equal to the hover pass over the old table |
| Game.FollowWithoutHit | src/main.rs:183-191 | without a drag-plane hit the drag pass changes no translation and no selection, even when the button was just released |
| Game.FollowDrag | src/main.rs:184-187 | with a hit p, a selected pickable player card ends at p, also in the frame of the release; every other card keeps its translation; rotation, owner, pickability and hover state never change |
| Game.FollowRelease | src/main.rs:184-190 | with a hit and a release, every pickable player card ends unselected with its hover state kept, whether or not it was selected; without a release no selection changes; no card becomes selected; cards outside the query are untouched |
| Game.World.CardFollowMouse | src/main.rs:166-193 | with exactly one camera, the in-place loop leaves the table equal to the drag pass over the old table for the frame's hit and release |
| Game.FaceCameraTurns | src/main.rs:129-133 | every player-owned card is turned from its own position toward the camera, and every other card is unchanged; translations, owners and flags never change |
| Game.FaceCameraIdempotent | src/main.rs:129-133 | with the camera unchanged, facing twice equals facing once |
| Game.FaceCameraTurnsWholeHand | src/main.rs:110-133 | both rows of the hand, including the row without picking components, are turned toward the camera |
| Game.World.CardsLookAtCamera | src/main.rs:125-134 | with exactly one camera, the in-place loop leaves the table equal to the facing pass over the old table for that camera's position |
| Game.FrameWithoutHit | src/main.rs:25-27 | without a hit, a frame in either order equals the hover pass alone |
| Game.DragWinsWhenHoverFirst | src/main.rs:26-27 | hover then drag: a selected pickable player card ends exactly on the hit |
| Game.HoverWinsWhenFollowFirst | src/main.rs:26-27 | drag then hover: a selected pickable player card takes the hit's x and z but its hover height (2 if hovered, else 0) |
| Game.OrderMatters | src/main.rs:26-27 | the two orders give different results: an unhovered selected card dragged to (1, 2, 0.5) ends at (1, 2, 0.5) in one order and at (1, 0, 0.5) in the other |
| Game.FrameSettles | src/main.rs:25-27 | after a frame, every pickable player card is at height 0 or 2 in three cases: the hover pass runs last, there is no hit, or the hit is at height 0 or 2 |
| Game.World.RunFrame | src/main.rs:26-27 | a frame's hover and drag passes, run in place in the given order, leave the table equal to `Frame` of the old table |

## Left out

- Scene setup (src/main.rs:32-88): the 8x8 board, the cube, the light, the camera spawn and the switch to the game state. `World`'s constructor takes the camera positions instead.
- The application builder and plugins (src/main.rs:17-29), including the inspector overlay and the picking plugins. The `hovered` and `selected` flags that the picking library sets are taken as they stand in the card records.
- The game-state machine (src/main.rs:9-15, src/main.rs:87) and the scheduling of the layout on entering play. `World.DrawHand` is a method the caller runs once.
- The drag-plane hit (src/main.rs:175-181). The cursor lookup, the camera's viewport-to-world ray, the ray/plane intersection and the point along the ray are engine code that is not part of this model. The hit is an `Option<Vec3>` input to the drag pass.
- Game.World.CardFollowMouse: does not model the single-window lookup (src/main.rs:172), which panics, and so ends the program, when there is not exactly one window. The cursor position read from that window is folded into the hit input. The camera lookup (src/main.rs:173) panics in the same way; that one is modelled as the requirement of exactly one camera.
- The rotation that `look_at` computes (src/main.rs:132). The quaternion math is engine code, so a rotation is kept as the pair (card position, camera position) it was computed from. The engine's rotation depends only on the direction between the two, so different pairs can give the same rotation; no lemma relies on different pairs giving different rotations.
- Single-precision arithmetic. Coordinates are `real`.
- Scale, meshes and materials. No system changes them.
- Game.Frame: the facing pass is not placed in the frame order. Its rotation depends on the card's translation, which the hover and drag passes change. It is modelled and proved on its own.
- `follow_mouse` and `Dangle` (src/main.rs:146-164). They are never registered as a system.
- `PlayerHand` (src/resources/mod.rs:3-6). It is never used.
