# Twenty Games: Pong movement and menu transition, in Dafny

This project models the two parts of the game that hold logic:

- **The Pong scene** (`PongSystems`, `pong.dfy`). `SetupPong` gives the initial layout. `PaddleY` and
  `PlayerMovement` move the player paddle with the arrow keys and clamp it to the playfield.
  `AxisStep`, `BallStep` and `BallMovement` move the ball along its direction. On each axis the
  ball bounces off the walls: the coordinate is pulled back one unit inside and that direction
  component is negated.
- **The menu scene** (`MenuSystems`, `menu.dfy`). `MenuEvents` folds the queue of animation
  events into the pending `GameState` transition. A `"Click"` requests `Pong` and any other event
  is only logged. `SetupAnimation` spawns the menu's entities, each tagged or not with the `Menu`
  marker. `RemoveMenu` despawns exactly the tagged ones.
- `Prelude` (`prelude.dfy`) holds the `GameState` enum (`Menu`, the default, and `Pong`) and an
  `Option` type for the pending transition.

Positions are exact `real`s. The playfield is taken as 500 × 500, the window resolution set at
`src/main.rs:30`; the program itself never defines `WINDOW_WIDTH` or `WINDOW_HEIGHT`.
Paddles are 10 × 50 and move at 100 units per second. The frame time `dt` and the two held keys
are parameters. An ECS query's "first matching entity" is modelled by a `World` record with one
sequence per component: a system changes the first element of its sequence and does nothing when
the sequence is empty. The log written for an unrecognised menu event is returned as the
`unhandled` list of `MenuOutcome`.

Facts about the program that shape the model:

- The program has no goal detection, scoring, paddle collision or opponent controller. The ball
  bounces off the left and right walls as it does off the top and bottom ones, and the opponent
  paddle never moves.
- The ball's wall limit is `(WINDOW_WIDTH - PADDLE_WIDTH) / 2` = 245 on both axes; it uses the
  paddle width.
- The player's x is computed from `WINDOW_HEIGHT` and the opponent's from `WINDOW_WIDTH`. With
  both taken as 500 the two paddles mirror each other, and `SetupPong` states the player's
  position in terms of the width; with unequal values they would not.

## Model

| member | source | states |
|---|---|---|
| PongSystems.Clamp | src/pong/mod.rs:93-95 | The result lies in `[lo, hi]`. It equals `v` when `v` is in range and the nearer bound otherwise. |
| PongSystems.SetupPong | src/pong/mod.rs:29-79 | Exactly one player, one opponent and one ball are spawned. The player is at (-245, 0) and the opponent at (245, 0), mirror images of each other (given equal window width and height, both taken as 500). The ball is at the origin with the given direction. All start inside the paddle range and the ball walls. |
| PongSystems.PaddleY | src/pong/mod.rs:90-101 | With one key held, y moves by exactly dt·100 in that key's direction when the result is inside `[-225, 225]`, and lands on the bound it reached or passed otherwise. With any key held, the new y is in `[-225, 225]`. A y that starts in range stays in range for any dt and keys. With no key held, y is unchanged. From a y in range and for dt ≥ 0, the paddle moves by at most dt·100: Up alone never lowers it and Down alone never raises it. |
| PongSystems.PlayerMovement | src/pong/mod.rs:81-102 | With no player entity, or no key held, nothing changes. Otherwise only the first player's y changes, as `PaddleY` says. Its x, the other players, the opponents and the balls are untouched. |
| PongSystems.PaddleStaysInRange | src/pong/mod.rs:90-101 | A paddle starting in `[-225, 225]` is still there after any sequence of frames with any frame times and keys. |
| PongSystems.BothKeysIsUpThenDown | src/pong/mod.rs:92-101 | Holding both keys is the clamped Up step followed by the clamped Down step. |
| PongSystems.BothKeysCancel | src/pong/mod.rs:92-101 | With both keys held and neither clamp binding, the paddle does not move. |
| PongSystems.BothKeysAtTopMovesDown | src/pong/mod.rs:92-101 | At the top edge with both keys held, the Up step is absorbed by the clamp, so the paddle moves down by dt·100. The order of the steps is observable. |
| PongSystems.AxisStep | src/pong/mod.rs:109-132 | The new coordinate is strictly inside (-245, 245). When the moved coordinate is strictly inside, the result is exactly that coordinate with the direction unchanged, and only then. Reaching or passing +245 gives 244 with the direction negated; reaching or passing -245 gives -244 with the direction negated. The direction's magnitude is kept. |
| PongSystems.BallStep | src/pong/mod.rs:112-132 | Each axis follows `AxisStep` on its own coordinate and direction component only. The ball ends strictly inside the walls. The magnitude of each direction component, and so the squared length of the direction, is unchanged. |
| PongSystems.BallMovement | src/pong/mod.rs:104-113 | With no ball, nothing changes. Otherwise only the first ball moves, as `BallStep` says, and it ends strictly inside the walls. Paddles and other balls are untouched. |
| PongSystems.AxesIndependent | src/pong/mod.rs:112-132 | For each axis, the ball's coordinate and direction component after a frame depend only on that axis before it, never on the other axis. |
| PongSystems.RunBallKeepsSpeedAndWalls | src/pong/mod.rs:112-132 | Over any number of frames, the magnitude of each direction component is unchanged. After at least one frame the ball is strictly inside the walls. |
| MenuSystems.MenuEvents | src/menu/mod.rs:66-77 | The pending state becomes `Pong` when the queue holds a `"Click"` and is left as it was otherwise. An empty queue changes nothing. An event is logged if and only if it is in the queue and is not named `"Click"` (order and repetition are fixed by `SingleEvent` and `UnhandledAppend`). |
| MenuSystems.SingleEvent | src/menu/mod.rs:71-75 | A `"Click"` sets the pending state to `Pong` and is not logged; any other single event is logged once and leaves the pending state unchanged. |
| MenuSystems.StartsGameIffClicked | src/menu/mod.rs:70-76 | With nothing pending beforehand, the result is `Pong` if and only if at least one `"Click"` is queued. |
| MenuSystems.UnrecognisedEventsIgnored | src/menu/mod.rs:73-75 | A queue without `"Click"` (for example `"Hover"`) leaves the pending state unchanged and logs every event, in order. |
| MenuSystems.HasClickAppend | src/menu/mod.rs:70-72 | A concatenation of two queues holds a click if and only if one of the two parts does. |
| MenuSystems.UnhandledAppend | src/menu/mod.rs:70-76 | The log for a concatenated queue is the log of the first part followed by the log of the second. |
| MenuSystems.UnhandledIgnoresPending | src/menu/mod.rs:73-75 | Which events are logged does not depend on the pending state. |
| MenuSystems.MenuEventsAppend | src/menu/mod.rs:70-76 | Reading two batches one after the other gives the same result as reading them as one queue. |
| MenuSystems.ClickIdempotent | src/menu/mod.rs:70-72 | One click and any positive number of clicks both give `Pong`. Reading the same queue a second time changes nothing. |
| MenuSystems.SetupAnimation | src/menu/mod.rs:18-64 | Three entities are spawned: a camera, the animation sprite and the animation state machine. The only one without the `Menu` marker is the camera. |
| MenuSystems.RemoveMenu | src/menu/mod.rs:79-83 | What remains is a subset of the world. It holds no `Menu`-tagged entity and keeps every untagged one. |
| MenuSystems.MenuRemovedUnique | src/menu/mod.rs:79-83 | The teardown's result is determined by the world it starts from. |
| MenuSystems.TeardownKeepsCamera | src/menu/mod.rs:33-39 | Tearing down a freshly set-up menu leaves exactly the untagged camera. |

## Left out

- The normalisation of (3, 2) for the ball's initial direction needs a square root. `SetupPong` takes the direction as a parameter instead.
- Single-precision float rounding: all arithmetic is exact over `real`.
- The time and keyboard resources are passed in as the parameters `dt` and `Keys`.
- Plugin and system registration, `Commands`/`Query` machinery, sprites, colours, and the z and scale of transforms. These are engine wiring with no logic.
- Applying the pending `GameState`, and running the `OnExit(Menu)` and `OnEnter(Pong)` hooks. The engine's scheduler does this. `src/main.rs` declares only `mod menu` (line 1) and adds only `MenuPlugin` (line 39), so the Pong systems are never registered.
- Loading the menu animation asset, resizing its image, the camera's settings and closing on Escape. These are foreign library calls and I/O.
- Goals, scoring, the score text, the opponent controller and paddle collision. None of these exist in the code.
- `WINDOW_WIDTH` and `WINDOW_HEIGHT` are not defined in the program; both are taken as 500, the window resolution at `src/main.rs:30`. The mirror-image layout stated by `SetupPong` depends on their being equal.
