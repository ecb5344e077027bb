# WarCon world viewer: scroll offset, sprite placement and the frame loop

A Dafny model of the core of WarCon's pygame world viewer. A `World` shows a
screen-sized window onto a larger world. It keeps a scroll offset
`(backgroundX, backgroundY)` and an ordered group of `Block` sprites. Arrow
keys scroll the window by moving the offset and every block's rectangle by the
same amount. Each frame fills the screen, draws the background at the offset
when one is set, and draws every block in group order. A `Block` converts a
world position (origin bottom-left, y up) into a screen rectangle (origin
top-left, y down) once, when it is constructed.

Four modules. `Grid` and `World` follow the two source files
`model/grid.py` and `model/world.py`. `Scroll` is the value-level model of
`model/world.py`'s scrolling and frame loop, and `Draw` holds the pygame
values both files share:

- `Draw` (`draw.dfy`): images reduced to their size, colours, and the draw
  commands a frame issues (`Fill`, `Blit`).
- `Grid` (`grid.dfy`, for `model/grid.py`): block placement as pure functions
  (`ImagePath`, `Place`, `NewSprite`), with lemmas for the inverse,
  monotonicity and the fallback image. Also the `Block` class, whose `x`/`y`
  fields the world's moves change in place.
- `Scroll` (`scroll.dfy`, the value model of `model/world.py`): a `State`
  holds the offset, the background, the fill colour, the scroll speed, `done`
  and the sprites. `CanMoveUp`/`CanMoveDown`/`CanMoveLeft`/`CanMoveRight` (the four guards, each once), `MoveUp`/`MoveDown`/
  `MoveLeft`/`MoveRight`, `Step` (one frame's events and keys), `Draws` (one
  frame's output) and `RunFrames` (the loop) are defined here, with the
  lemmas about them.
- `World` (`world.dfy`, for `model/world.py`): the `World` class. Its fields
  are the source's fields, and its sprite group is a `seq<Block>` with no
  block twice. `MoveUp`/`MoveDown`/`MoveLeft`/`MoveRight`, `ScrollByKeys`,
  `Frame` and `Run` equate the new `Current()` with the `Scroll` function of
  the old state. `Add`, `HandleEvents` and `TranslateSprites` state what they
  change in the fields they touch. `DrawFrame` changes nothing and returns
  `Draws(Current())`. The moves loop over the blocks, updating each rectangle
  in place, and `Run` is a loop over frames.

Behaviour kept as the code has it (where the code cannot run as written, the
model follows its evident intent; "## Left out" lists those places):

- The guards are checked before a full step of `speed`, so an offset can pass
  its limit by less than one step. There is no clamping
  (`Scroll.MoveOvershootBounded`, `Scroll.MoveDoesNotClamp`). The offsets
  therefore do not always stay within `-(worldX - sizeX) <= backgroundX <= 0`.
  The model proves the weaker invariant the code does keep: each offset stays
  less than one step outside that range (`Scroll.RunStaysNearWorld`).
- `sizeX`/`sizeY` are screen sizes in grid cells (the window is
  `sizeX*gridSize` pixels wide, `model/world.py:74`). The down and right
  guards still subtract them from the world size in pixels. That formula is
  kept as written. For a 10x10-cell screen over a 20x20-cell world with
  32-pixel cells, scrolling right by 10 stops at -630, not at -320
  (`Scroll.ScrollRightScenario`).
- A quit event only sets `done`. The frame in which it arrives still scrolls,
  draws and presents. The loop stops at its next `done` check
  (`Scroll.QuitEndsRunAfterItsFrame`).

Outside inputs are parameters. `fileExists` and the image loader are
function-valued arguments of the `Block` constructor. Each frame's pending
events and held arrow keys are a `FrameInput`. The display surface is
replaced by the list of draw commands each frame returns.

## Model

| member | source | states |
|---|---|---|
| Grid.Place | model/grid.py:46-56 | the rectangle's x is `locX`, its size is the image's, and `locY` is recovered from it as `worldY - y - height - groundHeight` |
| Grid.PlaceRoundTrip | model/grid.py:55-56 | placement and recovering the world y are inverse: placing a rectangle's recovered world position gives back that rectangle |
| Grid.PlaceIgnoresWorldX | model/grid.py:46-48 | the world width `worldDim[0]` has no effect on the placed rectangle |
| Grid.HigherInWorldIsHigherOnScreen | model/grid.py:56 | for images of equal height, a larger world y gives a strictly smaller screen y, and conversely |
| Grid.NewSprite | model/grid.py:34-56 | a new block's image is the loaded requested image when it exists and the loaded error image otherwise; its rectangle has x `locX`, the image's size, and records `locY` as its world y |
| Grid.MissingImageFallsBack | model/grid.py:39-43 | every path `fileExists` rejects gives the same block, the one built from the error image, so for such paths the block does not depend on the requested path |
| Grid.ExistingImageIsLoaded | model/grid.py:39-41 | when the requested image exists, the block holds the image loaded from that path |
| Grid.PlaceAtOrigin | model/grid.py:56 | a 32x32 image at world (0, 0) in a 640-pixel-high world with no ground offset starts at screen y 608 |
| Grid.Block.constructor | model/grid.py:34-56 | a new block holds the sprite `NewSprite` describes (the chosen path is kept only as a ghost field) |
| Grid.Block.Render | model/grid.py:57-58 | render blits the block's image at exactly `(x, y)` and changes nothing |
| Scroll.MoveEffect | model/world.py:128-151 | a move whose guard fails changes nothing; one whose guard holds shifts the offset and every sprite by the same delta on its own axis only, leaving the other axis, sizes, images, order and all other fields unchanged |
| Scroll.MoveKeepsAlignment | model/world.py:128-151 | every move preserves each sprite's `rect.x - backgroundX` and `rect.y - backgroundY` |
| Scroll.MoveOvershootBounded | model/world.py:128-151 | with `speed > 0`, a move started within its limit ends less than one step beyond it (`< speed` for up and left; `> -(worldY - sizeY) - speed` and `> -(worldX - sizeX) - speed` for down and right) |
| Scroll.MoveDoesNotClamp | model/world.py:146-151 | a right move that starts less than one step inside the limit ends beyond it: the step is not clamped |
| Scroll.Dispatch | model/world.py:169-176 | a frame picks no direction when no arrow key is held, otherwise a held key with the highest priority in the order left, right, up, down |
| Scroll.StepMovesAtMostOnce | model/world.py:159-176 | one frame sets `done` if and only if a quit event arrives or it was set, makes no move when no arrow key is held, and otherwise makes exactly the move of the highest-priority held key at `scrollSpeed` |
| Scroll.Draws | model/world.py:178-187 | a frame's output is the fill, then the background at `(backgroundX, backgroundY)` exactly when there is one, then each sprite's blit in group order |
| Scroll.QuitEndsRunAfterItsFrame | model/world.py:157-193 | a quit event first seen in frame k leaves `done` set after exactly k+1 frames, and frame k's output is the draws of its own moved state: no frame k+1 runs |
| Scroll.RunWithoutQuit | model/world.py:157-193 | without a quit event the loop runs every frame it is given (none when `done` is already set) and `done` stays unchanged |
| Scroll.RunKeepsAlignment | model/world.py:157-176 | after any run of frames every sprite keeps its offset from the background, and the group keeps its size |
| Scroll.FreshWorldNearWorld | model/world.py:61-68 | a world as constructed (offset 0, scroll speed 10) starts within one step of the scroll limits |
| Scroll.RunStaysNearWorld | model/world.py:128-176 | over any run of frames each offset stays within one scroll step of its limits: overshoot never accumulates |
| Scroll.RepeatRightStops | model/world.py:146-151 | from offset 0, when the guard distance is m steps, n right moves leave the offset at `-speed * min(n, m)` |
| Scroll.ScrollRightScenario | model/world.py:146-151 | with a 10-cell screen over a 640-pixel world, 63 or 100 right moves by 10 leave the offset at -630 |
| World.World.constructor | model/world.py:51-81 | `worldX = gridX*gridSize`, `worldY = gridY*gridSize`, offsets 0, `fps` 30, `scrollSpeed` 10, `done` false, no background image, fill colour black and an empty sprite group |
| World.World.Add | model/world.py:81 | the sprite group appends a new block, ignores one it already holds, and never holds a block twice |
| World.World.TranslateSprites | model/world.py:128-151 | the loop over the group moves every block's rectangle by `(dx, dy)` in place, as `Translate` says |
| World.World.MoveUp | model/world.py:128-133 | the new state is `MoveUp` of the old one; the group itself is unchanged |
| World.World.MoveDown | model/world.py:134-139 | the new state is `MoveDown` of the old one, with the literal guard `backgroundY > -(worldY - sizeY)` |
| World.World.MoveLeft | model/world.py:140-145 | the new state is `MoveLeft` of the old one |
| World.World.MoveRight | model/world.py:146-151 | the new state is `MoveRight` of the old one, with the literal guard `backgroundX > -(worldX - sizeX)` |
| World.World.HandleEvents | model/world.py:159-163 | after the event loop, `done` is set if it was set or any event is a quit |
| World.World.ScrollByKeys | model/world.py:165-176 | the key chain applies exactly the move `Dispatch` picks, at the scroll speed, or none |
| World.World.DrawFrame | model/world.py:178-187 | the frame's draw calls are exactly `Draws` of the current state |
| World.World.Frame | model/world.py:158-193 | one loop body changes the state as `Step` says and draws the resulting state |
| World.World.Run | model/world.py:153-193 | the final state and every frame's draws are exactly those of `RunFrames` on the starting state |

## Left out

- pygame initialisation, `display.set_mode`, `display.flip`, `clock.tick`, `pygame.quit` and `sys.exit` (`model/world.py:71-78`, `190-200`): display and process lifecycle. A frame's presentation is its list of draw commands, and `fps` is kept only as a field.
- `setTitle`, `setIcon` and `loadMusic` (`model/world.py:90-126`): window and audio side effects on foreign objects.
- Event polling and `key.get_pressed` (`model/world.py:159-166`): each frame's events and held arrow keys come in as a `FrameInput`. Keys other than the four arrows have no effect here and are not represented.
- World.World.Run: the source loops until quit. The model runs over a finite list of frame inputs, so its loop also ends when that list runs out. This describes any finite stretch of the real loop.
- Image decoding, `convert_alpha` and `get_rect` (`model/grid.py:41-53`): an image is only its width and height, and the loader is a function parameter.
- `fileExists`, `printDebug` and `BLACK` come from `model.helper`, which is not part of this model. `fileExists` is a boolean function parameter; `printDebug` and its debug messages are left out; `BLACK` is taken to be RGB (0, 0, 0).
- `pygame.sprite.RenderPlain` internals (`model/world.py:81`): the group is an ordered sequence of distinct blocks.
- The `Tile` and `Grid` stubs (`model/grid.py:60-64`): they are declared with `def` and a base class in the parameter list, which Python rejects as a syntax error, so `model/grid.py` does not compile as written. The model leaves the stubs out and models `Block` as its code evidently intends.
- World.World.constructor: the source's parameters are named `worldX, worldY` (`model/world.py:22`), but the body reads `gridX` and `gridY` (`model/world.py:54-58`), which are not bound in the constructor. As written it raises `NameError` unless the star import of `model.helper` happens to define those names. The model follows the evident intent and takes the third and fourth arguments as grid counts, with `worldX = gridX*gridSize` and `worldY = gridY*gridSize`. The code checks no dimension, so the model's constructor has no precondition either.
- Grid.Block.constructor: the image loader is a total function, assumed never to fail. In the source, `pygame.image.load` raises `pygame.error`, and nothing catches it, when an existing path cannot be decoded (`model/grid.py:39-41`, a branch with no fallback) or when `view/tiles/error.png` itself is missing (`model/grid.py:43`). Only a path that `fileExists` rejects falls back to the error image.
- Exact clamping of the offsets: the source does not clamp, so the model does not either.
- Integer widths: pygame `Rect` coordinates are C ints, while the model's integers are unbounded. Overflow of a rectangle coordinate is not modelled.
- Setting `background_image`, `scrollSpeed` or `fps` from outside the class: these are plain fields that callers may assign, and the model has them as `var` fields.
