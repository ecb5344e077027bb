/** The value-level model of model/world.py's scrolling and frame loop: what
    one move, one frame and a run of frames do to the scroll offset, the
    sprites and the screen. The moves, the key handling, one frame and the
    run of the World class are proved to behave exactly as these functions
    say. */
module Scroll {
  import opened Draw
  import opened Grid

  datatype Dir = Left | Right | Up | Down

  datatype Event = Quit | OtherEvent

  /** What one frame reads from the outside: the pending events and the arrow
      keys held down. */
  datatype FrameInput = FrameInput(events: seq<Event>, held: set<Dir>)

  /** The sizes the scroll guards compare, as the world stores them: the
      screen in grid cells, the world in pixels. */
  datatype Dims = Dims(sizeX: int, sizeY: int, worldX: int, worldY: int)

  /** The part of a world that frames read and change. */
  datatype State = State(
    backgroundX: int,
    backgroundY: int,
    backgroundImage: Option<Image>,
    backgroundColor: Color,
    scrollSpeed: int,
    done: bool,
    sprites: seq<Sprite>)

  /** Every sprite shifted by (dx, dy), in the same order, images untouched. */
  function Translate(ss: seq<Sprite>, dx: int, dy: int): seq<Sprite>
  {
    seq(|ss|, i requires 0 <= i < |ss| =>
      Sprite(ss[i].image, ss[i].rect.(x := ss[i].rect.x + dx, y := ss[i].rect.y + dy)))
  }

  /** The guard each move checks before it steps. The down and right guards
      subtract the screen size in grid cells from the world size in pixels. */
  predicate CanMoveUp(s: State) { s.backgroundY < 0 }

  predicate CanMoveDown(d: Dims, s: State) { s.backgroundY > -(d.worldY - d.sizeY) }

  predicate CanMoveLeft(s: State) { s.backgroundX < 0 }

  predicate CanMoveRight(d: Dims, s: State) { s.backgroundX > -(d.worldX - d.sizeX) }

  predicate CanMove(d: Dims, s: State, dir: Dir)
  {
    match dir
    case Up => CanMoveUp(s)
    case Down => CanMoveDown(d, s)
    case Left => CanMoveLeft(s)
    case Right => CanMoveRight(d, s)
  }

  function MoveUp(d: Dims, s: State, speed: int): State
  {
    if CanMoveUp(s) then
      s.(backgroundY := s.backgroundY + speed, sprites := Translate(s.sprites, 0, speed))
    else s
  }

  function MoveDown(d: Dims, s: State, speed: int): State
  {
    if CanMoveDown(d, s) then
      s.(backgroundY := s.backgroundY - speed, sprites := Translate(s.sprites, 0, -speed))
    else s
  }

  function MoveLeft(d: Dims, s: State, speed: int): State
  {
    if CanMoveLeft(s) then
      s.(backgroundX := s.backgroundX + speed, sprites := Translate(s.sprites, speed, 0))
    else s
  }

  function MoveRight(d: Dims, s: State, speed: int): State
  {
    if CanMoveRight(d, s) then
      s.(backgroundX := s.backgroundX - speed, sprites := Translate(s.sprites, -speed, 0))
    else s
  }

  function Move(d: Dims, s: State, dir: Dir, speed: int): State
  {
    match dir
    case Up => MoveUp(d, s, speed)
    case Down => MoveDown(d, s, speed)
    case Left => MoveLeft(d, s, speed)
    case Right => MoveRight(d, s, speed)
  }

  /** How far a permitted move shifts the offset and every sprite, per axis. */
  function DeltaX(dir: Dir, speed: int): int
  {
    match dir
    case Left => speed
    case Right => -speed
    case _ => 0
  }

  function DeltaY(dir: Dir, speed: int): int
  {
    match dir
    case Up => speed
    case Down => -speed
    case _ => 0
  }

  /** A move whose guard fails changes nothing; one whose guard holds shifts
      the offset and every sprite by exactly the same delta, on its own axis
      only, and keeps the sprites, their order, images and sizes. */
  lemma MoveEffect(d: Dims, s: State, dir: Dir, speed: int)
    ensures !CanMove(d, s, dir) ==> Move(d, s, dir, speed) == s
    ensures CanMove(d, s, dir) ==>
      var r := Move(d, s, dir, speed);
      r.backgroundX == s.backgroundX + DeltaX(dir, speed) &&
      r.backgroundY == s.backgroundY + DeltaY(dir, speed) &&
      r.backgroundImage == s.backgroundImage && r.backgroundColor == s.backgroundColor &&
      r.scrollSpeed == s.scrollSpeed && r.done == s.done &&
      |r.sprites| == |s.sprites| &&
      forall i :: 0 <= i < |s.sprites| ==>
        r.sprites[i].image == s.sprites[i].image &&
        r.sprites[i].rect.x == s.sprites[i].rect.x + DeltaX(dir, speed) &&
        r.sprites[i].rect.y == s.sprites[i].rect.y + DeltaY(dir, speed) &&
        r.sprites[i].rect.width == s.sprites[i].rect.width &&
        r.sprites[i].rect.height == s.sprites[i].rect.height
  {
  }

  /** The offset of every sprite from the background, on both axes. */
  predicate Aligned(s: State, t: State)
  {
    |t.sprites| == |s.sprites| &&
    forall i :: 0 <= i < |s.sprites| ==>
      t.sprites[i].rect.x - t.backgroundX == s.sprites[i].rect.x - s.backgroundX &&
      t.sprites[i].rect.y - t.backgroundY == s.sprites[i].rect.y - s.backgroundY
  }

  /** Content and background move together: no move changes where a sprite
      sits relative to the background. */
  lemma MoveKeepsAlignment(d: Dims, s: State, dir: Dir, speed: int)
    ensures Aligned(s, Move(d, s, dir, speed))
  {
  }

  /** The guard is checked before a full step, so a move can pass its limit,
      but by less than one step. */
  lemma MoveOvershootBounded(d: Dims, s: State, dir: Dir, speed: int)
    requires speed > 0
    ensures dir == Up && s.backgroundY <= 0 ==> Move(d, s, dir, speed).backgroundY < speed
    ensures dir == Left && s.backgroundX <= 0 ==> Move(d, s, dir, speed).backgroundX < speed
    ensures dir == Down && s.backgroundY >= -(d.worldY - d.sizeY) ==>
      Move(d, s, dir, speed).backgroundY > -(d.worldY - d.sizeY) - speed
    ensures dir == Right && s.backgroundX >= -(d.worldX - d.sizeX) ==>
      Move(d, s, dir, speed).backgroundX > -(d.worldX - d.sizeX) - speed
  {
  }

  /** A move never stops short of a permitted step: it does not clamp. A
      permitted move ends exactly one step past its start even when that
      crosses the limit. */
  lemma MoveDoesNotClamp(d: Dims, s: State, speed: int)
    requires speed > 0
    requires -(d.worldX - d.sizeX) < s.backgroundX < -(d.worldX - d.sizeX) + speed
    ensures Move(d, s, Right, speed).backgroundX < -(d.worldX - d.sizeX)
  {
  }

  /** The order in which held arrow keys are tried. */
  function Rank(dir: Dir): nat
  {
    match dir
    case Left => 0
    case Right => 1
    case Up => 2
    case Down => 3
  }

  /** The one direction a frame scrolls: the held arrow key that comes first
      in the order left, right, up, down; none when no arrow key is held. */
  function Dispatch(held: set<Dir>): (r: Option<Dir>)
    ensures r.None? <==> held == {}
    ensures r.Some? ==> r.value in held && forall e :: e in held ==> Rank(r.value) <= Rank(e)
  {
    if Left in held then Some(Left)
    else if Right in held then Some(Right)
    else if Up in held then Some(Up)
    else if Down in held then Some(Down)
    else HeldAreArrows(held); None
  }

  lemma HeldAreArrows(held: set<Dir>)
    ensures held <= {Left, Right, Up, Down}
  {
    forall e | e in held ensures e in {Left, Right, Up, Down} {
      match e {
        case Left =>
        case Right =>
        case Up =>
        case Down =>
      }
    }
  }

  /** The world after one frame's event and key handling: a quit event sets
      done, then at most one move by the scroll speed. */
  function Step(d: Dims, s: State, input: FrameInput): State
  {
    var seen := s.(done := s.done || Quit in input.events);
    match Dispatch(input.held)
    case None => seen
    case Some(dir) => Move(d, seen, dir, s.scrollSpeed)
  }

  /** One frame applies at most one move: none when no arrow key is held,
      otherwise the move of the highest-priority held key at scroll speed. */
  lemma StepMovesAtMostOnce(d: Dims, s: State, input: FrameInput)
    ensures Step(d, s, input).done == (s.done || Quit in input.events)
    ensures input.held == {} ==> Step(d, s, input) == s.(done := s.done || Quit in input.events)
    ensures input.held != {} ==>
      exists dir :: dir in input.held && (forall e :: e in input.held ==> Rank(dir) <= Rank(e)) &&
        Step(d, s, input) == Move(d, s.(done := s.done || Quit in input.events), dir, s.scrollSpeed)
  {
  }

  /** The blits of the sprites, in collection order. */
  function SpriteDraws(ss: seq<Sprite>): seq<DrawCommand>
  {
    seq(|ss|, i requires 0 <= i < |ss| => Drawn(ss[i]))
  }

  /** What a frame draws: the fill, the background at the scroll offset when
      there is one, then every sprite in collection order. */
  function Draws(s: State): (cmds: seq<DrawCommand>)
    ensures |cmds| == 1 + (if s.backgroundImage.Some? then 1 else 0) + |s.sprites|
    ensures cmds[0] == Fill(s.backgroundColor)
    ensures s.backgroundImage.Some? ==>
      cmds[1] == Blit(s.backgroundImage.value, s.backgroundX, s.backgroundY)
    ensures forall i :: 0 <= i < |s.sprites| ==>
      cmds[|cmds| - |s.sprites| + i] == Drawn(s.sprites[i])
  {
    [Fill(s.backgroundColor)]
    + (match s.backgroundImage
       case Some(image) => [Blit(image, s.backgroundX, s.backgroundY)]
       case None => [])
    + SpriteDraws(s.sprites)
  }

  /** The main loop over a finite run of frame inputs: while done is false,
      handle one frame and draw it. Gives the final world and each frame's
      draws. */
  function RunFrames(d: Dims, s: State, inputs: seq<FrameInput>): (State, seq<seq<DrawCommand>>)
    decreases |inputs|
  {
    if s.done || inputs == [] then (s, [])
    else
      var next := Step(d, s, inputs[0]);
      var rest := RunFrames(d, next, inputs[1..]);
      (rest.0, [Draws(next)] + rest.1)
  }

  /** One turn of the loop while done is false: the frame, then the rest. */
  lemma RunFramesStep(d: Dims, s: State, inputs: seq<FrameInput>)
    requires !s.done && inputs != []
    ensures RunFrames(d, s, inputs)
         == (RunFrames(d, Step(d, s, inputs[0]), inputs[1..]).0,
             [Draws(Step(d, s, inputs[0]))] + RunFrames(d, Step(d, s, inputs[0]), inputs[1..]).1)
  {
  }

  /** A quit event first seen in frame k (counting from 0) still completes
      that frame's moves and draws, and no later frame runs. */
  lemma {:induction false} QuitEndsRunAfterItsFrame(d: Dims, s: State, inputs: seq<FrameInput>, k: nat)
    requires !s.done
    requires k < |inputs| && Quit in inputs[k].events
    requires forall j :: 0 <= j < k ==> Quit !in inputs[j].events
    ensures RunFrames(d, s, inputs).0.done
    ensures |RunFrames(d, s, inputs).1| == k + 1
    ensures RunFrames(d, s, inputs).1[k] == Draws(Step(d, RunStates(d, s, inputs, k), inputs[k]))
    decreases k
  {
    if k > 0 {
      QuitEndsRunAfterItsFrame(d, Step(d, s, inputs[0]), inputs[1..], k - 1);
    }
  }

  /** The world before frame k of a run that has not stopped. */
  function RunStates(d: Dims, s: State, inputs: seq<FrameInput>, k: nat): State
    requires k <= |inputs|
    decreases k
  {
    if k == 0 then s else RunStates(d, Step(d, s, inputs[0]), inputs[1..], k - 1)
  }

  /** Without a quit event the loop runs every frame it is given (none when
      done is already set) and done stays as it was. */
  lemma {:induction false} RunWithoutQuit(d: Dims, s: State, inputs: seq<FrameInput>)
    requires forall j :: 0 <= j < |inputs| ==> Quit !in inputs[j].events
    ensures RunFrames(d, s, inputs).0.done == s.done
    ensures |RunFrames(d, s, inputs).1| == if s.done then 0 else |inputs|
    decreases |inputs|
  {
    if !s.done && inputs != [] {
      RunWithoutQuit(d, Step(d, s, inputs[0]), inputs[1..]);
    }
  }

  /** Over any run of frames the sprites stay aligned with the background. */
  lemma {:induction false} RunKeepsAlignment(d: Dims, s: State, inputs: seq<FrameInput>)
    ensures Aligned(s, RunFrames(d, s, inputs).0)
    decreases |inputs|
  {
    if !s.done && inputs != [] {
      var next := Step(d, s, inputs[0]);
      var seen := s.(done := s.done || Quit in inputs[0].events);
      match Dispatch(inputs[0].held) {
        case None =>
        case Some(dir) => MoveKeepsAlignment(d, seen, dir, s.scrollSpeed);
      }
      RunKeepsAlignment(d, next, inputs[1..]);
      AlignedTransitive(s, next, RunFrames(d, next, inputs[1..]).0);
    }
  }

  lemma AlignedTransitive(s: State, t: State, u: State)
    requires Aligned(s, t) && Aligned(t, u)
    ensures Aligned(s, u)
  {
  }

  function Min(a: int, b: int): int
  {
    if a <= b then a else b
  }

  /** The scroll offset lies within one step of the range a non-overshooting
      scroll would keep, on both axes. */
  predicate NearWorld(d: Dims, s: State)
  {
    s.scrollSpeed > 0 &&
    Min(0, -(d.worldX - d.sizeX)) - s.scrollSpeed < s.backgroundX < s.scrollSpeed &&
    Min(0, -(d.worldY - d.sizeY)) - s.scrollSpeed < s.backgroundY < s.scrollSpeed
  }

  /** A world as constructed, scroll speed 10 and offset (0, 0), starts
      within those limits whatever its sizes. */
  lemma FreshWorldNearWorld(d: Dims, sprites: seq<Sprite>)
    ensures NearWorld(d, State(0, 0, None, Black, 10, false, sprites))
  {
  }

  /** Overshoot never accumulates: over any run of frames the offset stays
      within one step of its limits. */
  lemma {:induction false} RunStaysNearWorld(d: Dims, s: State, inputs: seq<FrameInput>)
    requires NearWorld(d, s)
    ensures NearWorld(d, RunFrames(d, s, inputs).0)
    decreases |inputs|
  {
    if !s.done && inputs != [] {
      RunStaysNearWorld(d, Step(d, s, inputs[0]), inputs[1..]);
    }
  }

  /** The same move repeated n times. */
  function Repeat(d: Dims, s: State, dir: Dir, speed: int, n: nat): State
  {
    if n == 0 then s else Move(d, Repeat(d, s, dir, speed, n - 1), dir, speed)
  }

  /** Scrolling right from offset 0 by steps that divide the guard's distance
      m * speed exactly goes one step per call for m calls and then stops. */
  lemma {:induction false} RepeatRightStops(d: Dims, s: State, speed: int, m: nat, n: nat)
    requires speed > 0 && s.backgroundX == 0
    requires d.worldX - d.sizeX == speed * m
    ensures Repeat(d, s, Right, speed, n).backgroundX == -(speed * Min(n, m))
  {
    if n > 0 {
      RepeatRightStops(d, s, speed, m, n - 1);
      var before := Repeat(d, s, Right, speed, n - 1);
      assert Repeat(d, s, Right, speed, n) == MoveRight(d, before, speed);
      if n - 1 < m {
        StepBeforeLimit(speed, n - 1, m);
        assert before.backgroundX > -(d.worldX - d.sizeX);
      } else {
        assert before.backgroundX == -(d.worldX - d.sizeX);
      }
    }
  }

  lemma StepBeforeLimit(a: int, i: int, j: int)
    requires a > 0 && i < j
    ensures -(a * i) > -(a * j)
    ensures -(a * i) - a == -(a * (i + 1))
  {
  }

  /** A screen of 10x10 cells of 32 pixels over a 20x20-cell world: the right
      guard compares the 640-pixel world width with the 10-cell screen width,
      so scrolling right by 10 stops at -630, not at -(640 - 320). */
  lemma ScrollRightScenario(s: State)
    requires s.backgroundX == 0
    ensures Repeat(Dims(10, 10, 20 * 32, 20 * 32), s, Right, 10, 63).backgroundX == -630
    ensures Repeat(Dims(10, 10, 20 * 32, 20 * 32), s, Right, 10, 100).backgroundX == -630
  {
    RepeatRightStops(Dims(10, 10, 640, 640), s, 10, 63, 63);
    RepeatRightStops(Dims(10, 10, 640, 640), s, 10, 63, 100);
  }
}
