/** The world of model/world.py: a scroll offset, the blocks it owns, and the
    frame loop that scrolls and redraws them. The moves, ScrollByKeys, Frame
    and Run equate the new Current() with the Scroll function of the old
    state; Add, HandleEvents and TranslateSprites state what they change in
    the fields they touch; DrawFrame returns Draws(Current()). */
module World {
  import opened Draw
  import opened Grid
  import opened Scroll

  /** The sprites of a sequence of blocks, in order. */
  function Snapshots(bs: seq<Block>): seq<Sprite>
    reads bs
  {
    seq(|bs|, i reads bs requires 0 <= i < |bs| => bs[i].Snapshot())
  }

  class World {
    const sizeX: int
    const sizeY: int
    const gridX: int
    const gridY: int
    const gridSize: int
    const worldX: int
    const worldY: int

    var backgroundImage: Option<Image>
    var backgroundX: int
    var backgroundY: int
    var backgroundColor: Color
    var fps: int
    var scrollSpeed: int
    var done: bool
    /** The sprite group: blocks in the order they were added, each once. */
    var sprites: seq<Block>

    ghost predicate Valid()
      reads this
    {
      forall i, j :: 0 <= i < j < |sprites| ==> sprites[i] != sprites[j]
    }

    function Dimensions(): Dims
    {
      Dims(sizeX, sizeY, worldX, worldY)
    }

    function Current(): State
      reads this, sprites
    {
      State(backgroundX, backgroundY, backgroundImage, backgroundColor, scrollSpeed, done,
            Snapshots(sprites))
    }

    /** A world whose screen is x by y cells and whose extent is gridX by
        gridY cells of gridSize pixels, not yet scrolled and holding nothing. */
    constructor (x: int, y: int, gridX: int, gridY: int, gridSize: int)
      ensures Valid()
      ensures sizeX == x && sizeY == y
      ensures this.gridX == gridX && this.gridY == gridY && this.gridSize == gridSize
      ensures worldX == gridX * gridSize && worldY == gridY * gridSize
      ensures fps == 30
      ensures Current() == State(0, 0, None, Black, 10, false, [])
    {
      sizeX := x;
      sizeY := y;
      this.gridX := gridX;
      this.gridY := gridY;
      this.gridSize := gridSize;
      worldX := gridX * gridSize;
      worldY := gridY * gridSize;
      backgroundImage := None;
      backgroundX := 0;
      backgroundY := 0;
      backgroundColor := Black;
      fps := 30;
      scrollSpeed := 10;
      done := false;
      sprites := [];
    }

    /** Adds a block to the sprite group: at the end if it is new, not at all
        if the group already holds it. */
    method Add(b: Block)
      requires Valid()
      modifies this
      ensures Valid()
      ensures sprites == if b in old(sprites) then old(sprites) else old(sprites) + [b]
      ensures backgroundImage == old(backgroundImage) && backgroundX == old(backgroundX)
      ensures backgroundY == old(backgroundY) && backgroundColor == old(backgroundColor)
      ensures fps == old(fps) && scrollSpeed == old(scrollSpeed) && done == old(done)
    {
      if b !in sprites {
        sprites := sprites + [b];
      }
    }

    /** Shifts every owned block's rectangle by (dx, dy). */
    method TranslateSprites(dx: int, dy: int)
      requires Valid()
      modifies sprites
      ensures Snapshots(sprites) == Translate(old(Snapshots(sprites)), dx, dy)
    {
      for i := 0 to |sprites|
        invariant forall k :: 0 <= k < i ==>
          sprites[k].x == old(sprites[k].x) + dx && sprites[k].y == old(sprites[k].y) + dy
        invariant forall k :: i <= k < |sprites| ==>
          sprites[k].x == old(sprites[k].x) && sprites[k].y == old(sprites[k].y)
      {
        var b := sprites[i];
        b.x, b.y := b.x + dx, b.y + dy;
      }
      ghost var was := old(Snapshots(sprites));
      forall k | 0 <= k < |sprites|
        ensures Snapshots(sprites)[k] == Translate(was, dx, dy)[k]
      {
        assert was[k] == old(sprites[k].Snapshot());
      }
    }

    method MoveUp(speed: int := 1)
      requires Valid()
      modifies this, sprites
      ensures Valid() && sprites == old(sprites) && fps == old(fps)
      ensures Current() == Scroll.MoveUp(Dimensions(), old(Current()), speed)
    {
      if backgroundY < 0 {
        backgroundY := backgroundY + speed;
        TranslateSprites(0, speed);
      }
    }

    method MoveDown(speed: int := 1)
      requires Valid()
      modifies this, sprites
      ensures Valid() && sprites == old(sprites) && fps == old(fps)
      ensures Current() == Scroll.MoveDown(Dimensions(), old(Current()), speed)
    {
      if backgroundY > -(worldY - sizeY) {
        var step := -speed;
        backgroundY := backgroundY + step;
        TranslateSprites(0, step);
      }
    }

    method MoveLeft(speed: int := 1)
      requires Valid()
      modifies this, sprites
      ensures Valid() && sprites == old(sprites) && fps == old(fps)
      ensures Current() == Scroll.MoveLeft(Dimensions(), old(Current()), speed)
    {
      if backgroundX < 0 {
        backgroundX := backgroundX + speed;
        TranslateSprites(speed, 0);
      }
    }

    method MoveRight(speed: int := 1)
      requires Valid()
      modifies this, sprites
      ensures Valid() && sprites == old(sprites) && fps == old(fps)
      ensures Current() == Scroll.MoveRight(Dimensions(), old(Current()), speed)
    {
      if backgroundX > -(worldX - sizeX) {
        var step := -speed;
        backgroundX := backgroundX + step;
        TranslateSprites(step, 0);
      }
    }

    /** The event loop of one frame: a quit event sets done; nothing else
        changes. */
    method HandleEvents(events: seq<Event>)
      modifies this`done
      ensures done == (old(done) || Quit in events)
    {
      for j := 0 to |events|
        invariant done == (old(done) || Quit in events[..j])
      {
        if events[j] == Quit {
          done := true;
        }
        assert events[..j + 1] == events[..j] + [events[j]];
      }
      assert events[..|events|] == events;
    }

    /** The key handling of one frame: at most one move, by the scroll
        speed, for the first held key in the order left, right, up, down. */
    method ScrollByKeys(held: set<Dir>)
      requires Valid()
      modifies this, sprites
      ensures Valid() && sprites == old(sprites) && fps == old(fps)
      ensures Current() == match Dispatch(held)
                           case None => old(Current())
                           case Some(dir) => Move(Dimensions(), old(Current()), dir, old(scrollSpeed))
    {
      if Left in held {
        MoveLeft(scrollSpeed);
      } else if Right in held {
        MoveRight(scrollSpeed);
      } else if Up in held {
        MoveUp(scrollSpeed);
      } else if Down in held {
        MoveDown(scrollSpeed);
      }
    }

    /** The drawing of one frame: fill, the background at the scroll offset
        when there is one, then every sprite in collection order. */
    method DrawFrame() returns (cmds: seq<DrawCommand>)
      ensures cmds == Draws(Current())
    {
      cmds := [Fill(backgroundColor)];
      if backgroundImage != None {
        cmds := cmds + [Blit(backgroundImage.value, backgroundX, backgroundY)];
      }
      ghost var head := cmds;
      ghost var ss := Snapshots(sprites);
      for j := 0 to |sprites|
        invariant |cmds| == |head| + j && cmds[..|head|] == head
        invariant forall k :: 0 <= k < j ==> cmds[|head| + k] == Drawn(ss[k])
      {
        var c := sprites[j].Render();
        cmds := cmds + [c];
      }
      assert cmds == head + SpriteDraws(ss);
    }

    /** One pass of the main loop's body: events, keys, drawing. */
    method Frame(input: FrameInput) returns (cmds: seq<DrawCommand>)
      requires Valid()
      modifies this, sprites
      ensures Valid() && sprites == old(sprites) && fps == old(fps)
      ensures Current() == Step(Dimensions(), old(Current()), input)
      ensures cmds == Draws(Current())
    {
      ghost var s0 := Current();
      HandleEvents(input.events);
      assert Current() == s0.(done := s0.done || Quit in input.events);
      ScrollByKeys(input.held);
      assert Current() == Step(Dimensions(), s0, input);
      cmds := DrawFrame();
    }

    /** The main loop, over the frames the outside supplies: while done is
        false, run one frame. Returns each frame's draws. */
    method Run(inputs: seq<FrameInput>) returns (frames: seq<seq<DrawCommand>>)
      requires Valid()
      modifies this, sprites
      ensures Valid() && sprites == old(sprites) && fps == old(fps)
      ensures (Current(), frames) == RunFrames(Dimensions(), old(Current()), inputs)
    {
      ghost var total := RunFrames(Dimensions(), Current(), inputs);
      assert total == RunFrames(Dimensions(), old(Current()), inputs);
      frames := [];
      var i := 0;
      assert inputs[i..] == inputs;
      assert total == RunFrames(Dimensions(), Current(), inputs[i..]);
      assert total == (total.0, total.1);
      assert frames + total.1 == total.1;
      assert total == (RunFrames(Dimensions(), Current(), inputs[i..]).0,
                       frames + RunFrames(Dimensions(), Current(), inputs[i..]).1);
      while !done && i < |inputs|
        invariant 0 <= i <= |inputs|
        invariant Valid() && sprites == old(sprites) && fps == old(fps)
        invariant total == (RunFrames(Dimensions(), Current(), inputs[i..]).0,
                            frames + RunFrames(Dimensions(), Current(), inputs[i..]).1)
        decreases |inputs| - i
      {
        ghost var before := Current();
        assert inputs[i..][0] == inputs[i] && inputs[i..][1..] == inputs[i + 1..];
        RunFramesStep(Dimensions(), before, inputs[i..]);
        var cmds := Frame(inputs[i]);
        ghost var rest := RunFrames(Dimensions(), Current(), inputs[i + 1..]);
        assert total == (rest.0, frames + ([cmds] + rest.1));
        assert frames + ([cmds] + rest.1) == (frames + [cmds]) + rest.1;
        frames := frames + [cmds];
        i := i + 1;
      }
      assert done || inputs[i..] == [];
      assert RunFrames(Dimensions(), Current(), inputs[i..]) == (Current(), []);
      assert frames + [] == frames;
    }
  }
}
