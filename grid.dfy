/** The blocks of model/grid.py: static image-backed sprites placed once
    from a world-space position (origin bottom-left, y up) into a
    screen-space rectangle (origin top-left, y down). */
module Grid {
  import opened Draw

  /** The image loaded when the requested one does not exist. */
  const ErrorImagePath: string := "view/tiles/error.png"

  /** A screen-space rectangle: top-left corner and size, as a pygame Rect. */
  datatype Rect = Rect(x: int, y: int, width: int, height: int)

  /** What a block is at one moment: its image and where it sits on screen. */
  datatype Sprite = Sprite(image: Image, rect: Rect)

  /** The world dimensions a block is placed in: (worldX, worldY, groundHeight). */
  type WorldDim = (int, int, int)

  /** The path a block loads: the requested one when it exists, the error
      image otherwise. */
  function ImagePath(img: string, fileExists: string -> bool): string
  {
    if fileExists(img) then img else ErrorImagePath
  }

  /** The screen rectangle of an image placed at world position (locX, locY). */
  function Place(locX: int, locY: int, image: Image, worldDim: WorldDim): (r: Rect)
    ensures r.x == locX
    ensures r.width == image.width && r.height == image.height
    ensures WorldY(r, worldDim) == locY
  {
    Rect(locX, worldDim.1 - (locY + image.height) - worldDim.2, image.width, image.height)
  }

  /** The world-space y a screen rectangle was placed from (the inverse of Place on y). */
  function WorldY(r: Rect, worldDim: WorldDim): int
  {
    worldDim.1 - r.y - r.height - worldDim.2
  }

  /** The sprite a newly constructed block holds: the requested image when it
      exists, the error image otherwise, with its rectangle at x = locX, sized
      as the image, and recording the world y it was placed from. */
  function NewSprite(locX: int, locY: int, img: string, fileExists: string -> bool,
                     load: string -> Image, worldDim: WorldDim): (s: Sprite)
    ensures fileExists(img) ==> s.image == load(img)
    ensures !fileExists(img) ==> s.image == load(ErrorImagePath)
    ensures s.rect.x == locX
    ensures s.rect.width == s.image.width && s.rect.height == s.image.height
    ensures WorldY(s.rect, worldDim) == locY
  {
    var image := load(ImagePath(img, fileExists));
    Sprite(image, Place(locX, locY, image, worldDim))
  }

  /** Blitting a sprite draws its image at its rectangle's corner. */
  function Drawn(s: Sprite): DrawCommand
  {
    Blit(s.image, s.rect.x, s.rect.y)
  }

  /** Place and WorldY are inverse: a rectangle of the image's size is the
      placement of the world position it records. */
  lemma PlaceRoundTrip(r: Rect, image: Image, worldDim: WorldDim)
    requires r.width == image.width && r.height == image.height
    ensures Place(r.x, WorldY(r, worldDim), image, worldDim) == r
  {
  }

  /** The world's width plays no part in placement. */
  lemma PlaceIgnoresWorldX(locX: int, locY: int, image: Image, worldX1: int, worldX2: int,
                           worldY: int, groundHeight: int)
    ensures Place(locX, locY, image, (worldX1, worldY, groundHeight))
         == Place(locX, locY, image, (worldX2, worldY, groundHeight))
  {
  }

  /** For images of equal height, a block higher in the world sits strictly
      higher on screen, and conversely. */
  lemma HigherInWorldIsHigherOnScreen(locX1: int, locY1: int, image1: Image,
                                      locX2: int, locY2: int, image2: Image, worldDim: WorldDim)
    requires image1.height == image2.height
    ensures locY1 < locY2 <==> Place(locX2, locY2, image2, worldDim).y < Place(locX1, locY1, image1, worldDim).y
  {
  }

  /** A missing image never fails construction: every missing path yields the
      same block, built from the error image. */
  lemma MissingImageFallsBack(locX: int, locY: int, img1: string, img2: string,
                              fileExists: string -> bool, load: string -> Image, worldDim: WorldDim)
    requires !fileExists(img1) && !fileExists(img2)
    ensures NewSprite(locX, locY, img1, fileExists, load, worldDim)
         == NewSprite(locX, locY, img2, fileExists, load, worldDim)
    ensures NewSprite(locX, locY, img1, fileExists, load, worldDim).image == load(ErrorImagePath)
  {
  }

  /** An image that exists is the one loaded. */
  lemma ExistingImageIsLoaded(locX: int, locY: int, img: string,
                              fileExists: string -> bool, load: string -> Image, worldDim: WorldDim)
    requires fileExists(img)
    ensures NewSprite(locX, locY, img, fileExists, load, worldDim).image == load(img)
  {
  }

  /** A 32x32 image at world (0, 0) in a world 640 pixels high with no ground
      offset starts at screen y 608. */
  lemma PlaceAtOrigin()
    ensures Place(0, 0, Image(32, 32), (640, 640, 0)) == Rect(0, 608, 32, 32)
  {
  }

  /** A block: its image and the rectangle the world's scrolling moves. */
  class Block {
    /** The path the image was loaded from; the source does not keep it. */
    ghost const path: string
    const image: Image
    var x: int
    var y: int
    const width: int
    const height: int

    function Bounds(): Rect
      reads this
    {
      Rect(x, y, width, height)
    }

    function Snapshot(): Sprite
      reads this
    {
      Sprite(image, Bounds())
    }

    /** Loads the requested image (the error image when it does not exist)
        and places it at world position (locX, locY). */
    constructor (locX: int, locY: int, img: string, fileExists: string -> bool,
                 load: string -> Image, worldDim: WorldDim)
      ensures path == ImagePath(img, fileExists)
      ensures Snapshot() == NewSprite(locX, locY, img, fileExists, load, worldDim)
    {
      var tmpImage := if fileExists(img) then load(img) else load(ErrorImagePath);
      path := ImagePath(img, fileExists);
      image := tmpImage;
      width := tmpImage.width;
      height := tmpImage.height;
      x := locX;
      y := worldDim.1 - (locY + tmpImage.height) - worldDim.2;
    }

    /** Blits the image at the current rectangle; the block is left as it was. */
    method Render() returns (c: DrawCommand)
      ensures c == Blit(image, x, y)
    {
      c := Blit(image, x, y);
    }
  }
}
