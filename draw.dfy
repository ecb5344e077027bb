/** Values shared by model/world.py and model/grid.py: images reduced to
    their size, colours, and the draw operations a frame issues to the
    display surface (pygame's surface and image types). */
module Draw {

  datatype Option<+T> = None | Some(value: T)

  /** A loaded image, reduced to what placement and drawing use: its size. */
  datatype Image = Image(width: nat, height: nat)

  datatype Color = Rgb(r: int, g: int, b: int)

  /** The fill colour every frame starts with (the value of BLACK in model.helper). */
  const Black: Color := Rgb(0, 0, 0)

  /** One call on the display surface: clear it to a colour, or blit an image
      with its top-left corner at a screen position. */
  datatype DrawCommand =
    | Fill(color: Color)
    | Blit(image: Image, x: int, y: int)
}
