/** The drawing vocabulary every transition shares: frame sizes, points,
    masks on snapshot copies, and the sprite a transition paints on.
    Pixels are not modelled; a sprite keeps the list of drawing commands
    issued on its bitmap since the bitmap was last cleared. */
module Canvas {

  /** A bitmap side. The host's Bitmap never makes a side smaller than 1. */
  type Dim = n: int | n >= 1 witness 1

  /** Size of a captured frame ($gameSystem.snap and its copies). */
  datatype Frame = Frame(width: Dim, height: Dim)

  datatype Point = Point(x: int, y: int)

  datatype Colour = White | Black

  /** What a 'destination-in' mask keeps of a snapshot copy. */
  datatype Mask =
    | Whole                      // not masked yet
    | Polygon(path: seq<Point>)  // the filled path, closing point included
    | Wedge(rim: seq<nat>)       // frame centre, rim vertices at angle index k (k * 60 degrees), centre

  /** One owned copy of the captured frame and the mask applied to it. */
  datatype Layer = Layer(frame: Frame, mask: Mask)

  /** A drawing command on a sprite's bitmap. Layer numbers index the
      issuing transition's own snapshot copies. */
  datatype Draw =
    | Fill(colour: Colour)                                              // fillAll
    | Blit(layer: nat)                                                  // a copy drawn at (0, 0)
    | SliceBlit(srcX: int, width: int, height: int, dstX: int, dstY: int) // a column of the snapshot
    | RadialBlit(layer: nat, angleIndex: nat, distance: real)           // offset distance * (cos, sin)(angleIndex * 60 degrees)
    | ShiftBlit(layer: nat, opposite: bool, distance: real)             // offset distance along the cut angle, or the angle plus 180 degrees
    | Seam(from: Point, to: Point)                                      // the white split line

  /** The sprite a transition draws on (a scene's or a spriteset's fade sprite). */
  class Sprite {
    const width: Dim
    const height: Dim
    var opacity: real
    var canvas: seq<Draw>

    constructor (width: Dim, height: Dim)
      ensures this.width == width && this.height == height
      ensures opacity == 255.0 && canvas == []
    {
      this.width := width;
      this.height := height;
      opacity := 255.0;
      canvas := [];
    }
  }
}
