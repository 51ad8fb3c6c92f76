/**
 * What the camera host provides to the explorer: the display surface with
 * its fixed dimensions (`camera_screen.width`, `camera_screen.height`), the
 * two drawing primitives `draw_pixel` and `draw_filled_rect`, and the colour
 * constants. The surface is modelled as the log of drawing calls it has
 * received, in order.
 */
module Host {

  /** One drawing call: a single pixel, or a filled rectangle with inclusive corners. */
  datatype DrawOp =
    | Plot(x: int, y: int, colour: int)
    | Fill(x0: int, y0: int, x1: int, y1: int, colour: int)

  /** The host's colour constants; their values belong to the host. */
  datatype Colours = Colours(red: int, green: int, blue: int, yellow: int,
                             white: int, grey: int, blueLight: int, black: int)

  class Screen {
    const width: int
    const height: int
    var log: seq<DrawOp>

    constructor (width: int, height: int)
      ensures this.width == width && this.height == height && log == []
    {
      this.width := width;
      this.height := height;
      log := [];
    }

    /** `draw_pixel`. */
    method DrawPixel(x: int, y: int, colour: int)
      modifies this
      ensures log == old(log) + [Plot(x, y, colour)]
    {
      log := log + [Plot(x, y, colour)];
    }

    /** `draw_filled_rect`. */
    method DrawFilledRect(x0: int, y0: int, x1: int, y1: int, colour: int)
      modifies this
      ensures log == old(log) + [Fill(x0, y0, x1, y1, colour)]
    {
      log := log + [Fill(x0, y0, x1, y1, colour)];
    }
  }
}
