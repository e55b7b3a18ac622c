/** The fixed settings of config.py. */
module Config {
  import opened Common

  const CanvasWidth: int := 1280
  const CanvasHeight: int := 720

  /** The palette, in the order the swatches appear in the top panel. */
  const Colors: seq<Color> := [
    Color(255, 51, 153),   // neon pink
    Color(51, 255, 51),    // neon green
    Color(51, 204, 255),   // neon blue
    Color(255, 255, 51),   // neon yellow
    Color(255, 128, 0),    // neon orange
    Color(255, 255, 255)   // arctic white
  ]

  const DefaultThickness: int := 8
  const EraserThickness: int := 50

  /** The smoothing weight of the newest sample, 0.6, as an exact rational. */
  const EmaAlpha: real := 0.6

  /** Height of the top panel that holds the palette swatches. */
  const PanelHeight: int := 100
}
