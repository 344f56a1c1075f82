/** Pixel-space values shared by the track entity and the colour detector. */
module Geometry {

  /** A point `[x, y]` in pixel coordinates (a centroid). */
  datatype Point = Point(x: real, y: real)

  /** A bounding box `[x1, y1, x2, y2]`: two diagonally opposite corners, as the tracker reports them. */
  datatype Bbox = Bbox(x1: real, y1: real, x2: real, y2: real)

}
