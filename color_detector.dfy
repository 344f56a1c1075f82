/**
 * The dominant-colour extractor of utils/ColorDetector.py: crop the detection out of the
 * frame (or mask it with its segmentation polygon), cluster its pixels, convert every
 * cluster centre from BGR to OpenCV's HLS and name it.
 *
 * Pixel work done by foreign libraries (numpy slicing, `cv2.fillPoly` and alpha masking,
 * the k-means/elbow search of `ColorPrediction.find_main_colors`, `cv2.cvtColor`) is not
 * modelled; those operations are the function-typed fields of `Vision`.
 */
module ColorDetector {
  import opened Wrappers
  import opened Geometry

  /** One cluster centre in the image's own channel order (3 channels, or 4 with alpha). */
  type Bgr = seq<real>

  /** An 8-bit OpenCV HLS colour: H in 0..179 (half degrees), L and S in 0..255. */
  datatype Hls = Hls(h: int, l: int, s: int)

  /** A pixel buffer; the model never looks inside. */
  datatype Image = Image(pixels: seq<seq<seq<int>>>)

  /** A segmentation polygon as integer pixel points. */
  type Polygon = seq<(int, int)>

  /** The channel layout handed to the clustering: plain crop or alpha-masked frame. */
  datatype Coding = BGR | BGRA

  /** An integer crop rectangle `frame[y1:y2, x1:x2]`. */
  datatype Rect = Rect(x1: int, y1: int, x2: int, y2: int)

  /** The settings of a `FindObjectColors` instance; they never change after construction. */
  datatype FindObjectColors = FindObjectColors(
    cropReduction: real,
    minClusters: int,
    maxClusters: int,
    downsampleFactor: real,
    increaseElbow: real)

  /** `FindObjectColors()` with the constructor's default arguments. */
  const Defaults: FindObjectColors := FindObjectColors(0.0, 1, 8, 0.0, 0.0)

  /** The foreign operations the extractor delegates to. */
  datatype Vision = Vision(
    slice: (Image, Rect) -> Image,                                    // frame[y1:y2, x1:x2]
    segment: (Image, Polygon) -> Image,                               // segment_object: fillPoly + alpha mask
    findMainColors: (Image, Coding, FindObjectColors) -> Option<seq<Bgr>>,  // centres of the optimal k, if any
    bgrToHls: Bgr -> Hls)                                             // cv2.cvtColor(BGR2HLS)

  // ---------------------------------------------------------------- cropping

  /** Python's `int(x)` on a float: truncation toward zero. */
  function Trunc(x: real): (n: int)
    ensures x >= 0.0 ==> n as real <= x < n as real + 1.0
    ensures x < 0.0 ==> n as real - 1.0 < x <= n as real
  {
    if x >= 0.0 then x.Floor else -((-x).Floor)
  }

  function Min(a: int, b: int): int { if a <= b then a else b }
  function Max(a: int, b: int): int { if a <= b then b else a }

  /** The truncated box with its corners put in order, before any reduction. */
  function OrderedBox(t: Bbox): (r: Rect)
    ensures r.x1 <= r.x2 && r.y1 <= r.y2
    ensures multiset{r.x1, r.x2} == multiset{Trunc(t.x1), Trunc(t.x2)}
    ensures multiset{r.y1, r.y2} == multiset{Trunc(t.y1), Trunc(t.y2)}
  {
    var x1, y1, x2, y2 := Trunc(t.x1), Trunc(t.y1), Trunc(t.x2), Trunc(t.y2);
    Rect(Min(x1, x2), Min(y1, y2), Max(x1, x2), Max(y1, y2))
  }

  /** Which corner the detector reports first does not matter: swapping them gives the same box. */
  lemma OrderedBoxSwap(t: Bbox)
    ensures OrderedBox(Bbox(t.x2, t.y2, t.x1, t.y1)) == OrderedBox(t)
    ensures OrderedBox(Bbox(t.x2, t.y1, t.x1, t.y2)) == OrderedBox(t)
  {
  }

  /** The coordinate arithmetic of `crop_detected_object`: the rectangle that is sliced out. */
  function CropDetectedObject(d: FindObjectColors, trajectory: Bbox): (r: Rect)
    // the reduction is symmetric: the crop keeps the centre of the ordered box
    ensures r.x1 + r.x2 == OrderedBox(trajectory).x1 + OrderedBox(trajectory).x2
    ensures r.y1 + r.y2 == OrderedBox(trajectory).y1 + OrderedBox(trajectory).y2
  {
    var box := OrderedBox(trajectory);
    var width := box.x2 - box.x1;
    var height := box.y2 - box.y1;
    var reductionX := Reduction(width, d.cropReduction);
    var reductionY := Reduction(height, d.cropReduction);
    Rect(box.x1 + reductionX, box.y1 + reductionY, box.x2 - reductionX, box.y2 - reductionY)
  }

  /** With no reduction (the default, and what the classifier uses) the crop is the ordered box. */
  lemma CropWithoutReduction(d: FindObjectColors, trajectory: Bbox)
    requires d.cropReduction == 0.0
    ensures CropDetectedObject(d, trajectory) == OrderedBox(trajectory)
    ensures OrderedBox(trajectory).x1 <= OrderedBox(trajectory).x2
  {
  }

  /** `int(side * crop_reduction / 2)`: how far each end of a side moves inward. */
  function Reduction(side: int, cropReduction: real): (r: int)
    ensures side as real * cropReduction >= 0.0 ==> 0 <= r && r as real <= side as real * cropReduction / 2.0
  {
    Trunc(side as real * cropReduction / 2.0)
  }

  lemma ShrinkBound(side: int, c: real)
    requires side >= 0 && 0.0 <= c <= 1.0
    ensures 0 <= Reduction(side, c) && 2 * Reduction(side, c) <= side
  {
    var t := side as real * c;
    assert side as real * (1.0 - c) >= 0.0;
    assert t >= 0.0;
    var n := Reduction(side, c);
    assert n as real <= t / 2.0 <= side as real / 2.0;
  }

  /** A reduction between 0 and 1 shrinks each side inward and never inverts the rectangle. */
  lemma CropStaysInside(d: FindObjectColors, trajectory: Bbox)
    requires 0.0 <= d.cropReduction <= 1.0
    ensures var r, box := CropDetectedObject(d, trajectory), OrderedBox(trajectory);
            box.x1 <= r.x1 <= r.x2 <= box.x2
    ensures var r, box := CropDetectedObject(d, trajectory), OrderedBox(trajectory);
            box.y1 <= r.y1 <= r.y2 <= box.y2
  {
    var box := OrderedBox(trajectory);
    var r := CropDetectedObject(d, trajectory);
    ShrinkBound(box.x2 - box.x1, d.cropReduction);
    ShrinkBound(box.y2 - box.y1, d.cropReduction);
  }

  // ---------------------------------------------------------------- colour naming

  /** The twelve 30-degree hue sectors, starting at red around 0 degrees. */
  const Hues: seq<string> :=
    ["red", "orange", "yellow", "chartreuse", "green", "spring",
     "cyan", "azure", "blue", "violet", "magenta", "rose"]

  // Saturation and lightness thresholds of the naming system.
  const S1: real := 0.28
  const S2: real := 0.51
  const L1: real := 0.12
  const L2: real := 0.24
  const L3: real := 0.44
  const L4: real := 1.0 - L3
  const L5: real := 1.0 - L2
  const L6: real := 1.0 - L1

  /**
   * The hue cascade on the doubled hue `h`. `None` is the case in which no branch
   * assigns the colour (the source would then fail on an unbound variable).
   */
  function HueName(h: int): (r: Option<string>)
    ensures r.None? <==> h == 345
    ensures r.Some? ==> r.value in Hues
  {
    if h < 15 || h > 345 then Some("red")
    else if 15 <= h < 45 then Some("orange")
    else if 45 <= h < 75 then Some("yellow")
    else if 75 <= h < 105 then Some("chartreuse")
    else if 105 <= h < 135 then Some("green")
    else if 135 <= h < 165 then Some("spring")
    else if 165 <= h < 195 then Some("cyan")
    else if 195 <= h < 225 then Some("azure")
    else if 225 <= h < 255 then Some("blue")
    else if 255 <= h < 285 then Some("violet")
    else if 285 <= h < 315 then Some("magenta")
    else if 315 <= h < 345 then Some("rose")
    else None
  }

  /** Joining a prefix and a colour as the source does: a space only when the prefix is non-empty. */
  function Join(prefix: string, color: string): string {
    if prefix != "" then prefix + " " + color else color
  }

  /** Every name `hls_to_str` can produce. */
  ghost predicate IsColourName(name: string) {
    || name == "black"
    || name == "white"
    || (exists prefix :: prefix in {"", "dark", "light"} && name == Join(prefix, "grey"))
    || (exists prefix, color :: prefix in {"", "dark", "light", "dull"} && color in Hues && name == Join(prefix, color))
  }

  /** `hls_to_str`: the name of an OpenCV HLS colour. */
  function HlsToStr(hls: Hls): (name: string)
    ensures IsColourName(name)
  {
    var h := hls.h * 2;
    var l := hls.l as real / 255.0;
    var s := hls.s as real / 255.0;
    if l < L1 then "black"
    else if l > L6 then "white"
    else
      var prefix := if l < L3 then "dark" else if l > L4 then "light" else "";
      if s < S1 then Join(prefix, "grey")
      else
        var prefix' := if s < S2 then "dull" else prefix;
        var color := HueName(h).value;
        Join(prefix', color)
  }

  /** Lightness alone decides black and white, whatever the hue and saturation. */
  lemma BlackAndWhite(hls: Hls)
    ensures HlsToStr(hls) == "black" <==> hls.l * 100 < 12 * 255
    ensures HlsToStr(hls) == "white" <==> hls.l * 100 > 88 * 255
  {
    var name := HlsToStr(hls);
    var l := hls.l as real / 255.0;
    if L1 <= l <= L6 {
      assert name != "black" && name != "white" by {
        if hls.s as real / 255.0 >= S1 {
          var c := HueName(hls.h * 2).value;
          assert c in Hues;
        }
      }
    }
  }

  /** Below the first saturation threshold the name is a grey shade and the hue is never looked at. */
  lemma GreyIgnoresHue(hls: Hls)
    requires 12 * 255 <= hls.l * 100 <= 88 * 255
    requires hls.s * 100 < 28 * 255
    ensures HlsToStr(hls) == (if hls.l * 100 < 44 * 255 then "dark grey"
                              else if hls.l * 100 > 56 * 255 then "light grey"
                              else "grey")
    ensures forall h :: HlsToStr(Hls(h, hls.l, hls.s)) == HlsToStr(hls)
  {
  }

  /** Between the two saturation thresholds the prefix is "dull", whatever the lightness. */
  lemma DullOverridesLightness(hls: Hls)
    requires 12 * 255 <= hls.l * 100 <= 88 * 255
    requires 28 * 255 <= hls.s * 100 < 51 * 255
    ensures HlsToStr(hls) == Join("dull", HueName(hls.h * 2).value)
  {
    var l := hls.l as real / 255.0;
    var s := hls.s as real / 255.0;
    assert L1 <= l <= L6 && S1 <= s < S2;
  }

  /** The sector of a doubled hue, counted from red, wrapping past 345 degrees back to red. */
  function Sector(h: int): (k: nat)
    requires 0 <= h < 360
    ensures k < 12
  {
    ((h + 15) / 30) % 12
  }

  /**
   * For every 8-bit hue exactly one sector applies: the cascade agrees with the
   * arithmetic sector, and its gap at 345 degrees is never reached by an even value.
   */
  lemma HueNameBySector(hue: int)
    requires 0 <= hue < 180
    ensures HueName(2 * hue) == Some(Hues[Sector(2 * hue)])
  {
    var q := (2 * hue + 15) / 30;
    assert 30 * q <= 2 * hue + 15 < 30 * q + 30;
    assert Sector(2 * hue) == if q == 12 then 0 else q;
  }

  /** Saturated, mid-lightness colours are named by their hue sector alone. */
  lemma VividColour(hls: Hls)
    requires 0 <= hls.h < 180
    requires 44 * 255 <= hls.l * 100 <= 56 * 255
    requires hls.s * 100 >= 51 * 255
    ensures HlsToStr(hls) == Hues[Sector(2 * hls.h)]
  {
    HueNameBySector(hls.h);
  }

  /** Saturated colours outside the middle lightness band are their hue sector with a "dark" or "light" prefix. */
  lemma SaturatedShade(hls: Hls)
    requires 0 <= hls.h < 180
    requires 12 * 255 <= hls.l * 100 <= 88 * 255
    requires hls.l * 100 < 44 * 255 || hls.l * 100 > 56 * 255
    requires hls.s * 100 >= 51 * 255
    ensures HlsToStr(hls) == Join(if hls.l * 100 < 44 * 255 then "dark" else "light", Hues[Sector(2 * hls.h)])
  {
    HueNameBySector(hls.h);
  }

  // ---------------------------------------------------------------- detection

  /** `detect_color`: the centres of the optimal clustering, or nothing when no k is optimal. */
  function DetectColor(d: FindObjectColors, v: Vision, image: Image, coding: Coding): (colors: seq<Bgr>)
    ensures v.findMainColors(image, coding, d).None? ==> colors == []
  {
    match v.findMainColors(image, coding, d)
    case None => []
    case Some(centroids) => centroids
  }

  /** The cluster centres of the region `crop_and_detect` selects: plain crop, or masked frame. */
  function RegionColors(d: FindObjectColors, v: Vision, frame: Image, trajectory: Bbox, maskPolygon: Option<Polygon>): (r: seq<Bgr>)
    // without a mask and with the classifier's zero reduction, the region is the ordered box itself
    ensures maskPolygon.None? && d.cropReduction == 0.0 ==>
              r == DetectColor(d, v, v.slice(frame, OrderedBox(trajectory)), BGR)
    // with a mask, the box plays no part
    ensures maskPolygon.Some? ==> r == DetectColor(d, v, v.segment(frame, maskPolygon.value), BGRA)
  {
    if maskPolygon.None? then DetectColor(d, v, v.slice(frame, CropDetectedObject(d, trajectory)), BGR)
    else DetectColor(d, v, v.segment(frame, maskPolygon.value), BGRA)
  }

  /** The HLS value of each cluster centre, as `crop_and_detect` computes them. */
  function HlsValues(v: Vision, bgr: seq<Bgr>): (hls: seq<Hls>)
    ensures |hls| == |bgr| && forall i :: 0 <= i < |bgr| ==> hls[i] == v.bgrToHls(bgr[i])
  {
    seq(|bgr|, i requires 0 <= i < |bgr| => v.bgrToHls(bgr[i]))
  }

  /** The name of each HLS value, as `crop_and_detect` computes them. */
  function ColourNames(hls: seq<Hls>): (names: seq<string>)
    ensures |names| == |hls| && forall i :: 0 <= i < |hls| ==> names[i] == HlsToStr(hls[i])
  {
    seq(|hls|, i requires 0 <= i < |hls| => HlsToStr(hls[i]))
  }

  /** `crop_and_detect`: the three parallel lists of cluster colours, their HLS values and their names. */
  method CropAndDetect(d: FindObjectColors, v: Vision, frame: Image, trajectory: Bbox, maskPolygon: Option<Polygon>)
    returns (bgr: seq<Bgr>, hls: seq<Hls>, names: seq<string>)
    ensures bgr == RegionColors(d, v, frame, trajectory, maskPolygon)
    ensures |hls| == |bgr| && |names| == |bgr|
    ensures forall i :: 0 <= i < |bgr| ==> hls[i] == v.bgrToHls(bgr[i]) && names[i] == HlsToStr(hls[i])
  {
    if maskPolygon.None? {
      var cropped := v.slice(frame, CropDetectedObject(d, trajectory));
      bgr := DetectColor(d, v, cropped, BGR);
    } else {
      var segmented := v.segment(frame, maskPolygon.value);
      bgr := DetectColor(d, v, segmented, BGRA);
    }
    hls, names := [], [];
    for i := 0 to |bgr|
      invariant |hls| == i && |names| == i
      invariant forall k :: 0 <= k < i ==> hls[k] == v.bgrToHls(bgr[k]) && names[k] == HlsToStr(hls[k])
    {
      var hlsColor := v.bgrToHls(bgr[i]);
      hls := hls + [hlsColor];
      var colorName := HlsToStr(hlsColor);
      names := names + [colorName];
    }
  }
}
