/** Frame resizing (`transforms.py`): the interpolation chosen for a pair of
    scale factors, and uniform scaling as a resize with equal factors. */
module Transforms {
  import opened Mats

  /** The OpenCV interpolation flags the code picks from. */
  datatype Interpolation = InterLinear | InterCubic | InterArea

  /** The choice made in `resize`: linear unless optimising; when optimising,
      cubic for an enlargement along both axes and area otherwise. */
  function ChooseInterpolation(xScale: real, yScale: real, optimize: bool := true): (i: Interpolation)
    ensures !optimize ==> i == InterLinear
    ensures optimize ==> (i == InterCubic <==> xScale > 1.0 && yScale > 1.0)
    ensures optimize ==> (i == InterArea <==> xScale <= 1.0 || yScale <= 1.0)
  {
    var interpolation := InterLinear;
    if optimize then
      if xScale > 1.0 && yScale > 1.0 then InterCubic else InterArea
    else interpolation
  }

  /** `cv.resize(img, None, fx, fy, interpolation)`. */
  type Resizer = (Image, real, real, Interpolation) -> Image

  /** `resize(img, x_scale, y_scale, optimize)`. */
  function Resize(img: Image, xScale: real, yScale: real, cv: Resizer, optimize: bool := true): (r: Image)
    ensures !optimize ==> r == cv(img, xScale, yScale, InterLinear)
    ensures optimize && xScale > 1.0 && yScale > 1.0 ==> r == cv(img, xScale, yScale, InterCubic)
    ensures optimize && (xScale <= 1.0 || yScale <= 1.0) ==> r == cv(img, xScale, yScale, InterArea)
  {
    cv(img, xScale, yScale, ChooseInterpolation(xScale, yScale, optimize))
  }

  /** `scale(img, s)`: a resize by `s` along both axes, optimised, so an
      enlargement uses cubic interpolation exactly when `s > 1`, and area
      interpolation otherwise; it never uses linear. */
  function Scale(img: Image, s: real, cv: Resizer): (r: Image)
    ensures r == cv(img, s, s, if s > 1.0 then InterCubic else InterArea)
  {
    Resize(img, s, s, cv)
  }

  /** With the default, linear interpolation is never chosen. */
  lemma OptimizedNeverLinear(xScale: real, yScale: real)
    ensures ChooseInterpolation(xScale, yScale) != InterLinear
  {
  }
}
