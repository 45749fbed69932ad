/**
 * Where an exported page image lands on its PDF page: every PDF page has a
 * fixed 800 x 400 media box, and the image is scaled uniformly to fit that
 * box and centred in it. Floating-point rounding is abstracted to `real`.
 */
module Placement {

  const PageWidth: real := 800.0
  const PageHeight: real := 400.0

  /** The rectangle `drawImage` is given: lower-left corner, then size. */
  datatype Rect = Rect(x: real, y: real, width: real, height: real)

  function Min(a: real, b: real): (m: real)
    ensures m <= a && m <= b
    ensures m == a || m == b
  {
    if a <= b then a else b
  }

  /** The largest uniform scale at which the image fits both page dimensions. */
  function Scale(w: real, h: real): (s: real)
    requires w > 0.0 && h > 0.0
    ensures 0.0 < s
    ensures w * s <= PageWidth && h * s <= PageHeight
    ensures w * s == PageWidth || h * s == PageHeight
  {
    Min(PageWidth / w, PageHeight / h)
  }

  /**
   * The image rectangle for an image of `w` x `h` pixels: the image scaled
   * by `Scale` in both directions, with equal margins on either side.
   */
  function Place(w: real, h: real): (r: Rect)
    requires w > 0.0 && h > 0.0
    ensures r.width == w * Scale(w, h) && r.height == h * Scale(w, h)
    ensures r.x == PageWidth - (r.x + r.width)
    ensures r.y == PageHeight - (r.y + r.height)
  {
    var s := Scale(w, h);
    Rect((PageWidth - w * s) / 2.0, (PageHeight - h * s) / 2.0, w * s, h * s)
  }

  /**
   * The placed image keeps the image's aspect ratio, lies inside the page
   * box, fills it along at least one axis, and has equal margins left and
   * right and top and bottom.
   */
  lemma PlaceFitsAndCentres(w: real, h: real)
    requires w > 0.0 && h > 0.0
    ensures var r := Place(w, h);
      && r.width == w * Min(PageWidth / w, PageHeight / h)
      && r.height == h * Min(PageWidth / w, PageHeight / h)
      && r.width * h == r.height * w
      && 0.0 < r.width <= PageWidth && 0.0 < r.height <= PageHeight
      && (r.width == PageWidth || r.height == PageHeight)
      && 0.0 <= r.x && 0.0 <= r.y
      && r.x == PageWidth - (r.x + r.width)
      && r.y == PageHeight - (r.y + r.height)
  {
  }
}
