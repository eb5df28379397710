/**
 * The geometry of the medication label, a page of 2 * dpi by dpi points (2 x 1
 * inches only when printed at dpi points per inch): the page and its margin,
 * the QR square on the left, the text column on the right, the capped font
 * sizes, the aspect-fit of the QR image, and the flowing cursor that stacks
 * the text fields along the column.
 *
 * Coordinates are those of the PDF page: the origin is the lower-left
 * corner and y grows upward. The cursor starts at the content rectangle's
 * minimum y, its bottom edge, and grows with each field, so the fields
 * stack upward.
 */
module LabelLayout {
  import opened Geometry

  /** The gap left between one text frame's maximum y and the next frame, in points. */
  const Spacing: real := 2.0

  /** The margin, as a fraction of the page height. */
  const MarginRatio: real := 0.06

  /** The gap between the QR square and the text column, as a fraction of the margin. */
  const ColumnGapRatio: real := 0.6

  /** A Core Text font: a PostScript name and a point size. */
  datatype Font = Font(name: string, size: real)

  /** The four fonts of the label. */
  datatype FontSet = FontSet(patient: Font, medication: Font, sig: Font, pharmacy: Font)

  /** A string to typeset in a font. */
  datatype Field = Field(text: string, font: Font)

  /** A field given its frame on the page. */
  datatype Placement = Placement(rect: Rect, text: string, font: Font)

  /** `CTFramesetterSuggestFrameSizeWithConstraints`' height for a text, font and column width. */
  type Measure = (string, Font, real) -> real

  /** The zones the page is divided into. */
  datatype Zones = Zones(page: Rect, padding: real, content: Rect, qr: Rect, textLeft: real, textWidth: real)

  /** The page: `2 * dpi` wide and `1 * dpi` high in PDF units (1/72 inch each), at the origin. */
  function PageRect(dpi: real): (r: Rect)
    ensures dpi >= 0.0 ==> r.IsStandard() && r.MinX() == 0.0 && r.MinY() == 0.0
    ensures r.Width() == 2.0 * r.Height()
    ensures dpi >= 0.0 ==> r.Height() == dpi
    ensures dpi < 0.0 ==> r.Height() == -dpi && r.MaxX() == 0.0 && r.MaxY() == 0.0
  {
    Rect(0.0, 0.0, 2.0 * dpi, 1.0 * dpi)
  }

  /**
   * The page, the content rectangle inset from it by the margin on every
   * side, the QR square as tall as the content at its minimum corner, and
   * the text column from just right of the square to the content's right
   * edge, its width clamped at zero.
   */
  function LayoutZones(dpi: real): (z: Zones)
    ensures z.page == PageRect(dpi)
    ensures z.padding == z.page.h * MarginRatio
    ensures z.content.IsStandard()
    ensures z.content.MinX() == z.page.MinX() + z.padding && z.content.MaxX() == z.page.MaxX() - z.padding
    ensures z.content.MinY() == z.page.MinY() + z.padding && z.content.MaxY() == z.page.MaxY() - z.padding
    ensures z.qr.IsStandard() && z.qr.Width() == z.content.Height() && z.qr.Height() == z.content.Height()
    ensures z.qr.MinX() == z.content.MinX() && z.qr.MinY() == z.content.MinY()
    ensures z.textLeft == z.qr.MaxX() + ColumnGapRatio * z.padding
    ensures z.textWidth >= 0.0
    ensures z.textLeft <= z.content.MaxX() ==> z.textWidth == z.content.MaxX() - z.textLeft
    ensures z.textLeft > z.content.MaxX() ==> z.textWidth == 0.0
  {
    var page := PageRect(dpi);
    var padding := page.h * MarginRatio;
    var content := page.InsetBy(padding, padding);
    var qrSide := content.Height();
    var qr := Rect(content.MinX(), content.MinY(), qrSide, qrSide);
    var textLeft := qr.MaxX() + padding * ColumnGapRatio;
    Zones(page, padding, content, qr, textLeft, Max(0.0, content.MaxX() - textLeft))
  }

  /**
   * At any positive resolution the page is exactly `2 * dpi` by `dpi`, the
   * zones nest inside it, the text column lies wholly right of the QR square,
   * and the width clamp never engages: the column is 0.964 * dpi wide.
   */
  lemma ZonesAtPositiveDpi(dpi: real)
    requires dpi > 0.0
    ensures var z := LayoutZones(dpi);
            && z.page.MinX() == 0.0 && z.page.MinY() == 0.0
            && z.page.Width() == 2.0 * dpi && z.page.Height() == dpi
            && z.page.Contains(z.content) && z.content.Contains(z.qr)
            && z.qr.MaxX() < z.textLeft
            && z.textWidth == z.content.MaxX() - z.textLeft == 241.0 / 250.0 * dpi
  {
  }

  /** `min(cap, pageHeight * ratio)`: proportional to the page, but never above `cap`. */
  function CappedSize(cap: real, pageHeight: real, ratio: real): (size: real)
    ensures size <= cap && size <= pageHeight * ratio
    ensures size == cap || size == pageHeight * ratio
  {
    Min(cap, pageHeight * ratio)
  }

  /**
   * The label's fonts: bold patient name and medication name, plain sig,
   * oblique pharmacy; sizes 22%, 18%, 16% and 14% of the page height,
   * capped at 14, 12, 10 and 9 points.
   */
  function LabelFonts(pageHeight: real): (f: FontSet)
    ensures f.patient.name == "Helvetica-Bold" && f.medication.name == "Helvetica-Bold"
    ensures f.sig.name == "Helvetica" && f.pharmacy.name == "Helvetica-Oblique"
    ensures f.patient.size <= 14.0 && f.patient.size <= pageHeight * 0.22
    ensures f.patient.size == 14.0 || f.patient.size == pageHeight * 0.22
    ensures f.medication.size <= 12.0 && f.medication.size <= pageHeight * 0.18
    ensures f.medication.size == 12.0 || f.medication.size == pageHeight * 0.18
    ensures f.sig.size <= 10.0 && f.sig.size <= pageHeight * 0.16
    ensures f.sig.size == 10.0 || f.sig.size == pageHeight * 0.16
    ensures f.pharmacy.size <= 9.0 && f.pharmacy.size <= pageHeight * 0.14
    ensures f.pharmacy.size == 9.0 || f.pharmacy.size == pageHeight * 0.14
  {
    FontSet(
      Font("Helvetica-Bold", CappedSize(14.0, pageHeight, 0.22)),
      Font("Helvetica-Bold", CappedSize(12.0, pageHeight, 0.18)),
      Font("Helvetica", CappedSize(10.0, pageHeight, 0.16)),
      Font("Helvetica-Oblique", CappedSize(9.0, pageHeight, 0.14)))
  }

  /** Up to 62.5 dpi no cap binds: every size is its fraction of the page height. */
  lemma FontsProportionalAtLowDpi(pageHeight: real)
    requires pageHeight <= 62.5
    ensures var f := LabelFonts(pageHeight);
            && f.patient.size == pageHeight * 0.22 && f.medication.size == pageHeight * 0.18
            && f.sig.size == pageHeight * 0.16 && f.pharmacy.size == pageHeight * 0.14
  {
  }

  /**
   * From 600/9 dpi (so at 72, 144 and 300 dpi) every cap binds: the sizes
   * are 14, 12, 10 and 9 points whatever the resolution.
   */
  lemma FontsCappedAtPrintDpi(pageHeight: real)
    requires pageHeight >= 600.0 / 9.0
    ensures var f := LabelFonts(pageHeight);
            && f.patient.size == 14.0 && f.medication.size == 12.0
            && f.sig.size == 10.0 && f.pharmacy.size == 9.0
  {
  }

  /**
   * `aspectFitRect`: an image of a positive size is scaled by one factor,
   * as large as fits, and centred in `bounding`; otherwise `bounding` is
   * returned unchanged.
   */
  function AspectFit(imageWidth: real, imageHeight: real, bounding: Rect): (r: Rect)
    ensures !(imageWidth > 0.0 && imageHeight > 0.0) ==> r == bounding
    ensures imageWidth > 0.0 && imageHeight > 0.0 ==>
              && r.IsStandard()
              && bounding.Contains(r)
              && r.MidX() == bounding.MidX() && r.MidY() == bounding.MidY()
  {
    if !(imageWidth > 0.0 && imageHeight > 0.0) then bounding
    else
      FittedInside(imageWidth, imageHeight, bounding);
      Fitted(imageWidth, imageHeight, bounding)
  }

  /**
   * The fitted rectangle of a positive image has the image's aspect ratio
   * and fills `bounding` in width or in height.
   */
  lemma AspectFitShape(imageWidth: real, imageHeight: real, bounding: Rect)
    requires imageWidth > 0.0 && imageHeight > 0.0
    ensures AspectFit(imageWidth, imageHeight, bounding).w * imageHeight
            == AspectFit(imageWidth, imageHeight, bounding).h * imageWidth
    ensures || AspectFit(imageWidth, imageHeight, bounding).w == bounding.Width()
            || AspectFit(imageWidth, imageHeight, bounding).h == bounding.Height()
  {
    FittedShape(imageWidth, imageHeight, bounding);
  }

  /** The image scaled by `min(width ratio, height ratio)` and centred on `bounding`. */
  function Fitted(imageWidth: real, imageHeight: real, bounding: Rect): Rect
    requires imageWidth > 0.0 && imageHeight > 0.0
  {
    var scale := Min(bounding.Width() / imageWidth, bounding.Height() / imageHeight);
    var w := imageWidth * scale;
    var h := imageHeight * scale;
    Rect(bounding.MidX() - w / 2.0, bounding.MidY() - h / 2.0, w, h)
  }

  /** The fitted rectangle lies within `bounding` and shares its centre. */
  lemma FittedInside(imageWidth: real, imageHeight: real, bounding: Rect)
    requires imageWidth > 0.0 && imageHeight > 0.0
    ensures var r := Fitted(imageWidth, imageHeight, bounding);
            && r.IsStandard() && bounding.Contains(r)
            && r.MidX() == bounding.MidX() && r.MidY() == bounding.MidY()
  {
    var scale := Min(bounding.Width() / imageWidth, bounding.Height() / imageHeight);
    var w, h := imageWidth * scale, imageHeight * scale;
    ScaledFits(imageWidth, bounding.Width(), scale);
    ScaledFits(imageHeight, bounding.Height(), scale);
    CenteredIn(w, h, bounding);
    assert Fitted(imageWidth, imageHeight, bounding) == Rect(bounding.MidX() - w / 2.0, bounding.MidY() - h / 2.0, w, h);
  }

  /** The fitted rectangle keeps the image's aspect ratio and fills `bounding` in one dimension. */
  lemma FittedShape(imageWidth: real, imageHeight: real, bounding: Rect)
    requires imageWidth > 0.0 && imageHeight > 0.0
    ensures var r := Fitted(imageWidth, imageHeight, bounding);
            && r.w * imageHeight == r.h * imageWidth
            && (r.w == bounding.Width() || r.h == bounding.Height())
  {
    AspectFitFills(imageWidth, imageHeight, bounding.Width(), bounding.Height());
  }

  /** A size no larger than `bounding`, centred on it, lies within it. */
  lemma CenteredIn(w: real, h: real, bounding: Rect)
    requires 0.0 <= w <= bounding.Width() && 0.0 <= h <= bounding.Height()
    ensures var r := Rect(bounding.MidX() - w / 2.0, bounding.MidY() - h / 2.0, w, h);
            && r.IsStandard() && bounding.Contains(r)
            && r.MidX() == bounding.MidX() && r.MidY() == bounding.MidY()
  {
    RectExtents(bounding);
  }

  /** A side scaled by a factor no larger than `box / side` stays within `box`. */
  lemma ScaledFits(side: real, box: real, scale: real)
    requires side > 0.0 && box >= 0.0 && 0.0 <= scale <= box / side
    ensures 0.0 <= side * scale <= box
  {
    assert side * (box / side) == box;
  }

  /** The scaled size keeps the image's ratio and fills the box in one dimension. */
  lemma AspectFitFills(imageWidth: real, imageHeight: real, boxWidth: real, boxHeight: real)
    requires imageWidth > 0.0 && imageHeight > 0.0
    ensures var scale := Min(boxWidth / imageWidth, boxHeight / imageHeight);
            && (imageWidth * scale) * imageHeight == (imageHeight * scale) * imageWidth
            && (imageWidth * scale == boxWidth || imageHeight * scale == boxHeight)
  {
    assert imageWidth * (boxWidth / imageWidth) == boxWidth;
    assert imageHeight * (boxHeight / imageHeight) == boxHeight;
  }

  /** `suggestedHeight`: the measured height rounded up to a whole number of points. */
  function SuggestedHeight(field: Field, width: real, measure: Measure): (height: real)
    ensures IsIntegral(height)
    ensures height - 1.0 < measure(field.text, field.font, width) <= height
  {
    Ceil(measure(field.text, field.font, width))
  }

  /**
   * One step of the nested `drawText`: a frame at the cursor, as wide as the
   * column and as tall as `ceil` of the suggested height. Since the
   * suggested height is already whole, the second `ceil` changes nothing.
   */
  function PlaceText(field: Field, x: real, cursorY: real, width: real, measure: Measure): (p: Placement)
    ensures p.rect.x == x && p.rect.y == cursorY && p.rect.w == width
    ensures p.rect.h == SuggestedHeight(field, width, measure)
    ensures p.rect.MaxY() >= cursorY
    ensures p.text == field.text && p.font == field.font
  {
    var height := SuggestedHeight(field, width, measure);
    CeilOfIntegral(height);
    Placement(Rect(x, cursorY, width, Ceil(height)), field.text, field.font)
  }

  /**
   * The cursor after a field: `Spacing` past the frame's greater y edge, so
   * strictly past everything the frame covers.
   */
  function NextCursor(p: Placement): (y: real)
    ensures y - p.rect.MaxY() == Spacing
    ensures y > p.rect.MinY() && y > p.rect.MaxY()
  {
    p.rect.MaxY() + Spacing
  }

  /** The fields placed in order, each at the cursor the previous one left. */
  function Flow(fields: seq<Field>, x: real, cursorY: real, width: real, measure: Measure): (ps: seq<Placement>)
    ensures |ps| == |fields|
    decreases |fields|
  {
    if fields == [] then []
    else
      var p := PlaceText(fields[0], x, cursorY, width, measure);
      [p] + Flow(fields[1..], x, NextCursor(p), width, measure)
  }

  /**
   * Every frame is in the column (its left edge and width), carries its own
   * field's text and font, and is exactly as tall as that field's whole
   * suggested height.
   */
  predicate InColumn(ps: seq<Placement>, fields: seq<Field>, x: real, width: real, measure: Measure)
    requires |ps| == |fields|
  {
    forall i | 0 <= i < |ps| ::
      && ps[i].rect.x == x && ps[i].rect.w == width
      && ps[i].text == fields[i].text && ps[i].font == fields[i].font
      && ps[i].rect.h == SuggestedHeight(fields[i], width, measure)
  }

  /**
   * The cursor flows: the first frame starts at the initial cursor and
   * every later frame starts `Spacing` past the previous frame's maximum y.
   */
  predicate FlowsFrom(ps: seq<Placement>, cursorY: real) {
    && (|ps| > 0 ==> ps[0].rect.y == cursorY)
    && forall i | 0 <= i < |ps| - 1 :: ps[i + 1].rect.y == ps[i].rect.MaxY() + Spacing
  }

  /**
   * The frames only advance in y: none starts before the initial cursor,
   * and each starts at least `Spacing` past the maximum y of every
   * frame before it, so the starts strictly increase.
   */
  predicate Advances(ps: seq<Placement>, cursorY: real) {
    && (forall i | 0 <= i < |ps| :: cursorY <= ps[i].rect.y)
    && (forall i, j | 0 <= i < j < |ps| :: ps[i].rect.MaxY() + Spacing <= ps[j].rect.y)
    && (forall i, j | 0 <= i < j < |ps| :: ps[i].rect.y < ps[j].rect.y)
  }

  lemma {:induction false} FlowColumn(fields: seq<Field>, x: real, cursorY: real, width: real, measure: Measure)
    ensures InColumn(Flow(fields, x, cursorY, width, measure), fields, x, width, measure)
    decreases |fields|
  {
    if fields != [] {
      var p := PlaceText(fields[0], x, cursorY, width, measure);
      FlowColumn(fields[1..], x, NextCursor(p), width, measure);
    }
  }

  lemma {:induction false} FlowCursor(fields: seq<Field>, x: real, cursorY: real, width: real, measure: Measure)
    ensures FlowsFrom(Flow(fields, x, cursorY, width, measure), cursorY)
    decreases |fields|
  {
    if fields != [] {
      var p := PlaceText(fields[0], x, cursorY, width, measure);
      FlowCursor(fields[1..], x, NextCursor(p), width, measure);
    }
  }

  lemma {:induction false} FlowAdvances(fields: seq<Field>, x: real, cursorY: real, width: real, measure: Measure)
    ensures Advances(Flow(fields, x, cursorY, width, measure), cursorY)
    decreases |fields|
  {
    if fields != [] {
      var p := PlaceText(fields[0], x, cursorY, width, measure);
      var rest := Flow(fields[1..], x, NextCursor(p), width, measure);
      var ps := Flow(fields, x, cursorY, width, measure);
      FlowAdvances(fields[1..], x, NextCursor(p), width, measure);
      assert ps == [p] + rest;
      forall i | 0 <= i < |ps| ensures cursorY <= ps[i].rect.y {
        if i > 0 {
          assert ps[i] == rest[i - 1];
        }
      }
      forall i, j | 0 <= i < j < |ps| ensures ps[i].rect.MaxY() + Spacing <= ps[j].rect.y {
        assert ps[j] == rest[j - 1];
        if i > 0 {
          assert ps[i] == rest[i - 1];
        }
      }
    }
  }

  /** A measurement that is never negative, as Core Text's is. */
  ghost predicate NonNegative(measure: Measure) {
    forall text, font, width :: measure(text, font, width) >= 0.0
  }

  /** Every frame's maximum y is strictly less than the minimum y of every later frame. */
  predicate Disjoint(ps: seq<Placement>) {
    forall i, j | 0 <= i < j < |ps| :: ps[i].rect.MaxY() < ps[j].rect.MinY()
  }

  /** With non-negative measurements the frames do not overlap. */
  lemma FlowDisjoint(fields: seq<Field>, x: real, cursorY: real, width: real, measure: Measure)
    requires NonNegative(measure)
    ensures Disjoint(Flow(fields, x, cursorY, width, measure))
  {
    var ps := Flow(fields, x, cursorY, width, measure);
    FlowColumn(fields, x, cursorY, width, measure);
    FlowAdvances(fields, x, cursorY, width, measure);
    forall i, j | 0 <= i < j < |ps| ensures ps[i].rect.MaxY() < ps[j].rect.MinY() {
      assert ps[j].rect.h == SuggestedHeight(fields[j], width, measure) >= 0.0;
    }
  }
}
