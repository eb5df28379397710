/**
 * `LabelPDFRenderer.renderLabel`: one PDF page of 2 * dpi by dpi points carrying the
 * label's QR image on the left and four text fields stacked in the column
 * on the right.
 *
 * The renderer's pure parts (the QR source precedence and the plan of what
 * lands where) are functions; `renderLabel` itself is a method that drives a
 * PDF context object one call at a time, its cursor a local variable updated
 * by each `drawText`, and it is proved to produce exactly the plan.
 */
module LabelRenderer {
  import opened Wrappers
  import opened Geometry
  import opened LabelLayout
  import opened MedicationLabels

  /** The resolution `renderLabel` uses when none is given. */
  const DefaultDpi: real := 144.0

  /** A decoded `CGImage`: only its pixel size matters to the layout. */
  datatype Image = Image(width: int, height: int)

  /** What the renderer hands Core Graphics: an image in a rectangle, or a text frame. */
  datatype Drawing = DrawnImage(image: Image, rect: Rect) | DrawnText(placement: Placement)

  /** The PDF as the drawings of each page, in order, under one media box. */
  datatype PdfDocument = PdfDocument(mediaBox: Rect, pages: seq<seq<Drawing>>)

  /**
   * The calls into frameworks outside the model: Core Text's suggested frame
   * height, PNG decoding, the QR generator, `URL(string:)`, and whether the
   * data consumer and the PDF context could be created.
   */
  datatype Platform = Platform(
    measure: Measure,
    decodePng: Bytes -> Option<Image>,
    generateQr: (string, real) -> Option<Bytes>,
    urlParses: string -> bool,
    consumerAvailable: bool,
    contextAvailable: bool)

  /** The QR generator's scale: `max(4, dpi / 24)`. */
  function QrScale(dpi: real): (s: real)
    ensures s >= 4.0 && s >= dpi / 24.0
    ensures s == 4.0 || s == dpi / 24.0
  {
    Max(4.0, dpi / 24.0)
  }

  /**
   * `loadQRImage`: the stored PNG when it decodes; failing that, a PNG
   * generated from `qrURL` at `QrScale(dpi)`, decoded; failing that, none.
   */
  function LoadQrImage(medLabel: MedicationLabel, dpi: real, p: Platform): (img: Option<Image>)
    ensures medLabel.qrImageData.Some? && p.decodePng(medLabel.qrImageData.value).Some? ==>
              img == p.decodePng(medLabel.qrImageData.value)
    ensures img.Some? && !(medLabel.qrImageData.Some? && p.decodePng(medLabel.qrImageData.value).Some?) ==>
              && medLabel.QrUrl(p.urlParses).Some?
              && p.generateQr(medLabel.QrUrlText(), QrScale(dpi)).Some?
              && img == p.decodePng(p.generateQr(medLabel.QrUrlText(), QrScale(dpi)).value)
  {
    if medLabel.qrImageData.Some? && p.decodePng(medLabel.qrImageData.value).Some? then
      p.decodePng(medLabel.qrImageData.value)
    else
      match medLabel.QrUrl(p.urlParses)
      case None => None
      case Some(url) =>
        match p.generateQr(url, QrScale(dpi))
        case None => None
        case Some(data) => p.decodePng(data)
  }

  /**
   * There is no QR image exactly when the stored data is missing or does
   * not decode, and the URL does not parse, or the generator fails, or its
   * output does not decode.
   */
  lemma NoQrImage(medLabel: MedicationLabel, dpi: real, p: Platform)
    ensures LoadQrImage(medLabel, dpi, p).None? <==>
              && (medLabel.qrImageData.None? || p.decodePng(medLabel.qrImageData.value).None?)
              && (|| !p.urlParses(medLabel.QrUrlText())
                  || p.generateQr(medLabel.QrUrlText(), QrScale(dpi)).None?
                  || p.decodePng(p.generateQr(medLabel.QrUrlText(), QrScale(dpi)).value).None?)
  {
  }

  /** A stored image that decodes wins: the URL and the generator are never consulted. */
  lemma StoredQrImageWins(medLabel: MedicationLabel, dpi1: real, dpi2: real, p1: Platform, p2: Platform)
    requires medLabel.qrImageData.Some? && p1.decodePng == p2.decodePng
    requires p1.decodePng(medLabel.qrImageData.value).Some?
    ensures LoadQrImage(medLabel, dpi1, p1) == LoadQrImage(medLabel, dpi2, p2) == p1.decodePng(medLabel.qrImageData.value)
  {
  }

  /** The text of the patient field: the patient's full name, or "" when there is no patient. */
  function PatientName(medLabel: MedicationLabel): (name: string)
    ensures medLabel.patient.None? ==> name == ""
    ensures medLabel.patient.Some? ==> name == medLabel.patient.value.FullName()
  {
    if medLabel.patient.Some? then medLabel.patient.value.FullName() else ""
  }

  /** The four fields in drawing order, each in its font. */
  function LabelFields(medLabel: MedicationLabel, fonts: FontSet): (fs: seq<Field>)
    ensures |fs| == 4
    ensures fs[0].text == PatientName(medLabel) && fs[0].font == fonts.patient
    ensures fs[1].text == medLabel.medicationName && fs[1].font == fonts.medication
    ensures fs[2].text == medLabel.sig && fs[2].font == fonts.sig
    ensures fs[3].text == medLabel.pharmacyIdentifier && fs[3].font == fonts.pharmacy
  {
    [ Field(PatientName(medLabel), fonts.patient),
      Field(medLabel.medicationName, fonts.medication),
      Field(medLabel.sig, fonts.sig),
      Field(medLabel.pharmacyIdentifier, fonts.pharmacy) ]
  }

  /**
   * The text frames: the four fields flowed through the text column from the
   * content's minimum y, at increasing y.
   */
  function TextPlacements(medLabel: MedicationLabel, dpi: real, measure: Measure): (ps: seq<Placement>)
    ensures ShowsLabel(ps, medLabel, LabelFonts(dpi))
  {
    var z := LayoutZones(dpi);
    FlowColumn(LabelFields(medLabel, LabelFonts(dpi)), z.textLeft, z.content.MinY(), z.textWidth, measure);
    Flow(LabelFields(medLabel, LabelFonts(dpi)), z.textLeft, z.content.MinY(), z.textWidth, measure)
  }

  /**
   * The QR drawing, when there is an image: an image is drawn exactly when
   * one loads, and it is that image.
   */
  function QrDrawings(medLabel: MedicationLabel, dpi: real, p: Platform): (ds: seq<Drawing>)
    ensures |ds| == if LoadQrImage(medLabel, dpi, p).Some? then 1 else 0
    ensures |ds| == 1 ==> ds[0].DrawnImage? && Some(ds[0].image) == LoadQrImage(medLabel, dpi, p)
  {
    var image := LoadQrImage(medLabel, dpi, p);
    if image.None? then []
    else
      var img := image.value;
      [DrawnImage(img, AspectFit(img.width as real, img.height as real, LayoutZones(dpi).qr))]
  }

  /** One text drawing per frame, in order. */
  function TextDrawings(ps: seq<Placement>): (ds: seq<Drawing>)
    ensures |ds| == |ps|
  {
    if ps == [] then [] else [DrawnText(ps[0])] + TextDrawings(ps[1..])
  }

  /** The `i`th text drawing draws the `i`th frame. */
  lemma {:induction false} TextDrawingsAt(ps: seq<Placement>)
    ensures forall i | 0 <= i < |ps| :: TextDrawings(ps)[i] == DrawnText(ps[i])
    decreases |ps|
  {
    if ps != [] {
      TextDrawingsAt(ps[1..]);
    }
  }

  /** The page: the QR image, if any, then the four text frames in order. */
  function PageDrawings(medLabel: MedicationLabel, dpi: real, p: Platform): (ds: seq<Drawing>)
    ensures |ds| == |QrDrawings(medLabel, dpi, p)| + 4
  {
    QrDrawings(medLabel, dpi, p) + TextDrawings(TextPlacements(medLabel, dpi, p.measure))
  }

  /** The page's drawings come in order: the QR drawing first, then the `i`th text frame at position `i` after it. */
  lemma PageDrawingsOrder(medLabel: MedicationLabel, dpi: real, p: Platform)
    ensures PageDrawings(medLabel, dpi, p)[..|QrDrawings(medLabel, dpi, p)|] == QrDrawings(medLabel, dpi, p)
    ensures forall i | 0 <= i < 4 ::
              PageDrawings(medLabel, dpi, p)[|QrDrawings(medLabel, dpi, p)| + i]
              == DrawnText(TextPlacements(medLabel, dpi, p.measure)[i])
  {
    TextDrawingsAt(TextPlacements(medLabel, dpi, p.measure));
  }

  /**
   * What `renderLabel` produces: nothing when the data consumer or the PDF
   * context cannot be created, otherwise one page with the label's media box.
   */
  function PlanLabel(medLabel: MedicationLabel, dpi: real, p: Platform): (r: Option<PdfDocument>)
    ensures r.None? <==> !p.consumerAvailable || !p.contextAvailable
    ensures r.Some? ==> r.value.mediaBox == PageRect(dpi) && |r.value.pages| == 1
  {
    if !p.consumerAvailable || !p.contextAvailable then None
    else Some(PdfDocument(PageRect(dpi), [PageDrawings(medLabel, dpi, p)]))
  }

  /** The frames show the label's four fields, in order, each in its own font. */
  predicate ShowsLabel(ps: seq<Placement>, medLabel: MedicationLabel, fonts: FontSet) {
    && |ps| == 4
    && ps[0].text == PatientName(medLabel) && ps[0].font == fonts.patient
    && ps[1].text == medLabel.medicationName && ps[1].font == fonts.medication
    && ps[2].text == medLabel.sig && ps[2].font == fonts.sig
    && ps[3].text == medLabel.pharmacyIdentifier && ps[3].font == fonts.pharmacy
  }

  /** Every frame starts at the column's left edge, spans its width, and is a whole number of points tall. */
  predicate InTextColumn(ps: seq<Placement>, z: Zones) {
    forall i | 0 <= i < |ps| :: ps[i].rect.x == z.textLeft && ps[i].rect.w == z.textWidth && IsIntegral(ps[i].rect.h)
  }

  /**
   * The text layout: exactly four frames, patient name, medication name,
   * sig and pharmacy identifier in that order, all in the text column and
   * each exactly as tall as its field's suggested height; the
   * first at the content's minimum y, each later one two points past the
   * maximum y of the one before, so the frames advance strictly in y
   * (upward, in PDF space).
   */
  lemma TextPlacementsLayout(medLabel: MedicationLabel, dpi: real, measure: Measure)
    ensures ShowsLabel(TextPlacements(medLabel, dpi, measure), medLabel, LabelFonts(dpi))
    ensures InTextColumn(TextPlacements(medLabel, dpi, measure), LayoutZones(dpi))
    ensures InColumn(TextPlacements(medLabel, dpi, measure), LabelFields(medLabel, LabelFonts(dpi)),
                     LayoutZones(dpi).textLeft, LayoutZones(dpi).textWidth, measure)
    ensures FlowsFrom(TextPlacements(medLabel, dpi, measure), LayoutZones(dpi).content.MinY())
    ensures Advances(TextPlacements(medLabel, dpi, measure), LayoutZones(dpi).content.MinY())
  {
    var z := LayoutZones(dpi);
    var fields := LabelFields(medLabel, LabelFonts(dpi));
    var ps := TextPlacements(medLabel, dpi, measure);
    FlowColumn(fields, z.textLeft, z.content.MinY(), z.textWidth, measure);
    FlowCursor(fields, z.textLeft, z.content.MinY(), z.textWidth, measure);
    FlowAdvances(fields, z.textLeft, z.content.MinY(), z.textWidth, measure);
    forall i | 0 <= i < |ps| ensures IsIntegral(ps[i].rect.h) {
      assert ps[i].rect.h == SuggestedHeight(fields[i], z.textWidth, measure);
    }
  }

  /** At a positive resolution every text frame lies right of the QR square. */
  lemma TextRightOfQr(medLabel: MedicationLabel, dpi: real, measure: Measure)
    requires dpi > 0.0
    ensures forall i | 0 <= i < |TextPlacements(medLabel, dpi, measure)| ::
              LayoutZones(dpi).qr.MaxX() < TextPlacements(medLabel, dpi, measure)[i].rect.MinX()
  {
    ZonesAtPositiveDpi(dpi);
    TextPlacementsLayout(medLabel, dpi, measure);
  }

  /**
   * Nothing keeps the text inside the content rectangle: a field whose
   * suggested height is as tall as the page already runs past the content's
   * maximum y (its top edge in PDF space).
   */
  lemma TallTextLeavesContent(medLabel: MedicationLabel, dpi: real)
    requires dpi > 0.0
    ensures TextPlacements(medLabel, dpi, (text, font, width) => dpi)[0].rect.MaxY() > LayoutZones(dpi).content.MaxY()
  {
    var measure: Measure := (text, font, width) => dpi;
    var z := LayoutZones(dpi);
    TextPlacementsLayout(medLabel, dpi, measure);
    var first := TextPlacements(medLabel, dpi, measure)[0];
    assert first.rect.h == SuggestedHeight(LabelFields(medLabel, LabelFonts(dpi))[0], z.textWidth, measure);
  }

  /** The QR drawing, when there is one, lies inside the QR square. */
  lemma QrDrawingInSquare(medLabel: MedicationLabel, dpi: real, p: Platform)
    ensures |QrDrawings(medLabel, dpi, p)| == 1 ==> LayoutZones(dpi).qr.Contains(QrDrawings(medLabel, dpi, p)[0].rect)
  {
    var image := LoadQrImage(medLabel, dpi, p);
    if image.Some? {
      var img := image.value;
      var qr := LayoutZones(dpi).qr;
      assert QrDrawings(medLabel, dpi, p)[0].rect == AspectFit(img.width as real, img.height as real, qr);
    }
  }

  /**
   * When `renderLabel` succeeds its one page holds the QR image if one
   * loaded and then the four text frames; a missing QR image does not stop
   * the render, it only leaves the page with text alone.
   */
  lemma PlanLabelOutcome(medLabel: MedicationLabel, dpi: real, p: Platform)
    requires p.consumerAvailable && p.contextAvailable
    ensures PlanLabel(medLabel, dpi, p).Some?
    ensures |PlanLabel(medLabel, dpi, p).value.pages[0]| == |QrDrawings(medLabel, dpi, p)| + 4
    ensures LoadQrImage(medLabel, dpi, p).None? ==>
              forall i | 0 <= i < |PlanLabel(medLabel, dpi, p).value.pages[0]| ::
                PlanLabel(medLabel, dpi, p).value.pages[0][i].DrawnText?
  {
    var page := PageDrawings(medLabel, dpi, p);
    assert PlanLabel(medLabel, dpi, p).value.pages[0] == page;
    PageDrawingsOrder(medLabel, dpi, p);
  }

  /**
   * Four fields flow as four frames, each placed at the cursor the one
   * before it leaves.
   */
  lemma FlowOfFour(fields: seq<Field>, x: real, width: real, measure: Measure, y0: real, y1: real, y2: real, y3: real)
    requires |fields| == 4
    requires y1 == NextCursor(PlaceText(fields[0], x, y0, width, measure))
    requires y2 == NextCursor(PlaceText(fields[1], x, y1, width, measure))
    requires y3 == NextCursor(PlaceText(fields[2], x, y2, width, measure))
    ensures TextDrawings(Flow(fields, x, y0, width, measure))
            == [DrawnText(PlaceText(fields[0], x, y0, width, measure)),
                DrawnText(PlaceText(fields[1], x, y1, width, measure)),
                DrawnText(PlaceText(fields[2], x, y2, width, measure)),
                DrawnText(PlaceText(fields[3], x, y3, width, measure))]
  {
    TextDrawingsFrom(fields, 0, x, y0, width, measure);
    TextDrawingsFrom(fields, 1, x, y1, width, measure);
    TextDrawingsFrom(fields, 2, x, y2, width, measure);
    TextDrawingsFrom(fields, 3, x, y3, width, measure);
    assert fields[0..] == fields && fields[4..] == [];
  }

  /**
   * Flowing the fields from the `k`th on: the `k`th field's frame at the
   * cursor, then the fields after it from the next cursor.
   */
  lemma TextDrawingsFrom(fields: seq<Field>, k: nat, x: real, cursorY: real, width: real, measure: Measure)
    requires k < |fields|
    ensures TextDrawings(Flow(fields[k..], x, cursorY, width, measure))
            == [DrawnText(PlaceText(fields[k], x, cursorY, width, measure))]
               + TextDrawings(Flow(fields[k + 1..], x, NextCursor(PlaceText(fields[k], x, cursorY, width, measure)), width, measure))
  {
    assert fields[k..][0] == fields[k];
    assert fields[k..][1..] == fields[k + 1..];
  }

  /**
   * A `CGContext` writing a PDF: the pages already ended, the drawings of
   * the open page, and whether a page is open and the document closed.
   */
  class PdfContext {
    const mediaBox: Rect
    var finished: seq<seq<Drawing>>
    var current: seq<Drawing>
    var pageOpen: bool
    var closed: bool

    /** `CGContext(consumer:mediaBox:_:)`: an empty document. */
    constructor (mediaBox: Rect)
      ensures this.mediaBox == mediaBox
      ensures finished == [] && current == [] && !pageOpen && !closed
    {
      this.mediaBox := mediaBox;
      finished := [];
      current := [];
      pageOpen := false;
      closed := false;
    }

    /** `beginPDFPage`: an empty page is opened. */
    method BeginPage()
      requires !pageOpen && !closed
      modifies this
      ensures pageOpen && current == [] && finished == old(finished) && !closed
    {
      pageOpen := true;
      current := [];
    }

    /** `draw(_:in:)`: the image is added to the open page. */
    method DrawImage(image: Image, rect: Rect)
      requires pageOpen
      modifies this
      ensures current == old(current) + [DrawnImage(image, rect)]
      ensures finished == old(finished) && pageOpen && closed == old(closed)
    {
      current := current + [DrawnImage(image, rect)];
    }

    /** `CTFrameDraw` through `drawCT`: the text frame is added to the open page. */
    method DrawTextFrame(placement: Placement)
      requires pageOpen
      modifies this
      ensures current == old(current) + [DrawnText(placement)]
      ensures finished == old(finished) && pageOpen && closed == old(closed)
    {
      current := current + [DrawnText(placement)];
    }

    /** `endPDFPage`: the open page joins the finished ones. */
    method EndPage()
      requires pageOpen
      modifies this
      ensures finished == old(finished) + [old(current)] && current == [] && !pageOpen
      ensures closed == old(closed)
    {
      finished := finished + [current];
      current := [];
      pageOpen := false;
    }

    /** `closePDF`: the document is complete. */
    method Close()
      requires !pageOpen
      modifies this
      ensures closed && finished == old(finished) && current == old(current) && !pageOpen
    {
      closed := true;
    }

    /** The PDF written so far. */
    function Document(): (doc: PdfDocument)
      reads this
      ensures doc.mediaBox == mediaBox && doc.pages == finished
    {
      PdfDocument(mediaBox, finished)
    }
  }

  /**
   * The nested `drawText`: the field's frame at the cursor, as wide as the
   * column and a whole number of points tall, is drawn, and the cursor moves
   * to two points past the frame's maximum y.
   */
  method DrawText(ctx: PdfContext, field: Field, x: real, width: real, cursorY: real, measure: Measure)
    returns (nextY: real)
    requires ctx.pageOpen
    modifies ctx
    ensures ctx.current == old(ctx.current) + [DrawnText(PlaceText(field, x, cursorY, width, measure))]
    ensures ctx.finished == old(ctx.finished) && ctx.pageOpen && ctx.closed == old(ctx.closed)
    ensures nextY == NextCursor(PlaceText(field, x, cursorY, width, measure))
  {
    var height := SuggestedHeight(field, width, measure);
    var rect := Rect(x, cursorY, width, Ceil(height));
    ctx.DrawTextFrame(Placement(rect, field.text, field.font));
    nextY := rect.MaxY() + Spacing;
  }

  /** The QR step of `renderLabel`: the loaded image, if any, aspect-fitted into the QR square. */
  method DrawQrImage(ctx: PdfContext, medLabel: MedicationLabel, dpi: real, p: Platform)
    requires ctx.pageOpen
    modifies ctx
    ensures ctx.current == old(ctx.current) + QrDrawings(medLabel, dpi, p)
    ensures ctx.finished == old(ctx.finished) && ctx.pageOpen && ctx.closed == old(ctx.closed)
  {
    var image := LoadQrImage(medLabel, dpi, p);
    ghost var drawings := QrDrawings(medLabel, dpi, p);
    if image.Some? {
      var fitted := AspectFit(image.value.width as real, image.value.height as real, LayoutZones(dpi).qr);
      assert drawings == [DrawnImage(image.value, fitted)];
      ctx.DrawImage(image.value, fitted);
    } else {
      assert drawings == [];
    }
  }

  /**
   * The text step of `renderLabel`: from the cursor's starting place, the
   * nested `drawText` draws the patient name, medication name, sig and
   * pharmacy identifier in turn, each advancing the cursor in y.
   */
  method DrawLabelText(ctx: PdfContext, medLabel: MedicationLabel, fonts: FontSet,
                       x: real, width: real, startY: real, measure: Measure)
    requires ctx.pageOpen
    modifies ctx
    ensures ctx.current == old(ctx.current) + TextDrawings(Flow(LabelFields(medLabel, fonts), x, startY, width, measure))
    ensures ctx.finished == old(ctx.finished) && ctx.pageOpen && ctx.closed == old(ctx.closed)
  {
    ghost var fields := LabelFields(medLabel, fonts);
    ghost var start := ctx.current;
    var cursorY := startY;
    ghost var y0 := cursorY;
    cursorY := DrawText(ctx, Field(PatientName(medLabel), fonts.patient), x, width, cursorY, measure);
    ghost var y1 := cursorY;
    cursorY := DrawText(ctx, Field(medLabel.medicationName, fonts.medication), x, width, cursorY, measure);
    ghost var y2 := cursorY;
    cursorY := DrawText(ctx, Field(medLabel.sig, fonts.sig), x, width, cursorY, measure);
    ghost var y3 := cursorY;
    cursorY := DrawText(ctx, Field(medLabel.pharmacyIdentifier, fonts.pharmacy), x, width, cursorY, measure);
    FlowOfFour(fields, x, width, measure, y0, y1, y2, y3);
    assert ctx.current == start + [DrawnText(PlaceText(fields[0], x, y0, width, measure))]
                                + [DrawnText(PlaceText(fields[1], x, y1, width, measure))]
                                + [DrawnText(PlaceText(fields[2], x, y2, width, measure))]
                                + [DrawnText(PlaceText(fields[3], x, y3, width, measure))];
  }

  /**
   * The body of the page: the QR image if one loads, then the four fields
   * flowed through the text column from the content's minimum y.
   */
  method DrawPage(ctx: PdfContext, medLabel: MedicationLabel, dpi: real, p: Platform)
    requires ctx.pageOpen
    modifies ctx
    ensures ctx.current == old(ctx.current) + PageDrawings(medLabel, dpi, p)
    ensures ctx.finished == old(ctx.finished) && ctx.pageOpen && ctx.closed == old(ctx.closed)
  {
    ghost var before := ctx.current;
    ghost var qr := QrDrawings(medLabel, dpi, p);
    ghost var text := TextDrawings(TextPlacements(medLabel, dpi, p.measure));
    assert PageDrawings(medLabel, dpi, p) == qr + text;
    DrawQrImage(ctx, medLabel, dpi, p);
    ghost var middle := ctx.current;
    var z := LayoutZones(dpi);
    assert text == TextDrawings(Flow(LabelFields(medLabel, LabelFonts(dpi)), z.textLeft, z.content.MinY(), z.textWidth, p.measure));
    DrawLabelText(ctx, medLabel, LabelFonts(dpi), z.textLeft, z.textWidth, z.content.MinY(), p.measure);
    assert ctx.current == middle + text;
    assert middle + text == before + (qr + text);
  }

  /**
   * `renderLabel(for:dpi:)`: opens a PDF context on the page, draws the QR
   * image if one loads, draws the four fields in the text column, and
   * closes the document. The result is exactly the plan.
   */
  method RenderLabel(medLabel: MedicationLabel, p: Platform, dpi: real := DefaultDpi) returns (data: Option<PdfDocument>)
    ensures data == PlanLabel(medLabel, dpi, p)
  {
    var pageRect := PageRect(dpi);
    if !p.consumerAvailable {
      return None;
    }
    if !p.contextAvailable {
      return None;
    }
    var ctx := new PdfContext(pageRect);
    ctx.BeginPage();
    ghost var page := PageDrawings(medLabel, dpi, p);
    DrawPage(ctx, medLabel, dpi, p);
    assert ctx.current == [] + page == page;
    ctx.EndPage();
    assert ctx.finished == [page];
    ctx.Close();
    data := Some(ctx.Document());
    assert data == Some(PdfDocument(pageRect, [page]));
  }
}
