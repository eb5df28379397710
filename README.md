# HUSHMedications label engine and records, in Dafny

This project models the logic of the HUSHMedications app: a small clinical
records app whose one substantial piece is `LabelPDFRenderer`. The renderer
turns a medication label record into a one-page PDF whose media box is
2·dpi by dpi points. That is 2 × 1 inches only when printed at dpi points
per inch, as the renderer's own comment assumes. The page carries a QR
image on the left and four text fields stacked in a column on the right.

Coordinates are those of the PDF page, as Core Graphics sets them up for a
PDF context: the origin is the lower-left corner and y grows upward. Only
the drawing of each text frame flips the y axis, locally, for Core Text.
The cursor starts at the content rectangle's minimum y, its bottom edge,
and each field moves it to greater y, so the fields stack upward and are
described below in terms of minimum and maximum y.

The model covers:

- **The records.** Two revisions each of the patient record
  (`Patients`, `LegacyPatients`) and the medication record (`Medications`,
  `LegacyMedications`), plus the label record (`MedicationLabels`). These
  are datatypes, and their computed properties are functions: `fullName`,
  `age`, `hasValidNames`, `selectionName` and `qrURL`. Swift initializers
  become constructors with default parameter values, or a function where
  the initializer normalises an argument.
- **Whitespace trimming** (`Text`). Foundation's
  `trimmingCharacters(in: .whitespacesAndNewlines)` is a function. It is
  proved equal to an independent definition: the unique substring that
  strips only whitespace from the ends and keeps none at its own ends.
- **The optional-text binding** of the patient edit form
  (`PatientEditing`). This is a class, because its setter writes through
  to the optional field it wraps.
- **Label geometry** (`Geometry`, `LabelLayout`). This covers `CGRect`
  with Core Graphics' standardizing getters, `insetBy` and `ceil`, and the
  label's layout:
  - the page, the margin, the QR square and the text column;
  - the capped font sizes;
  - `aspectFitRect`;
  - `suggestedHeight`;
  - the flowing cursor of the nested `drawText`.
- **The renderer** (`LabelRenderer`):
  - `loadQRImage` and its precedence of sources, as a function;
  - the whole page as a pure plan (`PlanLabel`);
  - `renderLabel` itself as a method that drives a PDF context object call
    by call, updating a local cursor as the Swift code does. It is proved
    to produce exactly the plan.

Calls into frameworks are parameters, gathered in the `Platform` datatype:

- Core Text's suggested frame height;
- PNG decoding;
- the QR generator;
- `URL(string:)`;
- whether the PDF data consumer and context could be created.

Three points where the code decides something a reader might assume
otherwise; the model follows the code in all three:

- **The page is 2 × 1 inches only at 72 dpi.** The media box is 2·dpi by
  dpi PDF units, and a PDF unit is 1/72 inch. At the default 144 dpi the
  page is therefore 4 × 2 inches, and at 300 dpi about 8.33 × 4.17 inches,
  unless the printer scales it down. The comment at
  LabelPDFRenderer.swift:10-12 takes one inch to be dpi points, and the
  declared `pointsPerInch` of 72 is never used (`PageRect`).

- **The text column has no overflow check.** Frames continue past the
  content rectangle's maximum y when the text is tall
  (`TallTextLeavesContent`).
- **Font sizes stop scaling with resolution.** They are proportional to
  the page height only up to 62.5 dpi (`FontsProportionalAtLowDpi`). From
  600/9 dpi, which includes the usual 72, 144 and 300 dpi, every cap
  binds. The sizes are then fixed at 14, 12, 10 and 9 points, so the
  fonts' proportion to the page differs between 72 and 300 dpi
  (`FontsCappedAtPrintDpi`).

The zone geometry does scale: at every positive dpi the text column is
0.964 × dpi wide (`ZonesAtPositiveDpi`).

## Model

| member | source | states |
|---|---|---|
| Patients.Patient.FullName | HUSHMedications/Patient/Patient.swift:26-32 | first, middle and last name joined by single spaces when the middle name is present and not all whitespace, the middle name kept untrimmed; first and last name joined by one space when the middle name is nil or blank |
| Patients.Patient.Age | HUSHMedications/Patient/Patient.swift:47-52 | the age is never negative; it is the calendar's year count when that is present and non-negative, and 0 when it is missing or negative |
| Patients.InitDefaults | HUSHMedications/Patient/Patient.swift:54-80 | the initializer stores every argument in its own field; middle name and second street line default to nil |
| LegacyPatients.Patient.FullName | HUSHMedications/Patient.swift:29-35 | same two cases as the current record: a blank or missing middle name is left out, a kept one is untrimmed |
| LegacyPatients.Patient.Age | HUSHMedications/Patient.swift:37-43 | `max(0, years)` with a missing year count taken as 0, so never negative |
| LegacyPatients.InitDefaults | HUSHMedications/Patient.swift:45-87 | both initializers store their arguments verbatim, the patient's address included; middle name and the address's second line default to nil |
| Medications.Medication.HasValidNames | HUSHMedications/Medications/Medication.swift:68-71 | holds exactly when the medication name has a character that is not whitespace |
| Medications.Medication.SelectionName | HUSHMedications/Medications/Medication.swift:73-79 | the result has no leading or trailing whitespace; it is empty when pharmacy and name are both blank, the trimmed name alone or the trimmed pharmacy alone when the other is blank, and trimmed pharmacy, one space, trimmed name otherwise |
| Medications.NewMedication | HUSHMedications/Medications/Medication.swift:44-66 | an empty secondary name is stored as nil and any other is stored as given; the concentrations start at 0 and nil; every other argument is stored verbatim |
| Medications.NewMedicationDefaults | HUSHMedications/Medications/Medication.swift:44-66 | with only an id, every string is empty, the secondary name is nil, there are no labels, the names are not valid and the selection name is empty |
| LegacyMedications.Medication.HasValidNames | HUSHMedications/Medication.swift:52-55 | false for an empty or all-whitespace name; true as soon as one character is not whitespace |
| LegacyMedications.InitDefaults | HUSHMedications/Medication.swift:32-50 | with only an id, every string is empty and there are no labels, and the names are not valid |
| MedicationLabels.MedicationLabel.QrUrlText | HUSHMedications/MedicationLabel.swift:53-56 | the URL text is exactly the fixed address prefix followed by the medication identifier |
| MedicationLabels.MedicationLabel.QrUrl | HUSHMedications/MedicationLabel.swift:54-56 | a URL exists exactly when the text parses, and it is that text |
| MedicationLabels.QrUrlDependsOnlyOnIdentifier | HUSHMedications/MedicationLabel.swift:54-56 | two labels with the same identifier have the same URL, whatever their other fields |
| MedicationLabels.QrUrlDeterminesIdentifier | HUSHMedications/MedicationLabel.swift:53-56 | equal URL texts mean equal identifiers: the identifier can be read back from the URL |
| MedicationLabels.InitDefaults | HUSHMedications/MedicationLabel.swift:58-84 | lot number, best-by date, patient and QR image data default to nil; the other arguments are stored verbatim |
| PatientEditing.OptionalTextBinding.constructor | HUSHMedications/Patient/PatientEditView.swift:49-50 | the binding wraps the given optional source and placeholder |
| PatientEditing.OptionalTextBinding.Get | HUSHMedications/Patient/PatientEditView.swift:51 | the stored string when there is one, the placeholder when the source is nil |
| PatientEditing.OptionalTextBinding.Set | HUSHMedications/Patient/PatientEditView.swift:52-54 | a blank value clears the source to nil, any other value is stored untrimmed; reading back gives the value set, or the placeholder after a blank one |
| Text.Trim | HUSHMedications/Medications/Medication.swift:70 | the trimmed string is no longer than the input and neither starts nor ends with whitespace |
| Text.SkipLeading | HUSHMedications/Medications/Medication.swift:70 | from a start index, the scan stops at the first non-whitespace character or the end, and everything it passes is whitespace |
| Text.SkipTrailing | HUSHMedications/Medications/Medication.swift:70 | from an end index back to a lower bound, the scan stops after the last non-whitespace character or at the bound, and everything it passes is whitespace |
| Text.TrimCuts | HUSHMedications/Medications/Medication.swift:70 | the trim is the slice between the two scans, and what lies before and after it is all whitespace |
| Text.TrimCharacterization | HUSHMedications/Medications/Medication.swift:70 | a string is the trim of `s` exactly when it is a slice of `s`, everything cut off is whitespace, and it has no outer whitespace |
| Text.TrimOfUnique | HUSHMedications/Medications/Medication.swift:70 | two strings that both trim `s` in that sense are equal |
| Text.TrimEmptyIffBlank | HUSHMedications/Medications/Medication.swift:69-71 | the trim is empty exactly when every character is whitespace |
| Text.NonEmptyOnly | HUSHMedications/Medications/Medication.swift:77 | the kept parts are non-empty parts of the input; each non-empty string occurs in the result exactly as many times as in the input, and the empty string not at all |
| Text.NonEmptyOnlyAppend | HUSHMedications/Medications/Medication.swift:77 | the filter keeps order: filtering a concatenation is the concatenation of the filtered halves |
| Text.NonEmptyOnlySingle | HUSHMedications/Medications/Medication.swift:77 | a single part is kept exactly when it is non-empty |
| Text.Joined | HUSHMedications/Medications/Medication.swift:78 | joining no parts gives the empty string; otherwise the result starts with the first part and ends with the last, and with two or more parts it is at least as long as the first part, one separator and the last part together; `JoinedLength` pins the exact length |
| Text.JoinedLength | HUSHMedications/Medications/Medication.swift:78 | joining n ≥ 1 parts gives exactly the parts' total length plus n − 1 separators (`Times(n - 1, |separator|)`), so nothing else is added |
| Text.TimesIsProduct | HUSHMedications/Medications/Medication.swift:78 | the separator count used by `JoinedLength`, n − 1 additions of the separator length, is (n − 1) · length |
| Text.JoinNonEmptyPair | HUSHMedications/Medications/Medication.swift:75-78 | filtering out empty parts of a pair and joining gives the other part when one is empty, and both with the separator between them otherwise |
| Text.JoinKeepsNoOuterWhitespace | HUSHMedications/Medications/Medication.swift:74-79 | joining two non-empty parts that have no outer whitespace leaves none at the ends, whatever the separator |
| Geometry.Ceil | HUSHMedications/LabelPDFRenderer.swift:107-111 | the result is a whole number, at least `x`, and less than one above it |
| Geometry.CeilOfIntegral | HUSHMedications/LabelPDFRenderer.swift:64 | a whole number is its own ceiling, so the second `ceil` in `drawText` changes nothing |
| Geometry.Rect.InsetBy | HUSHMedications/LabelPDFRenderer.swift:31 | the inset rectangle is standard and each side moves inward by the inset amount |
| Geometry.Max | HUSHMedications/LabelPDFRenderer.swift:40 | the result is at least both arguments and is one of them |
| Geometry.Min | HUSHMedications/LabelPDFRenderer.swift:49-52 | the result is at most both arguments and is one of them |
| Geometry.Rect.Width | HUSHMedications/LabelPDFRenderer.swift:99 | the width is never negative and is the stored width or its negation |
| Geometry.Rect.Height | HUSHMedications/LabelPDFRenderer.swift:34 | the height is never negative and is the stored height or its negation |
| Geometry.RectEdges | HUSHMedications/LabelPDFRenderer.swift:35-40 | `minX`/`minY` are the lesser of the two edges `x`, `x + width` (and `y`, `y + height`), `maxX`/`maxY` the greater, and `midX`/`midY` lie halfway between them |
| Geometry.RectExtents | HUSHMedications/LabelPDFRenderer.swift:102-103 | the extents agree with the sizes (`maxX - minX` is the width, likewise for y) and the middle is the average of the minimum and the maximum |
| LabelLayout.PageRect | HUSHMedications/LabelPDFRenderer.swift:15-17 | the page is twice as wide as it is high; at non-negative dpi it is standard, has its minimum corner at the origin and is dpi high; at negative dpi its maximum corner is at the origin and it is -dpi high |
| LabelLayout.LayoutZones | HUSHMedications/LabelPDFRenderer.swift:15-40 | page at the origin, 2 × dpi by dpi; margin 6% of the page height; content inset by it on every side; QR square as tall as the content, at its minimum corner; text column starting 0.6 margins right of the square, its width the rest of the content, clamped at zero |
| LabelLayout.ZonesAtPositiveDpi | HUSHMedications/LabelPDFRenderer.swift:15-40 | at positive dpi the content lies in the page and the QR square in the content, the column starts right of the square, and the clamp never engages: the column is 241/250 × dpi wide |
| LabelLayout.CappedSize | HUSHMedications/LabelPDFRenderer.swift:49-52 | the size never exceeds the cap or the proportional size, and equals one of them |
| LabelLayout.LabelFonts | HUSHMedications/LabelPDFRenderer.swift:49-52 | Helvetica-Bold for patient and medication, Helvetica for the sig, Helvetica-Oblique for the pharmacy; each size is the smaller of its cap (14, 12, 10, 9 points) and its share of the page height (22%, 18%, 16%, 14%): no larger than either and equal to one of them |
| LabelLayout.FontsProportionalAtLowDpi | HUSHMedications/LabelPDFRenderer.swift:49-52 | up to a page height of 62.5 the sizes are 22%, 18%, 16% and 14% of it |
| LabelLayout.FontsCappedAtPrintDpi | HUSHMedications/LabelPDFRenderer.swift:49-52 | from a page height of 600/9 every cap binds: 14, 12, 10 and 9 points |
| LabelLayout.AspectFit | HUSHMedications/LabelPDFRenderer.swift:97-105 | a non-positive image size gives the bounding rectangle back; otherwise the result is standard, inside the bounding rectangle, and centred on it |
| LabelLayout.AspectFitShape | HUSHMedications/LabelPDFRenderer.swift:99-101 | for a positive image the fitted rectangle keeps the image's aspect ratio and fills the bounding rectangle's width or height |
| LabelLayout.SuggestedHeight | HUSHMedications/LabelPDFRenderer.swift:107-111 | the suggested height is a whole number, at least the measured height and less than one point above it |
| LabelLayout.PlaceText | HUSHMedications/LabelPDFRenderer.swift:63-64 | the frame starts at the given x and at the cursor, spans the given width, is exactly as tall as the suggested height, and so its maximum y is not less than the cursor; it carries the field's text and font |
| LabelLayout.NextCursor | HUSHMedications/LabelPDFRenderer.swift:66 | the next cursor is exactly 2 points past the frame's maximum y, so strictly past both of the frame's y edges |
| LabelLayout.Flow | HUSHMedications/LabelPDFRenderer.swift:55-67 | one frame per field |
| LabelLayout.FlowColumn | HUSHMedications/LabelPDFRenderer.swift:63-64 | every frame starts at the column's left edge, spans its width, carries its own field's text and font, and is exactly that field's suggested height tall |
| LabelLayout.FlowCursor | HUSHMedications/LabelPDFRenderer.swift:55-66 | the first frame starts at the initial cursor and every later frame starts 2 points past the previous frame's maximum y |
| LabelLayout.FlowAdvances | HUSHMedications/LabelPDFRenderer.swift:55-66 | no frame starts at a y less than the initial cursor, each starts at least 2 points past the maximum y of every earlier one, and the starts strictly increase |
| LabelLayout.FlowDisjoint | HUSHMedications/LabelPDFRenderer.swift:63-66 | with non-negative measurements every frame's maximum y is less than the minimum y of every later frame |
| LabelRenderer.QrScale | HUSHMedications/LabelPDFRenderer.swift:85 | the generator's scale is at least 4 and at least dpi/24, and is one of the two |
| LabelRenderer.LoadQrImage | HUSHMedications/LabelPDFRenderer.swift:81-89 | stored data that decodes is used as is; any other image comes from decoding what the generator made from the label's URL at the QR scale |
| LabelRenderer.NoQrImage | HUSHMedications/LabelPDFRenderer.swift:81-89 | there is no image exactly when the stored data is missing or undecodable and the URL does not parse, the generator fails, or its output does not decode |
| LabelRenderer.StoredQrImageWins | HUSHMedications/LabelPDFRenderer.swift:82-84 | when the stored data decodes, neither the URL parser, the generator nor the resolution changes the image |
| LabelRenderer.PatientName | HUSHMedications/LabelPDFRenderer.swift:69 | the patient's full name, or the empty string when the label has no patient |
| LabelRenderer.LabelFields | HUSHMedications/LabelPDFRenderer.swift:69-73 | four fields in drawing order: patient name in the patient font, medication name in the medication font, sig in the sig font, pharmacy identifier in the pharmacy font |
| LabelRenderer.TextPlacements | HUSHMedications/LabelPDFRenderer.swift:55-73 | the frames show the label's four fields in order, each in its font |
| LabelRenderer.TextPlacementsLayout | HUSHMedications/LabelPDFRenderer.swift:55-73 | exactly four frames: patient name, medication name, sig and pharmacy identifier in that order, each in its font; all in the text column, each exactly as tall as the suggested height of its field and so a whole number of points; the first at the content's minimum y, each later one 2 points past the previous frame's maximum y, the starts strictly increasing |
| LabelRenderer.TextRightOfQr | HUSHMedications/LabelPDFRenderer.swift:35-40 | at positive dpi every text frame lies right of the QR square |
| LabelRenderer.TallTextLeavesContent | HUSHMedications/LabelPDFRenderer.swift:55-67 | nothing keeps text inside the content: a field measured as tall as the page ends past the content's maximum y |
| LabelRenderer.QrDrawings | HUSHMedications/LabelPDFRenderer.swift:43-46 | one drawing when an image loads and none otherwise, and the drawing shows that image |
| LabelRenderer.QrDrawingInSquare | HUSHMedications/LabelPDFRenderer.swift:44-45 | the QR drawing, when there is one, lies inside the QR square |
| LabelRenderer.PageDrawings | HUSHMedications/LabelPDFRenderer.swift:42-73 | the page holds the QR drawing, if any, and four text drawings |
| LabelRenderer.PageDrawingsOrder | HUSHMedications/LabelPDFRenderer.swift:42-73 | the QR drawing comes first, and the `i`th drawing after it is the `i`th text frame |
| LabelRenderer.PlanLabel | HUSHMedications/LabelPDFRenderer.swift:14-77 | the render yields nothing exactly when the data consumer or the PDF context cannot be created; otherwise the document has the page rectangle as media box and exactly one page |
| LabelRenderer.PlanLabelOutcome | HUSHMedications/LabelPDFRenderer.swift:14-77 | when consumer and context are created the render succeeds whether or not a QR image loads; its page holds the QR drawing if any plus four text frames, and only text when no image loaded |
| LabelRenderer.FlowOfFour | HUSHMedications/LabelPDFRenderer.swift:69-73 | four fields flowed from a cursor are the four frames that four successive `drawText` calls produce |
| LabelRenderer.PdfContext.constructor | HUSHMedications/LabelPDFRenderer.swift:21-22 | a new context has the given media box, no pages and no open page |
| LabelRenderer.PdfContext.BeginPage | HUSHMedications/LabelPDFRenderer.swift:24 | opens an empty page and keeps the finished ones |
| LabelRenderer.PdfContext.DrawImage | HUSHMedications/LabelPDFRenderer.swift:45 | appends the image in its rectangle to the open page and changes nothing else |
| LabelRenderer.PdfContext.DrawTextFrame | HUSHMedications/LabelPDFRenderer.swift:65 | appends the text frame to the open page and changes nothing else |
| LabelRenderer.PdfContext.EndPage | HUSHMedications/LabelPDFRenderer.swift:75 | the open page's drawings become the last finished page |
| LabelRenderer.PdfContext.Close | HUSHMedications/LabelPDFRenderer.swift:76 | marks the document closed and keeps its pages |
| LabelRenderer.PdfContext.Document | HUSHMedications/LabelPDFRenderer.swift:77 | the document is the media box and the finished pages |
| LabelRenderer.DrawText | HUSHMedications/LabelPDFRenderer.swift:59-67 | draws the field's frame at the cursor and returns the cursor 2 points past that frame's maximum y |
| LabelRenderer.DrawQrImage | HUSHMedications/LabelPDFRenderer.swift:42-46 | appends the plan's QR drawing, nothing when no image loads |
| LabelRenderer.DrawPage | HUSHMedications/LabelPDFRenderer.swift:42-73 | drawing the QR image and then the four fields appends exactly the planned page to the open page |
| LabelRenderer.DrawLabelText | HUSHMedications/LabelPDFRenderer.swift:54-73 | the four `drawText` calls append exactly the flowed frames of the four fields |
| LabelRenderer.RenderLabel | HUSHMedications/LabelPDFRenderer.swift:14-78 | the document produced equals the plan, so every property proved of the plan holds of the render |

## Left out

- Drawing and PDF bytes: what Core Graphics paints and how it serialises the PDF are not modelled. The document is the list of drawings per page, and the drawing state set at HUSHMedications/LabelPDFRenderer.swift:25-27 (interpolation and antialiasing) is not recorded.
- The coordinate flip in `drawCT`: its save, translate, scale and restore of the graphics state (LabelPDFRenderer.swift:113-125) are not modelled. Each text frame is recorded in the renderer's own coordinates.
- Text measurement: `CTFramesetterSuggestFrameSizeWithConstraints` is the `measure` parameter. The unbounded height constraint it is given is not represented.
- QR encoding and PNG decoding are the `generateQr` and `decodePng` parameters. `QRCodeGenerator.swift` is not part of this model.
- `URL(string:)` is the `urlParses` parameter. The URL handed to the generator is taken to be the text that was parsed.
- Floating point: `CGFloat` and `Double` are exact `real` numbers here, so IEEE rounding is not modelled.
- `insetBy` with an inset larger than the rectangle, which yields the null rectangle, is not modelled. The renderer's margin is 6% of the height, so this never arises.
- Patients.Patient.Age and LegacyPatients.Patient.Age take the calendar's year count as an input. The clock and `Calendar` are not modelled.
- Default ids (`UUID()`) and the default creation date (`.now`) are passed in by the caller.
- Strings are sequences of Unicode scalars, not Swift grapheme clusters.
- The whitespace set is the Unicode `White_Space` characters.
- `Double+Formatting.swift` is floating-point text formatting and is not part of this model.
- SwiftUI views and SwiftData persistence are not modelled: the view files, relationship delete rules, and saving and fetching.
- `Item.swift` and `Providers/Provider.swift` are not modelled; they only store fields.
- `pointsPerInch` (LabelPDFRenderer.swift:8) is declared but never used by the renderer, so it is not modelled.
- The force-unwrap of `CFAttributedStringCreate` in `drawText` (LabelPDFRenderer.swift:61) would trap if Core Foundation returned nil. The model has no such failure path: the attributed string is always taken to be created.
- `generatePDFLabel` (LabelPDFRenderer.swift:133-135) only forwards to `renderLabel`. RenderLabel's default resolution of 144 covers it.
- LabelRenderer.PdfContext.BeginPage, DrawImage, DrawTextFrame, EndPage and Close require the page to be open or closed as each call expects. The renderer always calls them in that order; what Core Graphics does on a call out of order is not modelled.
