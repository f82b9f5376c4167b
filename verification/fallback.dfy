/** The offline fallback analysis: a fixed-template report built from the
    decoded image's dimensions, mode, format name, file size and whether its
    colour table could be read. */
module Fallback {
  import opened Text
  import opened Optional

  datatype Orientation = Landscape | Portrait | Square
  datatype Quality = High | Good | Standard

  const MiB: nat := 1024 * 1024

  /** The orientation of a `w` x `h` image. The source compares the float
      ratio `w / h` with 1.5 and 0.7; the body compares integers by
      cross-multiplication, and the contract restates it with exact real
      division. */
  function OrientationOf(w: nat, h: nat): (o: Orientation)
    requires h > 0
    ensures o == Landscape <==> (w as real) / (h as real) > 1.5
    ensures o == Portrait <==> (w as real) / (h as real) < 0.7
    ensures o == Square <==> 0.7 <= (w as real) / (h as real) <= 1.5
  {
    RatioCompare(w, h);
    if 2 * w > 3 * h then Landscape
    else if 10 * w < 7 * h then Portrait
    else Square
  }

  /** The integer comparisons agree with the real-valued ratio. */
  lemma RatioCompare(w: nat, h: nat)
    requires h > 0
    ensures 2 * w > 3 * h <==> (w as real) / (h as real) > 1.5
    ensures 10 * w < 7 * h <==> (w as real) / (h as real) < 0.7
  {
    var wr, hr := w as real, h as real;
    assert 2 * w > 3 * h <==> wr > 1.5 * hr;
    assert 10 * w < 7 * h <==> wr < 0.7 * hr;
    DivCompare(wr, hr, 1.5);
    DivCompare(wr, hr, 0.7);
  }

  /** Comparing a quotient with `c` is comparing the dividend with `c` times
      the (positive) divisor. */
  lemma DivCompare(a: real, b: real, c: real)
    requires b > 0.0
    ensures a / b > c <==> a > c * b
    ensures a / b < c <==> a < c * b
  {
    var q := a / b;
    assert q * b == a;
    assert (q - c) * b == a - c * b;
    SignOfProduct(q - c, b);
  }

  /** With a positive factor, a product has the sign of the other factor. */
  lemma SignOfProduct(a: real, b: real)
    requires b > 0.0
    ensures a > 0.0 <==> a * b > 0.0
    ensures a < 0.0 <==> a * b < 0.0
  {
  }

  /** The size tier of a file of `size` bytes. */
  function QualityOf(size: nat): (q: Quality)
    ensures q == High <==> size > 5 * MiB
    ensures q == Good <==> MiB < size <= 5 * MiB
    ensures q == Standard <==> size <= MiB
  {
    if size > 5 * MiB then High
    else if size > 1 * MiB then Good
    else Standard
  }

  /** Standard < Good < High. */
  function Rank(q: Quality): nat {
    match q
    case Standard => 0
    case Good => 1
    case High => 2
  }

  /** A larger file never falls into a lower tier. */
  lemma QualityMonotone(a: nat, b: nat)
    requires a <= b
    ensures Rank(QualityOf(a)) <= Rank(QualityOf(b))
  {
  }

  /** Both tier boundaries belong to the lower tier. */
  lemma QualityBoundaries()
    ensures QualityOf(5242880) == Good && QualityOf(5242881) == High
    ensures QualityOf(1048576) == Standard && QualityOf(1048577) == Good
  {
  }

  /** Worked examples of the classifier. */
  lemma ClassifierExamples()
    ensures OrientationOf(1920, 1080) == Landscape && QualityOf(2000000) == Good
    ensures OrientationOf(800, 1200) == Portrait && QualityOf(6000000) == High
    ensures OrientationOf(1000, 1000) == Square && QualityOf(500000) == Standard
    ensures OrientationOf(700, 1000) == Square && OrientationOf(3, 2) == Square
  {
  }

  /** Scaling both sides by the same factor keeps the orientation. */
  lemma OrientationScaleInvariant(w: nat, h: nat, k: nat)
    requires h > 0 && k > 0
    ensures OrientationOf(k * w, k * h) == OrientationOf(w, h)
  {
    var kw: nat := k * w;
    var kh: nat := k * h;
    assert 2 * kw == k * (2 * w) && 3 * kh == k * (3 * h);
    assert 10 * kw == k * (10 * w) && 7 * kh == k * (7 * h);
    ScaleCompare(2 * w, 3 * h, k);
    ScaleCompare(7 * h, 10 * w, k);
  }

  lemma ScaleCompare(a: nat, b: nat, k: nat)
    requires k > 0
    ensures k * a > k * b <==> a > b
  {
    if a > b {
      assert k * a - k * b == k * (a - b);
    } else {
      assert k * b - k * a == k * (b - a);
    }
  }

  /** Turning a landscape image on its side gives a portrait one ... */
  lemma LandscapeTransposed(w: nat, h: nat)
    requires w > 0 && h > 0
    requires OrientationOf(w, h) == Landscape
    ensures OrientationOf(h, w) == Portrait
  {
  }

  /** ... but not the other way round: the two thresholds are not reciprocal. */
  lemma PortraitTransposedMayBeSquare()
    ensures OrientationOf(69, 100) == Portrait
    ensures OrientationOf(100, 69) == Square
  {
  }

  /** What the image library reports about an opened file. `format` is the
      detected format name, if any; `colorsFound` is whether the colour table
      lookup returned anything. */
  datatype ImageInfo = ImageInfo(
    width: nat,
    height: nat,
    mode: string,
    format: Option<string>,
    fileSize: nat,
    colorsFound: bool)

  /** The facts the report states. */
  datatype Report = Report(
    width: nat,
    height: nat,
    formatName: string,
    mode: string,
    fileSize: nat,
    colorInfo: string,
    quality: Quality,
    orientation: Orientation)

  datatype Analysis = Described(report: Report) | Failed(message: string)

  /** The text of a zero-height image's failure: the ratio divides by zero. */
  const DivisionByZero := "Analysis error: division by zero"

  /** The fallback analysis of one image. */
  function Analyze(info: ImageInfo): (a: Analysis)
    ensures info.height == 0 <==> a == Failed(DivisionByZero)
    ensures info.height > 0 ==> a.Described?
    ensures a.Described? ==>
      && a.report.orientation == OrientationOf(info.width, info.height)
      && a.report.quality == QualityOf(info.fileSize)
      && a.report.width == info.width && a.report.height == info.height
      && a.report.fileSize == info.fileSize && a.report.mode == info.mode
      && (a.report.formatName == "Unknown" <==> info.format == None || info.format.value in {"", "Unknown"})
      && (info.format.Some? && info.format.value != "" ==> a.report.formatName == info.format.value)
      && a.report.colorInfo ==
           (if info.colorsFound then "Rich color palette detected" else "Complex color composition")
  {
    if info.height == 0 then Failed(DivisionByZero)
    else
      var formatName := if info.format.Some? && info.format.value != "" then info.format.value else "Unknown";
      var colorInfo := if info.colorsFound then "Rich color palette detected" else "Complex color composition";
      Described(Report(info.width, info.height, formatName, info.mode, info.fileSize, colorInfo,
        QualityOf(info.fileSize), OrientationOf(info.width, info.height)))
  }

  function OrientationNote(o: Orientation): string {
    match o
    case Landscape => "landscape orientation"
    case Portrait => "portrait orientation"
    case Square => "square orientation"
  }

  function QualityNote(q: Quality): string {
    match q
    case High => "high resolution image"
    case Good => "good quality image"
    case Standard => "standard quality image"
  }

  /** The report's opening heading. */
  const TechnicalHeading := "\U{1F4CA} Technical Analysis:\n"

  /** The report line giving the pixel dimensions. */
  function DimensionsLine(w: nat, h: nat): string {
    "\U{2022} Dimensions: " + Decimal(w) + " \U{D7} " + Decimal(h) + " pixels\n"
  }

  /** The report line giving the format name and the colour mode. */
  function FormatLine(formatName: string, mode: string): string {
    "\U{2022} Format: " + formatName + " (" + mode + " mode)\n"
  }

  /** The report line naming the size tier. */
  function QualityLine(q: Quality): string {
    "\U{2022} This is a " + QualityNote(q) + "\n"
  }

  /** The report line naming the orientation. */
  function OrientationLine(o: Orientation): string {
    "\U{2022} Image has " + OrientationNote(o) + "\n"
  }

  /** The closing paragraphs, which do not depend on the image. */
  const Closing :=
    "\n"
    + "\U{1F4DD} Basic Description:\n"
    + "This image contains visual content suitable for detailed AI analysis. "
    + "The technical properties indicate it's ready for advanced computer vision processing.\n"
    + "\n"
    + "\U{1F4A1} For full AI-powered analysis with object recognition, scene understanding, "
    + "and detailed descriptions, ensure your OpenAI API key is properly configured."

  /** The pieces of the report template, in order. The two float renderings
      (the size in KB with one decimal, the aspect ratio with two) are
      supplied by the caller. */
  function ReportPieces(r: Report, kilobytes: nat -> string, ratio: (nat, nat) -> string): seq<string> {
    [ TechnicalHeading,
      DimensionsLine(r.width, r.height),
      FormatLine(r.formatName, r.mode),
      "\U{2022} File Size: " + kilobytes(r.fileSize) + " KB\n",
      "\U{2022} " + r.colorInfo + "\n",
      "\n",
      "\U{1F5BC}\U{FE0F} Visual Assessment:\n",
      QualityLine(r.quality),
      OrientationLine(r.orientation),
      "\U{2022} Aspect ratio: " + ratio(r.width, r.height) + "\n",
      Closing ]
  }

  /** The report as text: it opens with the heading and states the
      dimensions, the format and mode, the file size, the colour note, the
      tier, the orientation and the aspect ratio. */
  function Render(r: Report, kilobytes: nat -> string, ratio: (nat, nat) -> string): (t: string)
    ensures StartsWith(t, TechnicalHeading)
    ensures Contains(t, DimensionsLine(r.width, r.height))
    ensures Contains(t, FormatLine(r.formatName, r.mode))
    ensures Contains(t, "\U{2022} File Size: " + kilobytes(r.fileSize) + " KB\n")
    ensures Contains(t, "\U{2022} " + r.colorInfo + "\n")
    ensures Contains(t, QualityLine(r.quality))
    ensures Contains(t, OrientationLine(r.orientation))
    ensures Contains(t, "\U{2022} Aspect ratio: " + ratio(r.width, r.height) + "\n")
  {
    var ps := ReportPieces(r, kilobytes, ratio);
    ConcatContains(ps, 1);
    ConcatContains(ps, 2);
    ConcatContains(ps, 3);
    ConcatContains(ps, 4);
    ConcatContains(ps, 7);
    ConcatContains(ps, 8);
    ConcatContains(ps, 9);
    Concat(ps)
  }

  /** The string the fallback hands back to the caller: the rendered report,
      or the failure message. */
  function ResultText(info: ImageInfo, kilobytes: nat -> string, ratio: (nat, nat) -> string): (t: string)
    ensures info.height == 0 ==> t == DivisionByZero
    ensures info.height > 0 ==>
      && Contains(t, DimensionsLine(info.width, info.height))
      && Contains(t, QualityLine(QualityOf(info.fileSize)))
      && Contains(t, OrientationLine(OrientationOf(info.width, info.height)))
  {
    var a := Analyze(info);
    if a.Failed? then a.message else Render(a.report, kilobytes, ratio)
  }
}
