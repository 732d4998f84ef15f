/** `public/assets/js/export.js`: the static page's exporters. A Word file
    written as HTML that is passed whole through `toPersianDigits`, a PDF of a
    moved-off-screen clone of the output, and the poster (خطبه نگاشت) drawn on
    a canvas over a background image. */
module ExportJs {
  import opened Strings
  import opened Sermon
  import opened PersianDigits
  import opened Dom
  import opened WordWrap

  const WordFileName: string := "گزارش_خطبه.doc"
  const PdfFileName: string := "خلاصه_خطبه.pdf"
  const NoQuoteMessage: string := "متن نقل قول یافت نشد."
  const TitleText: string := "امام جمعه محترم دهستان میانکاله(زاغمرز) حجت الاسلام والمسلمین حاج حسین انزائی:"
  const DataUrlError: string := "خطا در تولید تصویر! لطفاً از مرورگر دیگری استفاده کنید."
  const LoadError: string := "خطا در بارگذاری تصویر پس‌زمینه از گیت‌هاب."
  const PosterPrefix: string := "خطبه_نگاشت_"

  // ---------------------------------------------------------------------------
  // exportToWord

  /** The fixed start of the Word HTML: the namespaces, the meta charset, the
      title, the stylesheet and the bismillah paragraph. */
  const HeadMarkup: string :=
    "\n" + "    <html xmlns:o='urn:schemas-microsoft-com:office:office' xmlns:w='urn:schemas-microsoft-com:office:word' xmlns='http://www.w3.org/TR/REC-html40'>" + "\n"
    + "    <head><meta charset='utf-8'><title>گزارش خطبه</title>" + "\n"
    + "        <style>" + "\n"
    + "            body { font-family: 'B Nazanin', Arial, sans-serif; font-size: 14pt; direction: rtl; text-align: right; }" + "\n"
    + "            .bismillah { text-align: center; margin-bottom: 10pt; font-size: 14pt; }" + "\n"
    + "            .main-title { font-size: 16pt; font-weight: bold; text-align: center; }" + "\n"
    + "            .section-title { font-weight: bold; margin-top: 15pt; font-size: 14pt; color: #333; }" + "\n"
    + "        </style>" + "\n"
    + "    </head>" + "\n"
    + "    <body>" + "\n"
    + "        <p class=\"bismillah\">بِسْمِ اللهِ الرَّحْمنِ الرَّحِیم</p>" + "\n"

  /** The first template: the fixed markup, the title in guillemets, the intro
      text and the first khutbah's section title. */
  function Head(r: Record, introText: string): string {
    HeadMarkup
    + "        <p class=\"main-title\">«" + r.impactfulTitle + "»</p>" + "\n"
    + "        <p>" + introText + "</p>" + "\n"
    + "        <p class=\"section-title\">🔸 خطبه اول: " + r.khutbah1.title + "</p>" + "\n    "
  }

  /** The paragraph of point number `n`: the number, the heading in bold, a
      line break and the explanation. */
  function PointHtml(n: nat, p: Point): string {
    "<p>" + NatToString(n) + ". <b>" + p.heading + "</b><br>" + p.explanation + "</p>"
  }

  /** One paragraph per point, numbered from 1 in order. */
  function PointLines(points: seq<Point>): (lines: seq<string>)
    ensures |lines| == |points|
  {
    seq(|points|, i requires 0 <= i < |points| => PointHtml(i + 1, points[i]))
  }

  function SecondSection(r: Record): string {
    "<p class=\"section-title\">🔹 خطبه دوم: " + r.khutbah2.title + "</p>"
  }

  function Tail(r: Record): string {
    "<p class=\"section-title\">📌 " + r.overall.title + "</p><p>" + r.overall.text + "</p></body></html>"
  }

  /** `wordHTML` before the final conversion. */
  function RawHtml(r: Record, introText: string): string {
    Head(r, introText) + Concat(PointLines(r.khutbah1.summary)) + SecondSection(r)
    + Concat(PointLines(r.khutbah2.summary)) + Tail(r)
  }

  /** The text written to the `.doc` file: the whole HTML, markup and
      stylesheet included, through `toPersianDigits`. */
  function WordHtml(r: Record, introText: string): (html: string)
    ensures NoAsciiDigit(html)
  {
    ToPersianDigits(RawHtml(r, introText))
  }

  /** A point's paragraph after the conversion: its number in Persian digits,
      and heading and explanation with their digits converted. */
  function ConvertedPoint(n: nat, p: Point): string {
    "<p>" + PersianNumeral(n) + ". <b>" + ToPersianDigits(p.heading) + "</b><br>"
    + ToPersianDigits(p.explanation) + "</p>"
  }

  function ConvertedLines(points: seq<Point>): (lines: seq<string>)
    ensures |lines| == |points|
  {
    seq(|points|, i requires 0 <= i < |points| => ConvertedPoint(i + 1, points[i]))
  }

  /** The Word file, piece by piece: the converted templates around one
      paragraph per point of each khutbah, in order, numbered `index + 1` in
      Persian digits. */
  lemma WordHtmlParts(r: Record, introText: string)
    ensures WordHtml(r, introText) ==
      ToPersianDigits(Head(r, introText)) + Concat(ConvertedLines(r.khutbah1.summary))
      + ToPersianDigits(SecondSection(r)) + Concat(ConvertedLines(r.khutbah2.summary))
      + ToPersianDigits(Tail(r))
  {
    var h, p1, s, p2, t := Head(r, introText), Concat(PointLines(r.khutbah1.summary)), SecondSection(r),
      Concat(PointLines(r.khutbah2.summary)), Tail(r);
    Distributes(h + p1 + s + p2, t);
    Distributes(h + p1 + s, p2);
    Distributes(h + p1, s);
    Distributes(h, p1);
    ConvertedPoints(r.khutbah1.summary);
    ConvertedPoints(r.khutbah2.summary);
  }

  /** Converting the points' paragraphs converts each one. */
  lemma {:induction false} ConvertedPoints(points: seq<Point>)
    ensures ToPersianDigits(Concat(PointLines(points))) == Concat(ConvertedLines(points))
    decreases |points|
  {
    if |points| > 0 {
      var n := |points| - 1;
      var init := points[..n];
      ConvertedPoints(init);
      assert PointLines(points)[..n] == PointLines(init);
      assert ConvertedLines(points)[..n] == ConvertedLines(init);
      Distributes(Concat(PointLines(init)), PointHtml(n + 1, points[n]));
      ConvertPoint(n + 1, points[n]);
    }
  }

  lemma ConvertPoint(n: nat, p: Point)
    ensures ToPersianDigits(PointHtml(n, p)) == ConvertedPoint(n, p)
  {
    ConvertBetween("<p>", NatToString(n), ". <b>", p.heading, "</b><br>", p.explanation, "</p>");
  }

  /** Converting text pieces set in digit-free markup converts the pieces and
      keeps the markup. */
  lemma ConvertBetween(a: string, b: string, c: string, d: string, e: string, f: string, g: string)
    requires NoAsciiDigit(a) && NoAsciiDigit(c) && NoAsciiDigit(e) && NoAsciiDigit(g)
    ensures ToPersianDigits(a + b + c + d + e + f + g) ==
      a + ToPersianDigits(b) + c + ToPersianDigits(d) + e + ToPersianDigits(f) + g
  {
    Distributes(a + b + c + d + e + f, g);
    Distributes(a + b + c + d + e, f);
    Distributes(a + b + c + d, e);
    Distributes(a + b + c, d);
    Distributes(a + b, c);
    Distributes(a, b);
    DigitFree(a);
    DigitFree(c);
    DigitFree(e);
    DigitFree(g);
  }

  /** The points' numbers read back as 1, 2, ... in order. */
  lemma PointNumbers(points: seq<Point>, i: nat)
    requires i < |points|
    ensures ConvertedLines(points)[i] ==
      "<p>" + PersianNumeral(i + 1) + ". <b>" + ToPersianDigits(points[i].heading) + "</b><br>"
      + ToPersianDigits(points[i].explanation) + "</p>"
    ensures NumeralValue(FromPersianDigits(PersianNumeral(i + 1))) == i + 1
  {
    PersianNumeralValue(i + 1);
  }

  /** `exportToWord(reportData, introText)`: nothing without a report;
      otherwise the HTML is built with one `+=` per point, converted to Persian
      digits as a whole and offered as a `.doc` download. */
  method ExportToWord(page: Page, reportData: Option<Record>, introText: string) returns (wordHtml: string)
    modifies page`body, page`downloads
    ensures reportData.None? ==> wordHtml == "" && page.downloads == old(page.downloads)
    ensures reportData.Some? ==>
      wordHtml == WordHtml(reportData.value, introText) && page.downloads == old(page.downloads) + [WordFileName]
    ensures page.body == old(page.body)
  {
    if reportData.None? {
      return "";
    }
    wordHtml := ExportReport(page, reportData.value, introText);
  }

  /** The report's `.doc` file, built and offered for download. A download
      records only the file name, so that step comes first here; the file's
      content is `wordHtml`. */
  method ExportReport(page: Page, r: Record, introText: string) returns (wordHtml: string)
    modifies page`body, page`downloads
    ensures wordHtml == WordHtml(r, introText)
    ensures page.body == old(page.body) && page.downloads == old(page.downloads) + [WordFileName]
  {
    page.ClickDownload(WordFileName);
    wordHtml := BuildWordHtml(r, introText);
  }

  /** The HTML built step by step, then `wordHTML = toPersianDigits(wordHTML)`. */
  method BuildWordHtml(r: Record, introText: string) returns (wordHtml: string)
    ensures wordHtml == WordHtml(r, introText)
  {
    wordHtml := BuildRawHtml(r, introText);
    wordHtml := ToPersianDigits(wordHtml);
  }

  /** The `let wordHTML = ...` and `+=` steps, before the conversion. */
  method BuildRawHtml(r: Record, introText: string) returns (wordHtml: string)
    ensures wordHtml == RawHtml(r, introText)
  {
    wordHtml := Head(r, introText);
    wordHtml := AppendPoints(wordHtml, r.khutbah1.summary);
    wordHtml := wordHtml + SecondSection(r);
    wordHtml := AppendPoints(wordHtml, r.khutbah2.summary);
    wordHtml := wordHtml + Tail(r);
  }

  /** `summary.forEach((item, index) => { wordHTML += ... })`. */
  method AppendPoints(html: string, points: seq<Point>) returns (wordHtml: string)
    ensures wordHtml == html + Concat(PointLines(points))
  {
    wordHtml := html;
    var i := 0;
    while i < |points|
      invariant 0 <= i <= |points|
      invariant wordHtml == html + Concat(PointLines(points[..i]))
    {
      AppendPointStep(html, points, i, wordHtml);
      wordHtml := wordHtml + PointHtml(i + 1, points[i]);
      i := i + 1;
    }
    assert points[..i] == points;
  }

  lemma AppendPointStep(html: string, points: seq<Point>, i: nat, wordHtml: string)
    requires i < |points|
    requires wordHtml == html + Concat(PointLines(points[..i]))
    ensures wordHtml + PointHtml(i + 1, points[i]) == html + Concat(PointLines(points[..i + 1]))
  {
    var before := PointLines(points[..i]);
    assert PointLines(points[..i + 1])[..i] == before;
    AppendAssoc(html, Concat(before), PointHtml(i + 1, points[i]));
  }

  // ---------------------------------------------------------------------------
  // exportToPDF

  /** `exportToPDF()`: the output element is cloned, the clone moved off
      screen and appended to the body, and handed to `html2pdf`. The clone is
      removed only in the `then` of the save, so when saving fails it stays
      in the body. */
  method ExportToPdf(page: Page, element: Element, save: Attempt) returns (clone: Element)
    modifies page`body, page`shots, page`downloads
    ensures fresh(clone) && clone.innerHtml == element.innerHtml && clone.descendants[..] == element.descendants[..]
    ensures clone.style == SetStyle(SetStyle(element.style, Position, "absolute"), Left, "-9999px")
    ensures page.shots == old(page.shots) + [Shot(clone, true, [clone.style] + element.descendants[..])]
    ensures save == Succeeds ==> page.body == old(page.body) && page.downloads == old(page.downloads) + [PdfFileName]
    ensures save.Throws? ==> page.body == old(page.body) + [clone] && page.downloads == old(page.downloads)
  {
    clone := element.CloneNode();
    clone.style := SetStyle(clone.style, Position, "absolute");
    clone.style := SetStyle(clone.style, Left, "-9999px");
    page.AppendChild(clone);
    var ok := page.Capture(clone, [clone.style] + clone.descendants[..], save);
    if ok {
      page.Download(PdfFileName);
      page.RemoveChild(clone);
      RemoveAppended(old(page.body), clone);
    }
  }

  // ---------------------------------------------------------------------------
  // generateInfographic

  /** `نماز جمعه ${today} دهستان ...`, with the formatted date as given. */
  function DateText(today: string): string {
    "نماز جمعه " + today + " دهستان میانکاله (زاغمرز)"
  }

  /** `خطبه_نگاشت_${Date.now()}.jpg`. */
  function PosterName(now: nat): string { PosterPrefix + NatToString(now) + ".jpg" }

  /** Exports at different `Date.now()` values download under different names,
      and at the same value under the same name. */
  lemma PosterNamesDistinct(a: nat, b: nat)
    ensures PosterName(a) == PosterName(b) <==> a == b
  {
    if PosterName(a) == PosterName(b) {
      var p := |PosterPrefix|;
      var sa, sb := NatToString(a), NatToString(b);
      assert PosterName(a) == PosterPrefix + sa + ".jpg";
      assert PosterName(a)[p..|PosterName(a)| - 4] == sa;
      assert PosterName(b)[p..|PosterName(b)| - 4] == sb;
      NatToStringValue(a);
      NatToStringValue(b);
    }
  }

  /** `generateInfographic(quoteText)`: with no quote it alerts and stops
      before loading anything. Otherwise, once the image has loaded, the canvas
      takes the image's size, the background, date, name and wrapped quote are
      drawn, and the canvas is exported as a JPEG download, or an alert is
      shown if that export throws; a failed load only alerts. */
  method GenerateInfographic(page: Page, canvas: Canvas, quoteText: Option<string>, load: ImageLoad,
                             layout: PosterLayout, today: string, now: nat, dataUrl: Attempt)
    modifies page`alerts, page`body, page`downloads, canvas
    ensures page.body == old(page.body)
    ensures !Truthy(quoteText) ==>
      page.alerts == old(page.alerts) + [NoQuoteMessage] && page.downloads == old(page.downloads) && unchanged(canvas)
    ensures Truthy(quoteText) && load.LoadFailed? ==>
      page.alerts == old(page.alerts) + [LoadError] && page.downloads == old(page.downloads) && unchanged(canvas)
    ensures Truthy(quoteText) && load.Loaded? ==>
      && canvas.width == load.width && canvas.height == load.height
      && canvas.log == Poster(ToPersianDigits(DateText(today)), TitleText, ToPersianDigits(quoteText.value),
                              layout, canvas.measure)
      && (dataUrl == Succeeds ==>
            page.downloads == old(page.downloads) + [PosterName(now)] && page.alerts == old(page.alerts))
      && (dataUrl.Throws? ==>
            page.downloads == old(page.downloads) && page.alerts == old(page.alerts) + [DataUrlError])
  {
    if !Truthy(quoteText) {
      page.Alert(NoQuoteMessage);
      return;
    }
    if load.LoadFailed? {
      page.Alert(LoadError);
      return;
    }
    DrawPoster(canvas, load, ToPersianDigits(DateText(today)), TitleText, ToPersianDigits(quoteText.value), layout);
    if dataUrl == Succeeds {
      page.ClickDownload(PosterName(now));
    } else {
      page.Alert(DataUrlError);
    }
  }
}
