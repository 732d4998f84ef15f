/** `src/utils.ts`: the Word document of a summary as a list of paragraphs, and
    the image and PDF exports of the rendered summary panel. */
module Utils {
  import opened Sermon
  import opened Strings
  import opened Docx
  import opened Dom

  const Font: string := "B Nazanin"
  const Bismillah: string := "بِسْمِ اللهِ الرَّحْمنِ الرَّحِیم"
  const Intro: string := "به گزارش معاونت ارتباطات و رسانه دفتر امام جمعه دهستان میانکاله (زاغمرز)، حجت الاسلام والمسلمین حاج حسین انزائی در خطبه‌های این هفته از نماز جمعه، ضمن سفارش به تقوا اظهار کرد:"
  const FirstPrefix: string := "خطبه اول: "
  const SecondPrefix: string := "خطبه دوم: "
  const TitleColor: string := "2563eb"
  const ImageError: string := "خطایی در تولید تصویر رخ داد. لطفاً مطمئن شوید تصویر پس‌زمینه به درستی بارگذاری شده است."
  const PdfError: string := "خطایی در تولید فایل PDF رخ داد. این مشکل معمولاً به دلیل ناسازگاری استایل‌های مدرن با خروجی PDF است. لطفاً از دکمه Word استفاده کنید یا متن را کپی کنید."
  const DefaultImageName: string := "Khutbah_Negasht.png"
  const PdfName: string := "Khutbah_Summary.pdf"

  /** A run in the document font. */
  function Nazanin(text: string, size: nat, bold: bool, color: Option<string>): Run {
    Run(text, Some(Font), Some(size), bold, color, false)
  }

  function Aligned(alignment: Alignment, spacing: Spacing, run: Run): Paragraph {
    Paragraph(Some(alignment), false, spacing, [run])
  }

  function HeadingParagraph(heading: string): Paragraph {
    Aligned(Right, Spacing(Some(100), None), Nazanin(heading, 28, true, None))
  }

  function ExplanationParagraph(explanation: string): Paragraph {
    Aligned(Right, NoSpacing, Nazanin(explanation, 28, false, None))
  }

  /** The `flatMap` over a khutbah's points: a heading and an explanation paragraph per point. */
  function PointParagraphs(points: seq<Point>): seq<Paragraph> {
    Flatten(seq(|points|, i requires 0 <= i < |points| =>
      [HeadingParagraph(points[i].heading), ExplanationParagraph(points[i].explanation)]))
  }

  /** `exportToWord(summary)`: the paragraphs of the document's one section. */
  function ExportToWord(summary: Record): seq<Paragraph> {
    [ Aligned(Center, NoSpacing, Nazanin(Bismillah, 28, true, None)),
      Aligned(Right, NoSpacing, Nazanin(Intro, 28, false, None)),
      Aligned(Center, Spacing(Some(400), Some(200)), Nazanin(summary.impactfulTitle, 32, true, Some(TitleColor))),
      Aligned(Right, Spacing(Some(200), None), Nazanin(FirstPrefix + summary.khutbah1.title, 28, true, None)) ]
    + PointParagraphs(summary.khutbah1.summary)
    + [ Aligned(Right, Spacing(Some(400), None), Nazanin(SecondPrefix + summary.khutbah2.title, 28, true, None)) ]
    + PointParagraphs(summary.khutbah2.summary)
    + [ Aligned(Right, Spacing(Some(400), None), Nazanin(summary.overall.title, 28, true, None)),
        Aligned(Right, NoSpacing, Nazanin(summary.overall.text, 28, false, None)) ]
  }

  /** Point `i` becomes paragraphs `2i` (bold heading) and `2i + 1` (plain explanation). */
  lemma PointParagraphsLayout(points: seq<Point>)
    ensures |PointParagraphs(points)| == 2 * |points|
    ensures forall i :: 0 <= i < |points| ==>
      PointParagraphs(points)[2 * i] == HeadingParagraph(points[i].heading) &&
      PointParagraphs(points)[2 * i + 1] == ExplanationParagraph(points[i].explanation)
  {
    FlattenPairs(seq(|points|, i requires 0 <= i < |points| =>
      [HeadingParagraph(points[i].heading), ExplanationParagraph(points[i].explanation)]));
  }

  /** The paragraph order of a document for `summary`: bismillah, introduction,
      title, first heading, the first khutbah's point pairs, second heading, the
      second khutbah's point pairs, overall title and overall text; `7 + 2N + 2M`
      paragraphs in all. */
  ghost predicate LaidOut(doc: seq<Paragraph>, summary: Record) {
    var n, m := |summary.khutbah1.summary|, |summary.khutbah2.summary|;
    && |doc| == 7 + 2 * n + 2 * m
    && doc[0] == Aligned(Center, NoSpacing, Nazanin(Bismillah, 28, true, None))
    && doc[1] == Aligned(Right, NoSpacing, Nazanin(Intro, 28, false, None))
    && doc[2] == Aligned(Center, Spacing(Some(400), Some(200)),
                         Nazanin(summary.impactfulTitle, 32, true, Some(TitleColor)))
    && doc[3] == Aligned(Right, Spacing(Some(200), None), Nazanin(FirstPrefix + summary.khutbah1.title, 28, true, None))
    && (forall i :: 0 <= i < n ==>
          doc[4 + 2 * i] == HeadingParagraph(summary.khutbah1.summary[i].heading) &&
          doc[5 + 2 * i] == ExplanationParagraph(summary.khutbah1.summary[i].explanation))
    && doc[4 + 2 * n] == Aligned(Right, Spacing(Some(400), None),
                                 Nazanin(SecondPrefix + summary.khutbah2.title, 28, true, None))
    && (forall j :: 0 <= j < m ==>
          doc[5 + 2 * n + 2 * j] == HeadingParagraph(summary.khutbah2.summary[j].heading) &&
          doc[6 + 2 * n + 2 * j] == ExplanationParagraph(summary.khutbah2.summary[j].explanation))
    && doc[5 + 2 * n + 2 * m] == Aligned(Right, Spacing(Some(400), None), Nazanin(summary.overall.title, 28, true, None))
    && doc[6 + 2 * n + 2 * m] == Aligned(Right, NoSpacing, Nazanin(summary.overall.text, 28, false, None))
  }

  lemma ExportToWordLayout(summary: Record)
    ensures LaidOut(ExportToWord(summary), summary)
  {
    PairedLayout(Aligned(Center, NoSpacing, Nazanin(Bismillah, 28, true, None)),
                 Aligned(Right, NoSpacing, Nazanin(Intro, 28, false, None)),
                 Aligned(Center, Spacing(Some(400), Some(200)), Nazanin(summary.impactfulTitle, 32, true, Some(TitleColor))),
                 Aligned(Right, Spacing(Some(200), None), Nazanin(FirstPrefix + summary.khutbah1.title, 28, true, None)),
                 summary.khutbah1.summary,
                 Aligned(Right, Spacing(Some(400), None), Nazanin(SecondPrefix + summary.khutbah2.title, 28, true, None)),
                 summary.khutbah2.summary,
                 Aligned(Right, Spacing(Some(400), None), Nazanin(summary.overall.title, 28, true, None)),
                 Aligned(Right, NoSpacing, Nazanin(summary.overall.text, 28, false, None)));
  }

  /** Where the paragraphs of a document shaped like `ExportToWord`'s sit. */
  lemma PairedLayout(h0: Paragraph, h1: Paragraph, h2: Paragraph, h3: Paragraph, k1: seq<Point>,
                     s: Paragraph, k2: seq<Point>, t0: Paragraph, t1: Paragraph)
    ensures var n, m := |k1|, |k2|;
      var doc := [h0, h1, h2, h3] + PointParagraphs(k1) + [s] + PointParagraphs(k2) + [t0, t1];
      && |doc| == 7 + 2 * n + 2 * m
      && doc[0] == h0 && doc[1] == h1 && doc[2] == h2 && doc[3] == h3
      && (forall i :: 0 <= i < n ==>
            doc[4 + 2 * i] == HeadingParagraph(k1[i].heading) && doc[5 + 2 * i] == ExplanationParagraph(k1[i].explanation))
      && doc[4 + 2 * n] == s
      && (forall j :: 0 <= j < m ==>
            doc[5 + 2 * n + 2 * j] == HeadingParagraph(k2[j].heading) &&
            doc[6 + 2 * n + 2 * j] == ExplanationParagraph(k2[j].explanation))
      && doc[5 + 2 * n + 2 * m] == t0 && doc[6 + 2 * n + 2 * m] == t1
  {
    var n, m := |k1|, |k2|;
    var p1, p2 := PointParagraphs(k1), PointParagraphs(k2);
    PointParagraphsLayout(k1);
    PointParagraphsLayout(k2);
    var a := [h0, h1, h2, h3] + p1;
    var b := a + [s] + p2;
    var doc := b + [t0, t1];
    assert |a| == 4 + 2 * n && |b| == 5 + 2 * n + 2 * m;
    forall i | 0 <= i < n
      ensures doc[4 + 2 * i] == HeadingParagraph(k1[i].heading)
      ensures doc[5 + 2 * i] == ExplanationParagraph(k1[i].explanation)
    {
      assert doc[4 + 2 * i] == a[4 + 2 * i] == p1[2 * i];
      assert doc[5 + 2 * i] == a[5 + 2 * i] == p1[2 * i + 1];
    }
    forall j | 0 <= j < m
      ensures doc[5 + 2 * n + 2 * j] == HeadingParagraph(k2[j].heading)
      ensures doc[6 + 2 * n + 2 * j] == ExplanationParagraph(k2[j].explanation)
    {
      assert doc[5 + 2 * n + 2 * j] == b[5 + 2 * n + 2 * j] == p2[2 * j];
      assert doc[6 + 2 * n + 2 * j] == b[6 + 2 * n + 2 * j] == p2[2 * j + 1];
    }
    assert doc[4 + 2 * n] == b[4 + 2 * n];
  }

  /** The paragraphs whose run is not bold: the introduction, every explanation and the overall text. */
  predicate PlainIndex(i: int, n: nat, m: nat) {
    || i == 1
    || (4 <= i < 4 + 2 * n && (i - 4) % 2 == 1)
    || (5 + 2 * n <= i < 5 + 2 * n + 2 * m && (i - 5 - 2 * n) % 2 == 1)
    || i == 6 + 2 * n + 2 * m
  }

  /** Every paragraph is one run in "B Nazanin", not bidirectional; only the
      bismillah and the title are centred, the rest right-aligned; only the title
      is size 32 and coloured, every other run is size 28; the runs are bold
      except the introduction, the explanations and the overall text. */
  ghost predicate Formatted(doc: seq<Paragraph>, n: nat, m: nat) {
    forall i :: 0 <= i < |doc| ==>
      && |doc[i].runs| == 1
      && doc[i].runs[0].font == Some(Font)
      && !doc[i].bidirectional && !doc[i].runs[0].rightToLeft
      && doc[i].alignment == Some(if i == 0 || i == 2 then Center else Right)
      && doc[i].runs[0].size == Some(if i == 2 then 32 else 28)
      && doc[i].runs[0].color == (if i == 2 then Some(TitleColor) else None)
      && (doc[i].runs[0].bold <==> !PlainIndex(i, n, m))
  }

  lemma ExportToWordFormat(summary: Record)
    ensures Formatted(ExportToWord(summary), |summary.khutbah1.summary|, |summary.khutbah2.summary|)
  {
    ExportToWordLayout(summary);
    LaidOutFormatted(ExportToWord(summary), summary);
  }

  lemma LaidOutFormatted(doc: seq<Paragraph>, summary: Record)
    requires LaidOut(doc, summary)
    ensures Formatted(doc, |summary.khutbah1.summary|, |summary.khutbah2.summary|)
  {
    var n, m := |summary.khutbah1.summary|, |summary.khutbah2.summary|;
    forall i | 0 <= i < |doc|
      ensures && |doc[i].runs| == 1
              && doc[i].runs[0].font == Some(Font)
              && !doc[i].bidirectional && !doc[i].runs[0].rightToLeft
              && doc[i].alignment == Some(if i == 0 || i == 2 then Center else Right)
              && doc[i].runs[0].size == Some(if i == 2 then 32 else 28)
              && doc[i].runs[0].color == (if i == 2 then Some(TitleColor) else None)
              && (doc[i].runs[0].bold <==> !PlainIndex(i, n, m))
    {
      if i < 4 {
        if i == 0 {} else if i == 1 {} else if i == 2 {} else {}
      } else if i < 4 + 2 * n {
        var k := (i - 4) / 2;
        if i == 4 + 2 * k {
          assert doc[4 + 2 * k] == HeadingParagraph(summary.khutbah1.summary[k].heading);
        } else {
          assert doc[5 + 2 * k] == ExplanationParagraph(summary.khutbah1.summary[k].explanation);
        }
      } else if i == 4 + 2 * n {
      } else if i < 5 + 2 * n + 2 * m {
        var k := (i - 5 - 2 * n) / 2;
        if i == 5 + 2 * n + 2 * k {
          assert doc[5 + 2 * n + 2 * k] == HeadingParagraph(summary.khutbah2.summary[k].heading);
        } else {
          assert doc[6 + 2 * n + 2 * k] == ExplanationParagraph(summary.khutbah2.summary[k].explanation);
        }
      } else if i == 5 + 2 * n + 2 * m {
      } else {
      }
    }
  }

  /** The text of a paragraph's first run. */
  function TextOf(p: Paragraph): string { if |p.runs| > 0 then p.runs[0].text else "" }

  /** `s` without `prefix` at its front, when it has it. */
  function DropPrefix(prefix: string, s: string): (r: string)
    ensures prefix <= s ==> s == prefix + r
  {
    if prefix <= s then s[|prefix|..] else s
  }

  /** Reads the points back from heading/explanation paragraph pairs. */
  function PointsOf(paras: seq<Paragraph>): seq<Point> {
    seq(|paras| / 2, i requires 0 <= i < |paras| / 2 => Point(TextOf(paras[2 * i]), TextOf(paras[2 * i + 1])))
  }

  /** The summary with the poster quotes dropped: what the document records. */
  function WithoutQuotes(summary: Record): Record {
    summary.(khutbah1 := summary.khutbah1.(quote := None), khutbah2 := summary.khutbah2.(quote := None))
  }

  /** Reads a summary back from a document with `n` points in its first khutbah. */
  function ReadBack(doc: seq<Paragraph>, n: nat): Record
    requires |doc| >= 7 + 2 * n
  {
    Record(TextOf(doc[2]),
           Khutbah(DropPrefix(FirstPrefix, TextOf(doc[3])), PointsOf(doc[4..4 + 2 * n]), None),
           Khutbah(DropPrefix(SecondPrefix, TextOf(doc[4 + 2 * n])), PointsOf(doc[5 + 2 * n..|doc| - 2]), None),
           Overall(TextOf(doc[|doc| - 2]), TextOf(doc[|doc| - 1])))
  }

  /** The document loses nothing but the quotes: every title, heading,
      explanation and the overall summary reads back, points in order. */
  lemma ExportToWordReadBack(summary: Record)
    ensures |ExportToWord(summary)| >= 7 + 2 * |summary.khutbah1.summary|
    ensures ReadBack(ExportToWord(summary), |summary.khutbah1.summary|) == WithoutQuotes(summary)
  {
    ExportToWordLayout(summary);
    LaidOutReadBack(ExportToWord(summary), summary);
  }

  lemma LaidOutReadBack(doc: seq<Paragraph>, summary: Record)
    requires LaidOut(doc, summary)
    ensures |doc| >= 7 + 2 * |summary.khutbah1.summary|
    ensures ReadBack(doc, |summary.khutbah1.summary|) == WithoutQuotes(summary)
  {
    var n, m := |summary.khutbah1.summary|, |summary.khutbah2.summary|;
    assert (FirstPrefix + summary.khutbah1.title)[|FirstPrefix|..] == summary.khutbah1.title;
    assert (SecondPrefix + summary.khutbah2.title)[|SecondPrefix|..] == summary.khutbah2.title;
    ReadPoints(doc, 4, summary.khutbah1.summary);
    assert doc[5 + 2 * n..|doc| - 2] == doc[5 + 2 * n..5 + 2 * n + 2 * m];
    ReadPoints(doc, 5 + 2 * n, summary.khutbah2.summary);
  }

  /** Pairs of point paragraphs starting at `off` read back as the points. */
  lemma ReadPoints(doc: seq<Paragraph>, off: nat, points: seq<Point>)
    requires off + 2 * |points| <= |doc|
    requires forall i :: 0 <= i < |points| ==>
      doc[off + 2 * i] == HeadingParagraph(points[i].heading) &&
      doc[off + 2 * i + 1] == ExplanationParagraph(points[i].explanation)
    ensures PointsOf(doc[off..off + 2 * |points|]) == points
  {
    var pairs := doc[off..off + 2 * |points|];
    forall i | 0 <= i < |points| ensures PointsOf(pairs)[i] == points[i] {
      assert pairs[2 * i] == doc[off + 2 * i] && pairs[2 * i + 1] == doc[off + 2 * i + 1];
    }
  }

  /** `exportToImage(elementId, fileName)`, given what `getElementById` found:
      nothing happens without an element; otherwise the element is rasterised and
      offered for download under `fileName`, or, when that throws, the user is
      told so. */
  method ExportToImage(page: Page, element: Element?, capture: Attempt, fileName: string := DefaultImageName)
    modifies page
    ensures element == null ==> unchanged(page)
    ensures page.body == old(page.body) && page.clipboard == old(page.clipboard)
    ensures element != null ==> page.shots == old(page.shots) + [Shot(element, element in old(page.body), [])]
    ensures element != null && capture == Succeeds ==>
              page.downloads == old(page.downloads) + [fileName] && page.alerts == old(page.alerts)
    ensures element != null && capture.Throws? ==>
              page.alerts == old(page.alerts) + [ImageError] && page.downloads == old(page.downloads)
  {
    if element == null { return; }
    var ok := page.Capture(element, [], capture);
    if ok {
      page.Download(fileName);
    } else {
      page.Alert(ImageError);
    }
  }

  /** `exportToPDF(elementId)`, given the element found and its `.export-buttons`
      descendant (or null): the buttons are hidden while the element is
      rasterised, the PDF is saved or the failure alerted, and in every case the
      buttons' `display` is put back as it was. */
  method ExportToPdf(page: Page, element: Element?, buttons: Element?, capture: Attempt)
    modifies page, buttons
    ensures element == null ==> unchanged(page) && (buttons != null ==> unchanged(buttons))
    ensures buttons != null ==> buttons.style == old(buttons.style)
    ensures page.body == old(page.body) && page.clipboard == old(page.clipboard)
    ensures element != null ==>
              page.shots == old(page.shots) + [Shot(element, element in old(page.body),
                if buttons != null then [SetStyle(old(buttons.style), Display, "none")] else [])]
    ensures element != null && capture == Succeeds ==>
              page.downloads == old(page.downloads) + [PdfName] && page.alerts == old(page.alerts)
    ensures element != null && capture.Throws? ==>
              page.alerts == old(page.alerts) + [PdfError] && page.downloads == old(page.downloads)
  {
    if element == null { return; }
    var originalDisplay := if buttons != null then StyleOf(buttons.style, Display) else "";
    ghost var original := if buttons != null then buttons.style else map[];
    if buttons != null {
      buttons.style := SetStyle(buttons.style, Display, "none");
    }
    var ok := page.Capture(element, if buttons != null then [buttons.style] else [], capture);
    if ok {
      page.Download(PdfName);
    } else {
      page.Alert(PdfError);
    }
    if buttons != null {
      buttons.style := SetStyle(buttons.style, Display, originalDisplay);
      RestoreStyle(original, Display, "none");
    }
  }

  /** Setting a property and then setting it back to its earlier value restores the declaration. */
  lemma RestoreStyle(style: Style, name: Prop, value: string)
    ensures SetStyle(SetStyle(style, name, value), name, StyleOf(style, name)) == style
  {
    var r := SetStyle(SetStyle(style, name, value), name, StyleOf(style, name));
    assert forall n :: n in r <==> n in style;
  }
}
