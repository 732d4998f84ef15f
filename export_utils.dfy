/** `src/utils/exportUtils.ts`: the right-to-left Word document of a summary,
    built by pushing paragraphs onto a list, and the PDF export that rasterises
    a restyled copy of the rendered summary. */
module ExportUtils {
  import opened Sermon
  import opened Docx
  import opened Dom

  const Font: string := "B Nazanin"
  const Bismillah: string := "بِسْمِ اللهِ الرَّحْمنِ الرَّحِیم"
  const Intro: string := "به گزارش معاونت ارتباطات و رسانه دفتر امام جمعه دهستان میانکاله (زاغمرز)، حجت الاسلام والمسلمین حاج حسین انزائی در خطبه های این هفته از نماز جمعه، ضمن سفارش به تقوا اظهار کرد:"
  const FirstPrefix: string := "خطبه اول: "
  const SecondPrefix: string := "خطبه دوم: "
  const WordName: string := "khutbah_summary.docx"
  const PdfName: string := "khutbah_summary.pdf"
  const PdfError: string := "خطا در تولید فایل PDF"

  /** `createRTLParagraph(text, bold, size, color)`: one right-to-left run in
      the document font inside a right-aligned, bidirectional paragraph. */
  function RtlParagraph(text: string, bold: bool := false, size: nat := 28, color: string := "000000"): (p: Paragraph)
    ensures p.alignment == Some(Right) && p.bidirectional && p.spacing == NoSpacing
    ensures p.runs == [Run(text, Some(Font), Some(size), bold, Some(color), true)]
  {
    Paragraph(Some(Right), true, NoSpacing, [Run(text, Some(Font), Some(size), bold, Some(color), true)])
  }

  /** A paragraph made with only the text argument is plain, size 28 and black. */
  lemma RtlParagraphDefaults(text: string)
    ensures var p := RtlParagraph(text);
            !p.runs[0].bold && p.runs[0].size == Some(28) && p.runs[0].color == Some("000000")
  {
  }

  /** `new Paragraph({ text: "" })`. */
  const Empty: Paragraph := TextParagraph("")

  const BismillahParagraph: Paragraph :=
    Paragraph(Some(Center), true, NoSpacing, [Run(Bismillah, Some(Font), Some(28), true, None, true)])

  /** The one line of a point: `- heading: explanation`. */
  function PointLine(p: Point): string { "- " + p.heading + ": " + p.explanation }

  /** The paragraphs pushed for a khutbah's points, in order. */
  function PointParagraphs(points: seq<Point>): (ps: seq<Paragraph>)
    ensures |ps| == |points|
    ensures forall i :: 0 <= i < |points| ==> ps[i] == RtlParagraph(PointLine(points[i]))
    decreases |points|
  {
    if |points| == 0 then []
    else PointParagraphs(points[..|points| - 1]) + [RtlParagraph(PointLine(points[|points| - 1]))]
  }

  /** The seven paragraphs the list starts with. */
  function Opening(data: Record): seq<Paragraph> {
    [ BismillahParagraph, Empty, RtlParagraph(Intro, false, 28), Empty,
      RtlParagraph(data.impactfulTitle, true, 32, "1D4ED8"), Empty,
      RtlParagraph(FirstPrefix + data.khutbah1.title, true, 30, "2563EB") ]
  }

  function SecondHeading(data: Record): seq<Paragraph> {
    [Empty, RtlParagraph(SecondPrefix + data.khutbah2.title, true, 30, "059669")]
  }

  function Closing(data: Record): seq<Paragraph> {
    [Empty, RtlParagraph(data.overall.title, true, 30, "4F46E5"), RtlParagraph(data.overall.text, false, 28)]
  }

  /** The `children` of the document's one section. */
  function Children(data: Record): seq<Paragraph> {
    Opening(data) + PointParagraphs(data.khutbah1.summary) + SecondHeading(data)
    + PointParagraphs(data.khutbah2.summary) + Closing(data)
  }

  /** The indices of the empty separators: after the bismillah, the introduction
      and the title, and before the second heading and the overall heading. */
  predicate SeparatorIndex(i: int, n: nat, m: nat) {
    i == 1 || i == 3 || i == 5 || i == 7 + n || i == 9 + n + m
  }

  /** `N + M + 12` paragraphs: the opening seven, one per first-khutbah point,
      separator and second heading, one per second-khutbah point, separator,
      overall heading and overall text. Headings are bold size 30 in their
      colours, the title bold size 32, points plain size 28 black. */
  lemma ChildrenLayout(data: Record)
    ensures var doc := Children(data);
            var n, m := |data.khutbah1.summary|, |data.khutbah2.summary|;
            && |doc| == n + m + 12
            && doc[0] == BismillahParagraph
            && doc[2] == RtlParagraph(Intro)
            && doc[4] == RtlParagraph(data.impactfulTitle, true, 32, "1D4ED8")
            && doc[6] == RtlParagraph(FirstPrefix + data.khutbah1.title, true, 30, "2563EB")
            && (forall i :: 0 <= i < n ==> doc[7 + i] == RtlParagraph(PointLine(data.khutbah1.summary[i])))
            && doc[8 + n] == RtlParagraph(SecondPrefix + data.khutbah2.title, true, 30, "059669")
            && (forall j :: 0 <= j < m ==> doc[9 + n + j] == RtlParagraph(PointLine(data.khutbah2.summary[j])))
            && doc[10 + n + m] == RtlParagraph(data.overall.title, true, 30, "4F46E5")
            && doc[11 + n + m] == RtlParagraph(data.overall.text)
  {
    var n, m := |data.khutbah1.summary|, |data.khutbah2.summary|;
    var p1, p2 := PointParagraphs(data.khutbah1.summary), PointParagraphs(data.khutbah2.summary);
    assert Children(data) == Opening(data) + p1 + SecondHeading(data) + p2 + Closing(data);
  }

  /** The empty paragraphs are exactly the five separators. */
  lemma ChildrenSeparators(data: Record)
    ensures var doc := Children(data);
            forall i :: 0 <= i < |doc| ==>
              (doc[i] == Empty <==> SeparatorIndex(i, |data.khutbah1.summary|, |data.khutbah2.summary|))
  {
    var doc := Children(data);
    var n, m := |data.khutbah1.summary|, |data.khutbah2.summary|;
    var p1, p2 := PointParagraphs(data.khutbah1.summary), PointParagraphs(data.khutbah2.summary);
    assert doc == Opening(data) + p1 + SecondHeading(data) + p2 + Closing(data);
    forall i | 0 <= i < |doc| ensures doc[i] == Empty <==> SeparatorIndex(i, n, m) {
      if i < 7 {
        assert doc[i] == Opening(data)[i];
      } else if i < 7 + n {
        assert doc[i] == p1[i - 7];
      } else if i < 9 + n {
        assert doc[i] == SecondHeading(data)[i - 7 - n];
      } else if i < 9 + n + m {
        assert doc[i] == p2[i - 9 - n];
      } else {
        assert doc[i] == Closing(data)[i - 9 - n - m];
      }
    }
  }

  /** `exportToWord(data)`: pushes the paragraphs one by one, then offers the
      packed document for download. */
  method ExportToWord(page: Page, data: Record) returns (children: seq<Paragraph>)
    modifies page`downloads
    ensures children == Children(data)
    ensures page.downloads == old(page.downloads) + [WordName]
  {
    children := Opening(data);
    children := PushPoints(children, data.khutbah1.summary);
    children := children + [Empty];
    children := children + [RtlParagraph(SecondPrefix + data.khutbah2.title, true, 30, "059669")];
    children := PushPoints(children, data.khutbah2.summary);
    children := children + [Empty];
    children := children + [RtlParagraph(data.overall.title, true, 30, "4F46E5")];
    children := children + [RtlParagraph(data.overall.text, false, 28)];
    page.Download(WordName);
  }

  /** `summary.forEach(point => children.push(createRTLParagraph(`- ...`)))`. */
  method PushPoints(children0: seq<Paragraph>, points: seq<Point>) returns (children: seq<Paragraph>)
    ensures children == children0 + PointParagraphs(points)
  {
    children := children0;
    var i := 0;
    while i < |points|
      invariant 0 <= i <= |points|
      invariant children == children0 + PointParagraphs(points[..i])
    {
      assert points[..i + 1][..i] == points[..i];
      children := children + [RtlParagraph(PointLine(points[i]))];
      i := i + 1;
    }
    assert points[..i] == points;
  }

  /** The inline style set on the copy itself before it is attached. */
  function CloneStyle(style: Style): (r: Style)
    ensures StyleOf(r, Color) == "#000000" && StyleOf(r, Background) == "#ffffff"
    ensures StyleOf(r, Position) == "absolute" && StyleOf(r, Left) == "-9999px"
  {
    var s1 := SetStyle(style, Width, "800px");
    var s2 := SetStyle(s1, Padding, "40px");
    var s3 := SetStyle(s2, Background, "#ffffff");
    var s4 := SetStyle(s3, Color, "#000000");
    var s5 := SetStyle(s4, Direction, "rtl");
    var s6 := SetStyle(s5, FontFamily, "Tahoma, Arial, sans-serif");
    var s7 := SetStyle(s6, Position, "absolute");
    var r := SetStyle(s7, Left, "-9999px");
    assert StyleOf(r, Background) == "#ffffff" && StyleOf(r, Color) == "#000000" by {
      SetStyleOther(s3, Color, "#000000", Background);
      forall n | n == Background || n == Color
        ensures StyleOf(r, n) == StyleOf(s4, n)
      {
        SetStyleOther(s4, Direction, "rtl", n);
        SetStyleOther(s5, FontFamily, "Tahoma, Arial, sans-serif", n);
        SetStyleOther(s6, Position, "absolute", n);
        SetStyleOther(s7, Left, "-9999px", n);
      }
    }
    SetStyleOther(s7, Left, "-9999px", Position);
    r
  }

  /** The inline style every descendant of the copy gets: black text, a
      transparent background, grey borders and no shadows; all other properties
      are kept. */
  function Restyled(style: Style): (r: Style)
    ensures StyleOf(r, Color) == "#000000" && StyleOf(r, Background) == "transparent"
    ensures StyleOf(r, BorderColor) == "#cccccc"
    ensures StyleOf(r, TextShadow) == "none" && StyleOf(r, BoxShadow) == "none"
  {
    var s1 := SetStyle(style, Color, "#000000");
    var s2 := SetStyle(s1, Background, "transparent");
    var s3 := SetStyle(s2, BorderColor, "#cccccc");
    var s4 := SetStyle(s3, TextShadow, "none");
    var r := SetStyle(s4, BoxShadow, "none");
    assert StyleOf(r, Color) == "#000000" by {
      SetStyleOther(s1, Background, "transparent", Color);
      SetStyleOther(s2, BorderColor, "#cccccc", Color);
      SetStyleOther(s3, TextShadow, "none", Color);
      SetStyleOther(s4, BoxShadow, "none", Color);
    }
    assert StyleOf(r, Background) == "transparent" by {
      SetStyleOther(s2, BorderColor, "#cccccc", Background);
      SetStyleOther(s3, TextShadow, "none", Background);
      SetStyleOther(s4, BoxShadow, "none", Background);
    }
    assert StyleOf(r, BorderColor) == "#cccccc" by {
      SetStyleOther(s3, TextShadow, "none", BorderColor);
      SetStyleOther(s4, BoxShadow, "none", BorderColor);
    }
    assert StyleOf(r, TextShadow) == "none" by {
      SetStyleOther(s4, BoxShadow, "none", TextShadow);
    }
    r
  }

  /** The restyling keeps every property it does not name. */
  lemma RestyledKeepsOthers(style: Style, n: Prop)
    requires n !in {Color, Background, BorderColor, TextShadow, BoxShadow}
    ensures StyleOf(Restyled(style), n) == StyleOf(style, n)
  {
    var s1 := SetStyle(style, Color, "#000000");
    var s2 := SetStyle(s1, Background, "transparent");
    var s3 := SetStyle(s2, BorderColor, "#cccccc");
    var s4 := SetStyle(s3, TextShadow, "none");
    SetStyleOther(style, Color, "#000000", n);
    SetStyleOther(s1, Background, "transparent", n);
    SetStyleOther(s2, BorderColor, "#cccccc", n);
    SetStyleOther(s3, TextShadow, "none", n);
    SetStyleOther(s4, BoxShadow, "none", n);
  }

  /** `exportToPDF(elementId)`, given what `getElementById` found. Nothing
      happens without an element. Otherwise a deep copy is restyled, attached to
      the body, rasterised while attached and saved as a PDF (or the failure is
      alerted), and detached again in every case; the original element is not
      touched. `clone` is that copy, null when there was no element. */
  method ExportToPdf(page: Page, element: Element?, capture: Attempt) returns (clone: Element?)
    modifies page
    ensures element == null ==> clone == null && unchanged(page)
    ensures element != null ==> clone != null && fresh(clone) && clone !in old(page.body)
    ensures element != null ==> unchanged(element, element.descendants)
    ensures page.body == old(page.body) && page.clipboard == old(page.clipboard)
    ensures element != null ==>
              page.shots == old(page.shots) +
                [Shot(clone, true, [CloneStyle(element.style)] + RestyledAll(element.descendants[..]))]
    ensures element != null && capture == Succeeds ==>
              page.downloads == old(page.downloads) + [PdfName] && page.alerts == old(page.alerts)
    ensures element != null && capture.Throws? ==>
              page.alerts == old(page.alerts) + [PdfError] && page.downloads == old(page.downloads)
  {
    if element == null { return null; }
    var c := PrepareClone(element);
    var ok := page.CaptureAttached(c, [c.style] + c.descendants[..], capture);
    if ok {
      page.Download(PdfName);
    } else {
      page.Alert(PdfError);
    }
    clone := c;
  }

  /** The copy as it is attached: a deep clone of `element` whose own style
      and every descendant's style are overridden as the two functions above
      say. */
  method PrepareClone(element: Element) returns (c: Element)
    ensures fresh(c) && fresh(c.descendants)
    ensures c.style == CloneStyle(element.style)
    ensures c.descendants[..] == RestyledAll(element.descendants[..])
  {
    c := element.CloneNode();
    var style := c.style;
    style := SetStyle(style, Width, "800px");
    style := SetStyle(style, Padding, "40px");
    style := SetStyle(style, Background, "#ffffff");
    style := SetStyle(style, Color, "#000000");
    style := SetStyle(style, Direction, "rtl");
    style := SetStyle(style, FontFamily, "Tahoma, Arial, sans-serif");
    c.style := style;
    RestyleAll(c.descendants);
    style := SetStyle(style, Position, "absolute");
    style := SetStyle(style, Left, "-9999px");
    c.style := style;
  }

  /** The `forEach` over `querySelectorAll("*")`: restyles every descendant in place. */
  method RestyleAll(all: array<Style>)
    modifies all
    ensures all[..] == RestyledAll(old(all[..]))
  {
    for i := 0 to all.Length
      invariant forall j :: 0 <= j < i ==> all[j] == Restyled(old(all[j]))
      invariant forall j :: i <= j < all.Length ==> all[j] == old(all[j])
    {
      all[i] := Restyled(all[i]);
    }
  }

  /** The descendants' styles after the restyling loop. */
  function RestyledAll(styles: seq<Style>): (r: seq<Style>)
    ensures |r| == |styles| && forall j :: 0 <= j < |styles| ==> r[j] == Restyled(styles[j])
  {
    seq(|styles|, j requires 0 <= j < |styles| => Restyled(styles[j]))
  }
}
