/** `src/services/pdfExportService.ts`: the HTML of a summary, built fragment by
    fragment into a detached container that is rasterised to a PDF. */
module PdfExportService {
  import opened Sermon
  import opened Dom
  import opened Strings

  const Preamble: string := "بِسْمِ اللهِ الرَّحْمنِ الرَّحِیم<br/>به گزارش معاونت ارتباطات و رسانه دفتر امام جمعه دهستان میانکاله (زاغمرز)، حجت الاسلام والمسلمین حاج حسین انزائی در خطبههای این هفته از نماز جمعه، ضمن سفارش به تقوا اظهار کرد:"
  const FileName: string := "خلاصه_خطبه.pdf"
  const TitleStyle: string := "text-align: center; font-size: 24px; font-weight: bold; margin-bottom: 20px;"
  const PreambleStyle: string := "margin-bottom: 20px;"
  const HeadingStyle: string := "text-align: right; font-size: 20px; font-weight: bold; margin-top: 30px; margin-bottom: 15px;"
  const TextStyle: string := "margin-bottom: 10px;"

  datatype Tag = H1 | H2 | P

  function TagName(t: Tag): string {
    match t
    case H1 => "h1"
    case H2 => "h2"
    case P => "p"
  }

  /** A piece of the generated HTML: layout whitespace between elements, or one
      element with an inline style and its inner HTML, interpolated as is. */
  datatype Fragment = Layout(text: string) | Tagged(tag: Tag, style: string, inner: string)

  function Render(f: Fragment): string {
    match f
    case Layout(text) => text
    case Tagged(tag, style, inner) =>
      "<" + TagName(tag) + " style=\"" + style + "\">" + inner + "</" + TagName(tag) + ">"
  }

  function RenderAll(fs: seq<Fragment>): string
    decreases |fs|
  {
    if |fs| == 0 then "" else RenderAll(fs[..|fs| - 1]) + Render(fs[|fs| - 1])
  }

  /** The inner HTML of a point's paragraph: the heading in bold with a colon, then the explanation. */
  function PointInner(p: Point): string { "<strong>" + p.heading + ":</strong> " + p.explanation }

  function PointFragments(points: seq<Point>): (fs: seq<Fragment>)
    ensures |fs| == |points|
    ensures forall i :: 0 <= i < |points| ==> fs[i] == Tagged(P, TextStyle, PointInner(points[i]))
    decreases |points|
  {
    if |points| == 0 then []
    else PointFragments(points[..|points| - 1]) + [Tagged(P, TextStyle, PointInner(points[|points| - 1]))]
  }

  /** The first template: title, preamble and the first khutbah's title. */
  function Opening(summary: Record): seq<Fragment> {
    [Layout("\n    ")] + [Tagged(H1, TitleStyle, summary.impactfulTitle)]
    + [Layout("\n    ")] + [Tagged(P, PreambleStyle, Preamble)]
    + [Layout("\n    \n    ")] + [Tagged(H2, HeadingStyle, summary.khutbah1.title)] + [Layout("\n  ")]
  }

  /** The last template: the overall title and text. */
  function Closing(summary: Record): seq<Fragment> {
    [Layout("\n    ")] + [Tagged(H2, HeadingStyle, summary.overall.title)]
    + [Layout("\n    ")] + [Tagged(P, TextStyle, summary.overall.text)] + [Layout("\n  ")]
  }

  /** Every fragment of `htmlContent`, in order. */
  function Fragments(summary: Record): seq<Fragment> {
    Opening(summary) + PointFragments(summary.khutbah1.summary)
    + [Tagged(H2, HeadingStyle, summary.khutbah2.title)]
    + PointFragments(summary.khutbah2.summary) + Closing(summary)
  }

  /** The inner HTML of `f` when it is an element with tag `t`. */
  function InnerIf(f: Fragment, t: Tag): seq<string> {
    if f.Tagged? && f.tag == t then [f.inner] else []
  }

  /** The inner HTML of the elements with tag `t`, in document order. */
  function Inners(fs: seq<Fragment>, t: Tag): seq<string>
    decreases |fs|
  {
    if |fs| == 0 then [] else Inners(fs[..|fs| - 1], t) + InnerIf(fs[|fs| - 1], t)
  }

  lemma {:induction false} InnersAppend(a: seq<Fragment>, b: seq<Fragment>, t: Tag)
    ensures Inners(a + b, t) == Inners(a, t) + Inners(b, t)
    decreases |b|
  {
    if |b| == 0 {
      assert a + b == a;
    } else {
      var init, last := b[..|b| - 1], b[|b| - 1];
      assert a + b == (a + init) + [last];
      InnersAppend(a, init, t);
      InnersSnoc(a + init, last, t);
      AppendAssoc(Inners(a, t), Inners(init, t), InnerIf(last, t));
    }
  }

  /** The inner HTML of the points' paragraphs, in order. */
  function PointTexts(points: seq<Point>): (ts: seq<string>)
    ensures |ts| == |points|
    ensures forall i :: 0 <= i < |points| ==> ts[i] == PointInner(points[i])
    decreases |points|
  {
    if |points| == 0 then [] else PointTexts(points[..|points| - 1]) + [PointInner(points[|points| - 1])]
  }

  /** The points' fragments are paragraphs only, one per point. */
  lemma {:induction false} PointInners(points: seq<Point>, t: Tag)
    ensures Inners(PointFragments(points), t) == if t == P then PointTexts(points) else []
    decreases |points|
  {
    if |points| > 0 {
      var init := points[..|points| - 1];
      PointInners(init, t);
      InnersSnoc(PointFragments(init), Tagged(P, TextStyle, PointInner(points[|points| - 1])), t);
    }
  }

  /** One `h1` holding the title; three `h2` holding the two khutbah titles and
      the overall title; `N + M + 2` paragraphs: the preamble, one per point of
      each khutbah in order with the field text unescaped, and the overall text. */
  lemma FragmentsStructure(summary: Record)
    ensures Inners(Fragments(summary), H1) == [summary.impactfulTitle]
    ensures Inners(Fragments(summary), H2) == [summary.khutbah1.title, summary.khutbah2.title, summary.overall.title]
    ensures Inners(Fragments(summary), P) == [Preamble] + PointTexts(summary.khutbah1.summary)
              + PointTexts(summary.khutbah2.summary) + [summary.overall.text]
  {
    HeadingsH1(summary);
    HeadingsH2(summary);
    Paragraphs(summary);
  }

  lemma HeadingsH1(summary: Record)
    ensures Inners(Fragments(summary), H1) == [summary.impactfulTitle]
  {
    FragmentsOf(summary, H1);
    assert Inners(Opening(summary), H1) == [summary.impactfulTitle] by { OpeningInners(summary, H1); }
    assert Inners(Closing(summary), H1) == [] by { ClosingInners(summary, H1); }
    assert [summary.impactfulTitle] + [] + [] + [] + [] == [summary.impactfulTitle];
  }

  lemma HeadingsH2(summary: Record)
    ensures Inners(Fragments(summary), H2) == [summary.khutbah1.title, summary.khutbah2.title, summary.overall.title]
  {
    FragmentsOf(summary, H2);
    assert Inners(Opening(summary), H2) == [summary.khutbah1.title] by { OpeningInners(summary, H2); }
    assert Inners(Closing(summary), H2) == [summary.overall.title] by { ClosingInners(summary, H2); }
    assert [summary.khutbah1.title] + [] + [summary.khutbah2.title] + [] + [summary.overall.title]
      == [summary.khutbah1.title, summary.khutbah2.title, summary.overall.title];
  }

  lemma Paragraphs(summary: Record)
    ensures Inners(Fragments(summary), P) == [Preamble] + PointTexts(summary.khutbah1.summary)
              + PointTexts(summary.khutbah2.summary) + [summary.overall.text]
  {
    FragmentsOf(summary, P);
    OpeningInners(summary, P);
    ClosingInners(summary, P);
    DropEmpty(Inners(Fragments(summary), P), Inners(Opening(summary), P), PointTexts(summary.khutbah1.summary),
              PointTexts(summary.khutbah2.summary), Inners(Closing(summary), P));
  }

  /** An empty part between two others can be left out. */
  lemma DropEmpty(x: seq<string>, o: seq<string>, a: seq<string>, b: seq<string>, c: seq<string>)
    requires x == o + a + [] + b + c
    ensures x == o + a + b + c
  {
    assert a + [] == a;
  }

  /** The elements with tag `t`, from the elements of each part. */
  lemma FragmentsOf(summary: Record, t: Tag)
    ensures var k1, k2 := summary.khutbah1.summary, summary.khutbah2.summary;
      Inners(Fragments(summary), t) ==
        Inners(Opening(summary), t) + (if t == P then PointTexts(k1) else [])
        + (if t == H2 then [summary.khutbah2.title] else [])
        + (if t == P then PointTexts(k2) else []) + Inners(Closing(summary), t)
  {
    FragmentsParts(summary, t);
    PointInners(summary.khutbah1.summary, t);
    PointInners(summary.khutbah2.summary, t);
  }

  /** The elements of the fragment list, part by part. */
  lemma FragmentsParts(summary: Record, t: Tag)
    ensures Inners(Fragments(summary), t) ==
      Inners(Opening(summary), t) + Inners(PointFragments(summary.khutbah1.summary), t)
      + InnerIf(Tagged(H2, HeadingStyle, summary.khutbah2.title), t)
      + Inners(PointFragments(summary.khutbah2.summary), t) + Inners(Closing(summary), t)
  {
    var o, p1, h, p2, c := Opening(summary), PointFragments(summary.khutbah1.summary),
      Tagged(H2, HeadingStyle, summary.khutbah2.title), PointFragments(summary.khutbah2.summary), Closing(summary);
    InnersAppend(o, p1, t);
    InnersSnoc(o + p1, h, t);
    InnersAppend(o + p1 + [h], p2, t);
    InnersAppend(o + p1 + [h] + p2, c, t);
  }

  /** The elements of the first template. */
  lemma OpeningInners(summary: Record, t: Tag)
    ensures Inners(Opening(summary), t) ==
      match t
      case H1 => [summary.impactfulTitle]
      case H2 => [summary.khutbah1.title]
      case P => [Preamble]
  {
    var a, b, c, d := Layout("\n    "), Tagged(H1, TitleStyle, summary.impactfulTitle),
      Layout("\n    "), Tagged(P, PreambleStyle, Preamble);
    var e, f, g := Layout("\n    \n    "), Tagged(H2, HeadingStyle, summary.khutbah1.title), Layout("\n  ");
    InnersSnoc([a], b, t);
    InnersSnoc([a] + [b], c, t);
    InnersSnoc([a] + [b] + [c], d, t);
    InnersSnoc([a] + [b] + [c] + [d], e, t);
    InnersSnoc([a] + [b] + [c] + [d] + [e], f, t);
    InnersSnoc([a] + [b] + [c] + [d] + [e] + [f], g, t);
  }

  /** The elements of the last template. */
  lemma ClosingInners(summary: Record, t: Tag)
    ensures Inners(Closing(summary), t) ==
      match t
      case H1 => []
      case H2 => [summary.overall.title]
      case P => [summary.overall.text]
  {
    var a, b, c, d, e := Layout("\n    "), Tagged(H2, HeadingStyle, summary.overall.title),
      Layout("\n    "), Tagged(P, TextStyle, summary.overall.text), Layout("\n  ");
    InnersSnoc([a], b, t);
    InnersSnoc([a] + [b], c, t);
    InnersSnoc([a] + [b] + [c], d, t);
    InnersSnoc([a] + [b] + [c] + [d], e, t);
  }

  /** The inline style the container is given. */
  const ContainerStyle: Style := map[
    Position := "absolute", Left := "-9999px", Top := "0", Width := "800px", Padding := "40px",
    BackgroundColor := "#ffffff", Color := "#000000",
    FontFamily := "'B Nazanin', Tahoma, Arial, sans-serif", Direction := "rtl",
    TextAlign := "justify", LineHeight := "2", FontSize := "18px"]

  /** `generatePdfDocument(summary)`: a detached, off-screen container is
      styled and filled with the HTML of `Fragments(summary)`, attached to the
      body, rasterised and saved as a PDF, and detached again whether or not the
      capture throws; a capture error is passed on to the caller as `result`. */
  method GeneratePdfDocument(page: Page, summary: Record, capture: Attempt) returns (container: Element, result: Attempt)
    modifies page`body, page`shots, page`downloads
    ensures fresh(container)
    ensures container.style == ContainerStyle && container.innerHtml == RenderAll(Fragments(summary))
    ensures page.body == old(page.body)
    ensures page.shots == old(page.shots) + [Shot(container, true, [ContainerStyle])]
    ensures result == capture
    ensures capture == Succeeds ==> page.downloads == old(page.downloads) + [FileName]
    ensures capture.Throws? ==> page.downloads == old(page.downloads)
  {
    container := new Element(map[], []);
    container.style := SetStyle(container.style, Position, "absolute");
    container.style := SetStyle(container.style, Left, "-9999px");
    container.style := SetStyle(container.style, Top, "0");
    container.style := SetStyle(container.style, Width, "800px");
    container.style := SetStyle(container.style, Padding, "40px");
    container.style := SetStyle(container.style, BackgroundColor, "#ffffff");
    container.style := SetStyle(container.style, Color, "#000000");
    container.style := SetStyle(container.style, FontFamily, "'B Nazanin', Tahoma, Arial, sans-serif");
    container.style := SetStyle(container.style, Direction, "rtl");
    container.style := SetStyle(container.style, TextAlign, "justify");
    container.style := SetStyle(container.style, LineHeight, "2");
    container.style := SetStyle(container.style, FontSize, "18px");

    var htmlContent := BuildHtml(summary);
    container.innerHtml := htmlContent;
    var ok := page.CaptureAttached(container, [container.style], capture);
    if ok {
      page.Download(FileName);
    }
    result := capture;
  }

  /** The `htmlContent` string: the first template (the rendering of
      `Opening`), `+=` per point of the first khutbah, the second title, `+=` per
      point of the second, and the last template (the rendering of `Closing`). */
  method BuildHtml(summary: Record) returns (htmlContent: string)
    ensures htmlContent == RenderAll(Fragments(summary))
  {
    var opening := Opening(summary);
    var heading := Tagged(H2, HeadingStyle, summary.khutbah2.title);
    var p1, p2 := PointFragments(summary.khutbah1.summary), PointFragments(summary.khutbah2.summary);
    htmlContent := RenderAll(opening);
    htmlContent := AppendPoints(htmlContent, summary.khutbah1.summary);
    htmlContent := htmlContent + Render(heading);
    htmlContent := AppendPoints(htmlContent, summary.khutbah2.summary);
    htmlContent := htmlContent + RenderAll(Closing(summary));
    RenderAppend(opening, p1);
    RenderSnoc(opening + p1, heading);
    RenderAppend(opening + p1 + [heading], p2);
    RenderAppend(opening + p1 + [heading] + p2, Closing(summary));
  }

  /** One `htmlContent += ...` per point, in order. */
  method AppendPoints(html: string, points: seq<Point>) returns (htmlContent: string)
    ensures htmlContent == html + RenderAll(PointFragments(points))
  {
    htmlContent := html;
    var i := 0;
    while i < |points|
      invariant 0 <= i <= |points|
      invariant htmlContent == html + RenderAll(PointFragments(points[..i]))
    {
      AppendPointStep(html, points, i, htmlContent);
      htmlContent := htmlContent + Render(Tagged(P, TextStyle, PointInner(points[i])));
      i := i + 1;
    }
    assert points[..i] == points;
  }

  lemma AppendPointStep(html: string, points: seq<Point>, i: nat, htmlContent: string)
    requires i < |points|
    requires htmlContent == html + RenderAll(PointFragments(points[..i]))
    ensures htmlContent + Render(Tagged(P, TextStyle, PointInner(points[i]))) ==
            html + RenderAll(PointFragments(points[..i + 1]))
  {
    var f := Tagged(P, TextStyle, PointInner(points[i]));
    var before := PointFragments(points[..i]);
    PointFragmentsSnoc(points, i);
    RenderSnoc(before, f);
    AppendAssoc(html, RenderAll(before), Render(f));
  }

  lemma PointFragmentsSnoc(points: seq<Point>, i: nat)
    requires i < |points|
    ensures PointFragments(points[..i + 1]) == PointFragments(points[..i]) + [Tagged(P, TextStyle, PointInner(points[i]))]
  {
    assert points[..i + 1][..i] == points[..i];
  }

  lemma RenderSnoc(fs: seq<Fragment>, f: Fragment)
    ensures RenderAll(fs + [f]) == RenderAll(fs) + Render(f)
  {
    assert (fs + [f])[..|fs|] == fs;
  }

  lemma {:induction false} RenderAppend(a: seq<Fragment>, b: seq<Fragment>)
    ensures RenderAll(a + b) == RenderAll(a) + RenderAll(b)
    decreases |b|
  {
    if |b| == 0 {
      assert a + b == a;
    } else {
      var init, last := b[..|b| - 1], b[|b| - 1];
      assert a + b == (a + init) + [last];
      RenderAppend(a, init);
      RenderSnoc(a + init, last);
      AppendAssoc(RenderAll(a), RenderAll(init), Render(last));
    }
  }

  lemma InnersSnoc(fs: seq<Fragment>, f: Fragment, t: Tag)
    ensures Inners(fs + [f], t) == Inners(fs, t) + InnerIf(f, t)
  {
    assert (fs + [f])[..|fs|] == fs;
  }
}
