/** `src/services/wordExportService.ts`: the Word document of a summary as a
    list of right-to-left paragraphs, and its download. */
module WordExportService {
  import opened Sermon
  import opened Docx
  import opened Dom

  const Font: string := "B Nazanin"
  const Preamble: string := "بِسْمِ اللهِ الرَّحْمنِ الرَّحِیم\nبه گزارش معاونت ارتباطات و رسانه دفتر امام جمعه دهستان میانکاله (زاغمرز)، حجت الاسلام والمسلمین حاج حسین انزائی در خطبههای این هفته از نماز جمعه، ضمن سفارش به تقوا اظهار کرد:"
  const FileName: string := "خلاصه_خطبه.docx"
  const Separator: string := ": "

  /** A run in the document font, with no colour of its own. */
  function Nazanin(text: string, size: nat, bold: bool): Run {
    Run(text, Some(Font), Some(size), bold, None, false)
  }

  function TitleParagraph(title: string): Paragraph {
    Paragraph(Some(Center), true, NoSpacing, [Nazanin(title, 32, true)])
  }

  function PreambleParagraph(): Paragraph {
    Paragraph(Some(Justified), true, Spacing(Some(200), Some(200)), [Nazanin(Preamble, 28, false)])
  }

  /** The title of a khutbah or of the overall summary. */
  function SectionParagraph(title: string): Paragraph {
    Paragraph(Some(Right), true, Spacing(Some(200), Some(100)), [Nazanin(title, 30, true)])
  }

  /** One point: its heading and ": " in bold, then its explanation. */
  function PointParagraph(p: Point): Paragraph {
    Paragraph(Some(Justified), true, Spacing(None, Some(100)),
              [Nazanin(p.heading + Separator, 28, true), Nazanin(p.explanation, 28, false)])
  }

  function TextParagraph(text: string): Paragraph {
    Paragraph(Some(Justified), true, Spacing(None, Some(100)), [Nazanin(text, 28, false)])
  }

  /** The `map` over a khutbah's points. */
  function PointParagraphs(points: seq<Point>): (ps: seq<Paragraph>)
    ensures |ps| == |points|
    ensures forall i :: 0 <= i < |points| ==> ps[i] == PointParagraph(points[i])
  {
    seq(|points|, i requires 0 <= i < |points| => PointParagraph(points[i]))
  }

  /** The paragraphs `generateWordDocument(summary)` puts in its one section. */
  function WordDocument(summary: Record): seq<Paragraph> {
    [TitleParagraph(summary.impactfulTitle), PreambleParagraph(), SectionParagraph(summary.khutbah1.title)]
    + PointParagraphs(summary.khutbah1.summary)
    + [SectionParagraph(summary.khutbah2.title)]
    + PointParagraphs(summary.khutbah2.summary)
    + [SectionParagraph(summary.overall.title), TextParagraph(summary.overall.text)]
  }

  /** The paragraph order: title, preamble, first khutbah's title with no
      prefix, its points, second title, its points, overall title and overall
      text; `N + M + 6` paragraphs in all. */
  ghost predicate LaidOut(doc: seq<Paragraph>, summary: Record) {
    var n, m := |summary.khutbah1.summary|, |summary.khutbah2.summary|;
    && |doc| == n + m + 6
    && doc[0] == TitleParagraph(summary.impactfulTitle)
    && doc[1] == PreambleParagraph()
    && doc[2] == SectionParagraph(summary.khutbah1.title)
    && (forall i :: 0 <= i < n ==> doc[3 + i] == PointParagraph(summary.khutbah1.summary[i]))
    && doc[3 + n] == SectionParagraph(summary.khutbah2.title)
    && (forall j :: 0 <= j < m ==> doc[4 + n + j] == PointParagraph(summary.khutbah2.summary[j]))
    && doc[4 + n + m] == SectionParagraph(summary.overall.title)
    && doc[5 + n + m] == TextParagraph(summary.overall.text)
  }

  lemma WordDocumentLayout(summary: Record)
    ensures LaidOut(WordDocument(summary), summary)
  {
    var k1, k2 := summary.khutbah1.summary, summary.khutbah2.summary;
    var n, m := |k1|, |k2|;
    var p1, p2 := PointParagraphs(k1), PointParagraphs(k2);
    var a := [TitleParagraph(summary.impactfulTitle), PreambleParagraph(), SectionParagraph(summary.khutbah1.title)] + p1;
    var b := a + [SectionParagraph(summary.khutbah2.title)] + p2;
    var doc := WordDocument(summary);
    assert doc == b + [SectionParagraph(summary.overall.title), TextParagraph(summary.overall.text)];
    assert |a| == 3 + n && |b| == 4 + n + m;
    forall i | 0 <= i < n
      ensures doc[3 + i] == PointParagraph(k1[i])
    {
      assert doc[3 + i] == b[3 + i] == a[3 + i] == p1[i];
    }
    forall j | 0 <= j < m
      ensures doc[4 + n + j] == PointParagraph(k2[j])
    {
      assert doc[4 + n + j] == b[4 + n + j] == p2[j];
    }
    assert doc[3 + n] == b[3 + n];
    assert doc[2] == a[2];
  }

  /** The paragraphs that hold one point each. */
  predicate PointIndex(i: int, n: nat, m: nat) {
    (3 <= i < 3 + n) || (4 + n <= i < 4 + n + m)
  }

  /** Every paragraph is bidirectional and every run is in "B Nazanin" with no
      colour; the title is centred, the three section titles right-aligned and
      everything else justified; the title is size 32, section titles 30 and all
      other runs 28; a point paragraph has two runs, the first bold and the
      second not, any other paragraph one run, bold exactly for the titles. */
  ghost predicate Formatted(doc: seq<Paragraph>, n: nat, m: nat) {
    forall i :: 0 <= i < |doc| ==>
      var section := i == 2 || i == 3 + n || i == 4 + n + m;
      && doc[i].bidirectional
      && (forall r :: r in doc[i].runs ==> r.font == Some(Font) && r.color == None && !r.rightToLeft)
      && doc[i].alignment == Some(if i == 0 then Center else if section then Right else Justified)
      && |doc[i].runs| == (if PointIndex(i, n, m) then 2 else 1)
      && doc[i].runs[0].size == Some(if i == 0 then 32 else if section then 30 else 28)
      && (doc[i].runs[0].bold <==> i != 1 && i != 5 + n + m)
      && (PointIndex(i, n, m) ==> doc[i].runs[1].size == Some(28) && !doc[i].runs[1].bold)
  }

  lemma WordDocumentFormat(summary: Record)
    ensures Formatted(WordDocument(summary), |summary.khutbah1.summary|, |summary.khutbah2.summary|)
  {
    WordDocumentLayout(summary);
    LaidOutFormatted(WordDocument(summary), summary);
  }

  lemma LaidOutFormatted(doc: seq<Paragraph>, summary: Record)
    requires LaidOut(doc, summary)
    ensures Formatted(doc, |summary.khutbah1.summary|, |summary.khutbah2.summary|)
  {
    var n, m := |summary.khutbah1.summary|, |summary.khutbah2.summary|;
    forall i | 0 <= i < |doc|
      ensures var section := i == 2 || i == 3 + n || i == 4 + n + m;
      && doc[i].bidirectional
      && (forall r :: r in doc[i].runs ==> r.font == Some(Font) && r.color == None && !r.rightToLeft)
      && doc[i].alignment == Some(if i == 0 then Center else if section then Right else Justified)
      && |doc[i].runs| == (if PointIndex(i, n, m) then 2 else 1)
      && doc[i].runs[0].size == Some(if i == 0 then 32 else if section then 30 else 28)
      && (doc[i].runs[0].bold <==> i != 1 && i != 5 + n + m)
      && (PointIndex(i, n, m) ==> doc[i].runs[1].size == Some(28) && !doc[i].runs[1].bold)
    {
      if i < 3 {
        if i == 0 {} else if i == 1 {} else {}
      } else if i < 3 + n {
        assert doc[3 + (i - 3)] == PointParagraph(summary.khutbah1.summary[i - 3]);
      } else if i == 3 + n {
      } else if i < 4 + n + m {
        assert doc[4 + n + (i - 4 - n)] == PointParagraph(summary.khutbah2.summary[i - 4 - n]);
      } else if i == 4 + n + m {
      } else {
      }
    }
  }

  /** The text of a paragraph's run `k`. */
  function RunText(p: Paragraph, k: nat): string { if k < |p.runs| then p.runs[k].text else "" }

  /** `s` without `suffix` at its end, when it has it. */
  function DropSuffix(s: string, suffix: string): (r: string)
    ensures |suffix| <= |s| && s[|s| - |suffix|..] == suffix ==> s == r + suffix
  {
    if |suffix| <= |s| && s[|s| - |suffix|..] == suffix then s[..|s| - |suffix|] else s
  }

  /** Reads a point back from its paragraph. */
  function PointOf(p: Paragraph): Point { Point(DropSuffix(RunText(p, 0), Separator), RunText(p, 1)) }

  function PointsOf(ps: seq<Paragraph>): (points: seq<Point>)
    ensures |points| == |ps|
  {
    seq(|ps|, i requires 0 <= i < |ps| => PointOf(ps[i]))
  }

  /** The summary with the poster quotes dropped: what the document records. */
  function WithoutQuotes(summary: Record): Record {
    summary.(khutbah1 := summary.khutbah1.(quote := None), khutbah2 := summary.khutbah2.(quote := None))
  }

  /** Reads a summary back from a document with `n` points in its first khutbah. */
  function ReadBack(doc: seq<Paragraph>, n: nat): Record
    requires |doc| >= 6 + n
  {
    Record(RunText(doc[0], 0),
           Khutbah(RunText(doc[2], 0), PointsOf(doc[3..3 + n]), None),
           Khutbah(RunText(doc[3 + n], 0), PointsOf(doc[4 + n..|doc| - 2]), None),
           Overall(RunText(doc[|doc| - 2], 0), RunText(doc[|doc| - 1], 0)))
  }

  /** Reading the point back undoes the heading's ": " suffix. */
  lemma PointRoundTrip(p: Point)
    ensures PointOf(PointParagraph(p)) == p
  {
    var h := p.heading + Separator;
    assert h[|h| - |Separator|..] == Separator;
    assert h[..|h| - |Separator|] == p.heading;
  }

  /** The document loses nothing but the quotes: every title, heading,
      explanation and the overall summary reads back, points in order. */
  lemma WordDocumentReadBack(summary: Record)
    ensures |WordDocument(summary)| >= 6 + |summary.khutbah1.summary|
    ensures ReadBack(WordDocument(summary), |summary.khutbah1.summary|) == WithoutQuotes(summary)
  {
    WordDocumentLayout(summary);
    LaidOutReadBack(WordDocument(summary), summary);
  }

  lemma LaidOutReadBack(doc: seq<Paragraph>, summary: Record)
    requires LaidOut(doc, summary)
    ensures |doc| >= 6 + |summary.khutbah1.summary|
    ensures ReadBack(doc, |summary.khutbah1.summary|) == WithoutQuotes(summary)
  {
    var n, m := |summary.khutbah1.summary|, |summary.khutbah2.summary|;
    forall i | 0 <= i < n ensures PointsOf(doc[3..3 + n])[i] == summary.khutbah1.summary[i] {
      assert doc[3..3 + n][i] == doc[3 + i];
      PointRoundTrip(summary.khutbah1.summary[i]);
    }
    var second := doc[4 + n..|doc| - 2];
    forall j | 0 <= j < m ensures PointsOf(second)[j] == summary.khutbah2.summary[j] {
      assert second[j] == doc[4 + n + j];
      PointRoundTrip(summary.khutbah2.summary[j]);
    }
  }

  /** The download: a link is attached to the body, clicked and detached again;
      the body ends as it was and one file is offered. */
  method GenerateWordDocument(page: Page, summary: Record) returns (doc: seq<Paragraph>)
    modifies page`body, page`downloads
    ensures doc == WordDocument(summary)
    ensures page.body == old(page.body)
    ensures page.downloads == old(page.downloads) + [FileName]
  {
    doc := WordDocument(summary);
    page.ClickDownload(FileName);
  }
}
