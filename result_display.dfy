/** `src/components/ResultDisplay.tsx`: the result view's copy handler, whose
    plain text marks headings with `**`, and the `showImages` flag that shows
    the two poster generators. */
module ResultDisplay {
  import opened Strings
  import opened Sermon
  import ImageGenerator

  /** `introText`: the basmala line and the report line. */
  const Basmala: string := "بِسْمِ اللهِ الرَّحْمنِ الرَّحِیم"
  const ReportLine: string := "به گزارش معاونت ارتباطات و رسانه دفتر امام جمعه دهستان میانکاله (زاغمرز)، حجت الاسلام والمسلمین حاج حسین انزائی در خطبه های این هفته از نماز جمعه، ضمن سفارش به تقوا اظهار کرد:"
  const FirstOpening: string := "**خطبه اول: "
  const SecondOpening: string := "**خطبه دوم: "
  const CopiedAlert: string := "متن کپی شد!"

  /** One point's line, `- ${heading}: ${explanation}`. */
  function PointText(p: Point): string { "- " + p.heading + ": " + p.explanation }

  function PointTexts(points: seq<Point>): (texts: seq<string>)
    ensures |texts| == |points|
  {
    seq(|points|, i requires 0 <= i < |points| => PointText(points[i]))
  }

  /** `**${s}**`. */
  function Bold(s: string): string { "**" + s + "**" }

  /** The text `handleCopy` puts on the clipboard: under the intro, the bold
      title, the bold first heading and the first khutbah's point lines, the
      bold second heading and its point lines, then the bold overall title and
      the overall text, laid out as `Sections` lays them out. */
  function CopyText(r: Record): string {
    Sections(Basmala + "\n" + ReportLine, Bold(r.impactfulTitle),
             FirstOpening + r.khutbah1.title + "**", PointTexts(r.khutbah1.summary),
             SecondOpening + r.khutbah2.title + "**", PointTexts(r.khutbah2.summary),
             Bold(r.overall.title), r.overall.text)
  }

  /** When the report's texts are single lines, the copied text reads line by
      line: the intro's two lines, an empty line, the bold title, an empty
      line, the bold first heading, one `- heading: explanation` line per
      point of the first khutbah in order, an empty line, the bold second
      heading and its points, an empty line, the bold overall title and the
      overall text. */
  lemma CopyTextLines(r: Record)
    requires SingleLine(r)
    ensures Split(CopyText(r), '\n') == Split(Basmala, '\n') + Split(ReportLine, '\n')
      + SectionLines(Bold(r.impactfulTitle), FirstOpening + r.khutbah1.title + "**", PointTexts(r.khutbah1.summary),
                     SecondOpening + r.khutbah2.title + "**", PointTexts(r.khutbah2.summary),
                     Bold(r.overall.title), r.overall.text)
    ensures |Split(CopyText(r), '\n')| >= 11 + |r.khutbah1.summary| + |r.khutbah2.summary|
  {
    var p1, p2 := PointTexts(r.khutbah1.summary), PointTexts(r.khutbah2.summary);
    var f, g := FirstOpening + r.khutbah1.title + "**", SecondOpening + r.khutbah2.title + "**";
    assert '\n' !in f && '\n' !in g && '\n' !in Bold(r.impactfulTitle) && '\n' !in Bold(r.overall.title);
    assert forall i :: 0 <= i < |p1| ==> '\n' !in p1[i];
    assert forall i :: 0 <= i < |p2| ==> '\n' !in p2[i];
    SplitSections(Basmala + "\n" + ReportLine, Bold(r.impactfulTitle), f, p1, g, p2, Bold(r.overall.title), r.overall.text);
    SplitAt(Basmala, ReportLine, '\n');
  }

  /** The text built by `let text = ...; text += ...`. */
  method BuildCopyText(r: Record) returns (text: string)
    ensures text == CopyText(r)
  {
    text := Basmala + "\n" + ReportLine + "\n\n";
    text := text + Bold(r.impactfulTitle) + "\n\n";
    text := text + (FirstOpening + r.khutbah1.title + "**") + "\n";
    text := AppendPoints(text, r.khutbah1.summary);
    text := text + "\n" + (SecondOpening + r.khutbah2.title + "**") + "\n";
    text := AppendPoints(text, r.khutbah2.summary);
    text := text + "\n" + Bold(r.overall.title) + "\n" + r.overall.text;
  }

  /** `summary.forEach(s => { text += `- ${s.heading}: ${s.explanation}\n`; })`. */
  method AppendPoints(text0: string, points: seq<Point>) returns (text: string)
    ensures text == text0 + Terminated(PointTexts(points), '\n')
  {
    text := text0;
    var i := 0;
    while i < |points|
      invariant 0 <= i <= |points|
      invariant text == text0 + Terminated(PointTexts(points)[..i], '\n')
    {
      AppendPointStep(text0, points, i, text);
      text := text + PointText(points[i]) + "\n";
      i := i + 1;
    }
    assert PointTexts(points)[..i] == PointTexts(points);
  }

  lemma AppendPointStep(text0: string, points: seq<Point>, i: nat, text: string)
    requires i < |points|
    requires text == text0 + Terminated(PointTexts(points)[..i], '\n')
    ensures text + PointText(points[i]) + "\n" == text0 + Terminated(PointTexts(points)[..i + 1], '\n')
  {
    var texts := PointTexts(points);
    assert texts[..i + 1] == texts[..i] + [PointText(points[i])];
    TerminatedAppend(texts[..i], [PointText(points[i])], '\n');
    assert Terminated([PointText(points[i])], '\n') == PointText(points[i]) + "\n";
  }

  /** The view of one report: `showImages`, what was copied and what was alerted. */
  class ResultView {
    const data: Record
    var showImages: bool
    var clipboard: seq<string>
    var alerts: seq<string>

    /** `useState(false)`: the generators are hidden at first. */
    constructor (data: Record)
      ensures this.data == data && !showImages && clipboard == [] && alerts == []
    {
      this.data := data;
      showImages, clipboard, alerts := false, [], [];
    }

    /** `handleCopy`: the text goes to the clipboard, then the copied alert. */
    method HandleCopy()
      modifies this`clipboard, this`alerts
      ensures clipboard == old(clipboard) + [CopyText(data)]
      ensures alerts == old(alerts) + [CopiedAlert]
    {
      var text := BuildCopyText(data);
      clipboard := clipboard + [text];
      alerts := alerts + [CopiedAlert];
    }

    /** The image button: `setShowImages(true)`, the only change to the flag. */
    method ShowImages()
      modifies this`showImages
      ensures showImages
    {
      showImages := true;
    }

    /** The generators rendered: none while `showImages` is false, otherwise
        the first khutbah's quote as the religious poster and the second's as
        the political one. */
    function Generators(): (gens: seq<(Option<string>, ImageGenerator.QuoteKind)>)
      reads this
      ensures !showImages <==> gens == []
      ensures showImages ==>
        && |gens| == 2
        && gens[0].0 == data.khutbah1.quote && gens[0].1 == ImageGenerator.Religious
        && gens[1].0 == data.khutbah2.quote && gens[1].1 == ImageGenerator.Political
    {
      if showImages then [(data.khutbah1.quote, ImageGenerator.Religious), (data.khutbah2.quote, ImageGenerator.Political)]
      else []
    }
  }
}
