/** `src/App.tsx`: the React page's summarise handler (its `loading`, `error`
    and `summary` state) and the copy handler's plain-text report. */
module AppTsx {
  import opened Strings
  import opened Sermon

  const MissingText: string := "لطفاً متن هر دو خطبه را وارد کنید."
  const ConnectionError: string := "خطایی در برقراری ارتباط با هوش مصنوعی رخ داد."

  // ---------------------------------------------------------------------------
  // handleCopy's text

  /** The `intro` of `handleCopy`: the basmala line, the report line, and an empty line. */
  const Basmala: string := "بِسْمِ اللهِ الرَّحْمنِ الرَّحِیم"
  const ReportLine: string := "به گزارش معاونت ارتباطات و رسانه دفتر امام جمعه دهستان میانکاله (زاغمرز)، حجت الاسلام والمسلمین حاج حسین انزائی در خطبه‌های این هفته از نماز جمعه، ضمن سفارش به تقوا اظهار کرد:"
  const CopyIntro: string := Basmala + "\n" + ReportLine + "\n\n"
  const FirstHeading: string := "خطبه اول: "
  const SecondHeading: string := "خطبه دوم: "

  /** One point's line, `${heading}: ${explanation}`. */
  function PointText(p: Point): string { p.heading + ": " + p.explanation }

  function PointTexts(points: seq<Point>): (texts: seq<string>)
    ensures |texts| == |points|
  {
    seq(|points|, i requires 0 <= i < |points| => PointText(points[i]))
  }

  /** The text `handleCopy` puts on the clipboard: under the intro, the
      title, the first heading and the first khutbah's point lines, the second
      heading and its point lines, then the overall title and text, laid out
      as `Sections` lays them out. */
  function CopyText(r: Record): string {
    Sections(Basmala + "\n" + ReportLine, r.impactfulTitle,
             FirstHeading + r.khutbah1.title, PointTexts(r.khutbah1.summary),
             SecondHeading + r.khutbah2.title, PointTexts(r.khutbah2.summary),
             r.overall.title, r.overall.text)
  }

  /** When the report's texts are single lines, the copied text reads line by
      line: the intro's lines, an empty line, the title and an empty line,
      the first heading, one `heading: explanation` line per point of the
      first khutbah in order, an empty line, the second heading and its
      points, an empty line, the overall title and the overall text. */
  lemma CopyTextLines(r: Record)
    requires SingleLine(r)
    ensures Split(CopyText(r), '\n') == Split(Basmala, '\n') + Split(ReportLine, '\n')
      + SectionLines(r.impactfulTitle, FirstHeading + r.khutbah1.title, PointTexts(r.khutbah1.summary),
                     SecondHeading + r.khutbah2.title, PointTexts(r.khutbah2.summary), r.overall.title, r.overall.text)
    ensures |Split(CopyText(r), '\n')| >= 11 + |r.khutbah1.summary| + |r.khutbah2.summary|
  {
    var p1, p2 := PointTexts(r.khutbah1.summary), PointTexts(r.khutbah2.summary);
    var f, g := FirstHeading, SecondHeading;
    assert '\n' !in f + r.khutbah1.title && '\n' !in g + r.khutbah2.title;
    assert forall i :: 0 <= i < |p1| ==> '\n' !in p1[i];
    assert forall i :: 0 <= i < |p2| ==> '\n' !in p2[i];
    SplitSections(Basmala + "\n" + ReportLine, r.impactfulTitle, f + r.khutbah1.title, p1,
                  g + r.khutbah2.title, p2, r.overall.title, r.overall.text);
    SplitAt(Basmala, ReportLine, '\n');
  }

  /** The text built by `let text = intro; text += ...`. */
  method BuildCopyText(r: Record) returns (text: string)
    ensures text == CopyText(r)
  {
    text := CopyIntro;
    text := text + r.impactfulTitle + "\n\n";
    text := text + (FirstHeading + r.khutbah1.title) + "\n";
    text := AppendPoints(text, r.khutbah1.summary);
    text := text + "\n" + (SecondHeading + r.khutbah2.title) + "\n";
    text := AppendPoints(text, r.khutbah2.summary);
    text := text + "\n" + r.overall.title + "\n" + r.overall.text;
  }

  /** `summary.forEach(s => { text += `${s.heading}: ${s.explanation}\n`; })`. */
  method AppendPoints(text0: string, points: seq<Point>) returns (text: string)
    ensures text == text0 + Terminated(PointTexts(points), '\n')
  {
    text := text0;
    var i := 0;
    while i < |points|
      invariant 0 <= i <= |points|
      invariant text == text0 + Terminated(PointTexts(points)[..i], '\n')
    {
      AppendPointStep(text0, points, i, text);
      text := text + PointText(points[i]) + "\n";
      i := i + 1;
    }
    assert PointTexts(points)[..i] == PointTexts(points);
  }

  lemma AppendPointStep(text0: string, points: seq<Point>, i: nat, text: string)
    requires i < |points|
    requires text == text0 + Terminated(PointTexts(points)[..i], '\n')
    ensures text + PointText(points[i]) + "\n" == text0 + Terminated(PointTexts(points)[..i + 1], '\n')
  {
    var texts := PointTexts(points);
    assert texts[..i + 1] == texts[..i] + [PointText(points[i])];
    TerminatedAppend(texts[..i], [PointText(points[i])], '\n');
    assert Terminated([PointText(points[i])], '\n') == PointText(points[i]) + "\n";
  }

  // ---------------------------------------------------------------------------
  // The page's state

  /** How `summarizeKhutbahs` settled: with a report, or by throwing an error
      whose `message` may be empty. */
  datatype Outcome = Summarized(report: Record) | Failed(message: string)

  /** The state of `App`: the two texts, `loading`, `summary`, `error`,
      `copied`, and what was written to the clipboard. */
  class App {
    var khutbah1: string
    var khutbah2: string
    var loading: bool
    var summary: Option<Record>
    var error: Option<string>
    var copied: bool
    var clipboard: seq<string>

    /** The `useState` initial values. */
    constructor ()
      ensures khutbah1 == "" && khutbah2 == "" && !loading && summary == None && error == None
      ensures !copied && clipboard == []
    {
      khutbah1, khutbah2, loading := "", "", false;
      summary, error, copied, clipboard := None, None, false, [];
    }

    /** The textareas' `onChange`. */
    method SetTexts(k1: string, k2: string)
      modifies this`khutbah1, this`khutbah2
      ensures khutbah1 == k1 && khutbah2 == k2
    {
      khutbah1, khutbah2 := k1, k2;
    }

    /** `handleSummarize` up to its `await`. The button is disabled while
        `loading`, so a click then does nothing. An empty text (not trimmed:
        whitespace passes) sets the error and sends nothing. Otherwise
        `loading` is set, the error cleared, and the untrimmed texts are sent. */
    method HandleSummarize() returns (request: Option<(string, string)>)
      modifies this`loading, this`error
      ensures request.Some? <==> !old(loading) && khutbah1 != "" && khutbah2 != ""
      ensures old(loading) ==> loading && error == old(error)
      ensures !old(loading) && request.None? ==> !loading && error == Some(MissingText)
      ensures request.Some? ==> request.value == (khutbah1, khutbah2) && loading && error == None
    {
      if loading {
        return None;
      }
      if khutbah1 == "" || khutbah2 == "" {
        error := Some(MissingText);
        return None;
      }
      loading := true;
      error := None;
      request := Some((khutbah1, khutbah2));
    }

    /** The rest of `handleSummarize`: a report replaces `summary` whole; an
        error leaves it and sets `error` to the message, or to the fixed
        fallback when the message is empty; `loading` ends either way. */
    method Settle(outcome: Outcome)
      requires loading
      modifies this`loading, this`error, this`summary
      ensures !loading
      ensures outcome.Summarized? ==> summary == Some(outcome.report) && error == old(error)
      ensures outcome.Failed? ==>
        summary == old(summary) && error == Some(if outcome.message != "" then outcome.message else ConnectionError)
    {
      match outcome {
        case Summarized(report) =>
          summary := Some(report);
        case Failed(message) =>
          error := Some(if message != "" then message else ConnectionError);
      }
      loading := false;
    }

    /** `handleCopy`: nothing without a summary; otherwise the text goes to
        the clipboard and `copied` is set. */
    method HandleCopy()
      modifies this`clipboard, this`copied
      ensures summary.None? ==> clipboard == old(clipboard) && copied == old(copied)
      ensures summary.Some? ==> clipboard == old(clipboard) + [CopyText(summary.value)] && copied
    {
      if summary.None? {
        return;
      }
      var text := BuildCopyText(summary.value);
      clipboard := clipboard + [text];
      copied := true;
    }
  }
}
