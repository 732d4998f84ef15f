/** `public/assets/js/app.js`: the static page's controller. The generate
    button's handler (validation, busy state, the request's settlement), the
    rendering of a report into the output panel, and the poster buttons'
    guards. */
module AppJs {
  import opened Strings
  import opened Sermon
  import opened PersianDigits

  const IntroText: string := "به گزارش معاونت ارتباطات و رسانه دفتر امام جمعه دهستان میانکاله (زاغمرز)، حجت الاسلام والمسلمین حاج حسین انزائی در خطبه‌های این هفته از نماز جمعه، ضمن سفارش به تقوا اظهار کرد:"
  const MissingInput: string := "لطفاً هر دو خطبه را وارد کنید."
  const Processing: string := "در حال پردازش..."
  const ServerError: string := "خطا در ارتباط با سرور"
  const ErrorPrefix: string := "خطا: "
  const RetryText: string := "آغاز پردازش مجدد"

  // ---------------------------------------------------------------------------
  // renderOutput

  /** The static markup of the output panel's template literal, in the order
      it surrounds the inserted values, and of one point's entry. */
  datatype Markup = Markup(
    beforeTitle: string, beforeIntro: string, beforeTitle1: string, beforeEntries1: string,
    beforeQuote1: string, beforeTitle2: string, beforeEntries2: string, beforeQuote2: string,
    beforeOverallTitle: string, beforeOverallText: string, tail: string,
    entryOpen1: string, entryOpen2: string, afterNumber: string, afterHeading: string, entryClose: string)

  /** The markup written in `renderOutput`. */
  const OutputMarkup: Markup := Markup(
    "\n" + "        <div class=\"text-center mb-8\">" + "\n" + "            <h3 class=\"text-2xl font-black text-sky-300 mt-4 mb-4\">«",
    "»</h3>" + "\n" + "            <p class=\"text-gray-300\">",
    "</p>" + "\n" + "        </div>" + "\n" + "        <div class=\"output-card output-khutbah1\">" + "\n" + "            <h4 class=\"text-xl font-bold text-blue-400 mb-4\">خطبه اول: ",
    "</h4>" + "\n" + "            ",
    "\n" + "            <div class=\"mt-4 p-3 bg-blue-900/30 border-r-2 border-blue-500 rounded\"><span class=\"text-xs text-blue-200\">✨ جمله منتخب خطبه اول:</span><br><em class=\"text-white\">",
    "</em></div>" + "\n" + "        </div>" + "\n" + "        <div class=\"output-card output-khutbah2\">" + "\n" + "            <h4 class=\"text-xl font-bold text-emerald-400 mb-4\">خطبه دوم: ",
    "</h4>" + "\n" + "            ",
    "\n" + "            <div class=\"mt-4 p-3 bg-emerald-900/30 border-r-2 border-emerald-500 rounded\"><span class=\"text-xs text-emerald-200\">✨ جمله منتخب خطبه دوم:</span><br><em class=\"text-white\">",
    "</em></div>" + "\n" + "        </div>" + "\n" + "        <div class=\"output-card output-overall\">" + "\n" + "            <h4 class=\"text-xl font-bold text-amber-400 mb-4\">",
    "</h4>" + "\n" + "            <p class=\"text-gray-300\">",
    "</p>" + "\n" + "        </div>" + "\n" + "    ",
    "<div class=\"mb-3\"><strong class=\"text-blue-300\">", "<div class=\"mb-3\"><strong class=\"text-emerald-300\">", ". ", "</strong><br><span class=\"text-gray-400 text-sm\">", "</span></div>")

  /** One point's entry: its number and heading in bold, then the explanation,
      each through `toPersianDigits`. */
  function PointEntry(m: Markup, open: string, n: nat, p: Point): string {
    open + PersianNumeral(n) + m.afterNumber + ToPersianDigits(p.heading)
    + m.afterHeading + ToPersianDigits(p.explanation) + m.entryClose
  }

  /** `summary.map((i, idx) => ...)`: the entries, numbered `idx + 1`. */
  function Entries(m: Markup, open: string, points: seq<Point>): (entries: seq<string>)
    ensures |entries| == |points|
  {
    seq(|points|, i requires 0 <= i < |points| => PointEntry(m, open, i + 1, points[i]))
  }

  /** `renderOutput(data)`'s HTML for the markup `m` and the page's
      `introText`. `toPersianDigits(undefined)` throws, so a report without a
      quote has no rendering (`None`). */
  function RenderOutput(m: Markup, d: Record, intro: string): (html: Option<string>)
    ensures html.None? <==> d.khutbah1.quote.None? || d.khutbah2.quote.None?
  {
    if d.khutbah1.quote.None? || d.khutbah2.quote.None? then None
    else Some(m.beforeTitle + ToPersianDigits(d.impactfulTitle)
      + m.beforeIntro + ToPersianDigits(intro)
      + m.beforeTitle1 + ToPersianDigits(d.khutbah1.title)
      + m.beforeEntries1 + Concat(Entries(m, m.entryOpen1, d.khutbah1.summary))
      + m.beforeQuote1 + ToPersianDigits(d.khutbah1.quote.value)
      + m.beforeTitle2 + ToPersianDigits(d.khutbah2.title)
      + m.beforeEntries2 + Concat(Entries(m, m.entryOpen2, d.khutbah2.summary))
      + m.beforeQuote2 + ToPersianDigits(d.khutbah2.quote.value)
      + m.beforeOverallTitle + ToPersianDigits(d.overall.title)
      + m.beforeOverallText + ToPersianDigits(d.overall.text)
      + m.tail)
  }

  /** The report with every text field converted to Persian digits. */
  function PersianRecord(d: Record): Record {
    Record(ToPersianDigits(d.impactfulTitle), PersianKhutbah(d.khutbah1), PersianKhutbah(d.khutbah2),
           Overall(ToPersianDigits(d.overall.title), ToPersianDigits(d.overall.text)))
  }

  function PersianKhutbah(k: Khutbah): Khutbah {
    Khutbah(ToPersianDigits(k.title), PersianPoints(k.summary),
            if k.quote.Some? then Some(ToPersianDigits(k.quote.value)) else None)
  }

  function PersianPoints(points: seq<Point>): (r: seq<Point>)
    ensures |r| == |points|
  {
    seq(|points|, i requires 0 <= i < |points| =>
      Point(ToPersianDigits(points[i].heading), ToPersianDigits(points[i].explanation)))
  }

  /** Every field of the report reaches the panel through `toPersianDigits`:
      converting the report beforehand changes nothing. */
  lemma RenderConverted(m: Markup, d: Record, intro: string)
    ensures RenderOutput(m, PersianRecord(d), intro) == RenderOutput(m, d, intro)
  {
    var p := PersianRecord(d);
    if d.khutbah1.quote.Some? && d.khutbah2.quote.Some? {
      assert ToPersianDigits(p.impactfulTitle) == ToPersianDigits(d.impactfulTitle) by { Idempotent(d.impactfulTitle); }
      assert ToPersianDigits(p.khutbah1.title) == ToPersianDigits(d.khutbah1.title) by { Idempotent(d.khutbah1.title); }
      assert ToPersianDigits(p.khutbah2.title) == ToPersianDigits(d.khutbah2.title) by { Idempotent(d.khutbah2.title); }
      assert ToPersianDigits(p.overall.title) == ToPersianDigits(d.overall.title) by { Idempotent(d.overall.title); }
      assert ToPersianDigits(p.overall.text) == ToPersianDigits(d.overall.text) by { Idempotent(d.overall.text); }
      assert ToPersianDigits(p.khutbah1.quote.value) == ToPersianDigits(d.khutbah1.quote.value) by {
        Idempotent(d.khutbah1.quote.value);
      }
      assert ToPersianDigits(p.khutbah2.quote.value) == ToPersianDigits(d.khutbah2.quote.value) by {
        Idempotent(d.khutbah2.quote.value);
      }
      assert Entries(m, m.entryOpen1, p.khutbah1.summary) == Entries(m, m.entryOpen1, d.khutbah1.summary) by {
        EntriesConverted(m, m.entryOpen1, d.khutbah1.summary);
      }
      assert Entries(m, m.entryOpen2, p.khutbah2.summary) == Entries(m, m.entryOpen2, d.khutbah2.summary) by {
        EntriesConverted(m, m.entryOpen2, d.khutbah2.summary);
      }
    }
  }

  lemma EntriesConverted(m: Markup, open: string, points: seq<Point>)
    ensures Entries(m, open, PersianPoints(points)) == Entries(m, open, points)
  {
    forall i | 0 <= i < |points|
      ensures Entries(m, open, PersianPoints(points))[i] == Entries(m, open, points)[i]
    {
      Idempotent(points[i].heading);
      Idempotent(points[i].explanation);
    }
  }

  /** The entries are numbered 1, 2, ... in order, in Persian digits. */
  lemma EntryNumbers(m: Markup, open: string, points: seq<Point>, i: nat)
    requires i < |points|
    ensures Entries(m, open, points)[i] == PointEntry(m, open, i + 1, points[i])
    ensures NumeralValue(FromPersianDigits(PersianNumeral(i + 1))) == i + 1
  {
    PersianNumeralValue(i + 1);
  }

  // ---------------------------------------------------------------------------
  // The poster buttons

  /** The quote `generateInfographic` is called with when a poster button is
      clicked, or `None` when the guard keeps it from being called. */
  function PosterQuote(report: Option<Record>, first: bool): (q: Option<string>)
    ensures q.Some? <==>
      report.Some? && Truthy(if first then report.value.khutbah1.quote else report.value.khutbah2.quote)
    ensures q.Some? ==> Some(q.value) == (if first then report.value.khutbah1.quote else report.value.khutbah2.quote)
  {
    if report.None? then None
    else
      var quote := if first then report.value.khutbah1.quote else report.value.khutbah2.quote;
      if Truthy(quote) then quote else None
  }

  // ---------------------------------------------------------------------------
  // handleGeneration

  /** How the request settled: `fetch`, `response.json()`, the envelope or
      `JSON.parse` threw with a message; the response was not `ok`; or the
      report was parsed. */
  datatype Reply = Threw(message: string) | NotOk | Parsed(report: Record)

  /** The page's state: the current report, the generate button, the loading
      indicator and result container (hidden or not), the output panel's HTML,
      the alerts shown, and whether a request is outstanding. */
  class StaticPage {
    var report: Option<Record>
    var buttonDisabled: bool
    var buttonText: string
    var loadingHidden: bool
    var resultHidden: bool
    var output: string
    var alerts: seq<string>
    var pending: bool
    /** `introText`. */
    const intro: string
    /** The markup of `renderOutput`'s template. */
    const markup: Markup

    /** The button is disabled exactly while a request is outstanding. */
    predicate Valid()
      reads this
    {
      buttonDisabled == pending
    }

    /** The page as loaded: no report, nothing outstanding. */
    constructor (buttonText: string)
      ensures Valid() && intro == IntroText && markup == OutputMarkup
      ensures report == None && !pending && alerts == [] && output == ""
      ensures this.buttonText == buttonText && loadingHidden && resultHidden
    {
      intro, markup := IntroText, OutputMarkup;
      report, buttonDisabled, this.buttonText := None, false, buttonText;
      loadingHidden, resultHidden, output, alerts, pending := true, true, "", [], false;
    }

    /** The click handler up to its `await`. A disabled button delivers no
        click. Both inputs are trimmed; if either is then empty an alert is
        shown and nothing is sent. Otherwise the button is disabled and
        relabelled, the loading indicator shown, the result hidden, and a request
        carrying the trimmed texts goes out. */
    method HandleGeneration(khutbah1: string, khutbah2: string) returns (request: Option<(string, string)>)
      requires Valid()
      modifies this
      ensures Valid()
      ensures request.Some? <==> !old(buttonDisabled) && !IsBlank(khutbah1) && !IsBlank(khutbah2)
      ensures old(buttonDisabled) ==>
        alerts == old(alerts) && pending && buttonText == old(buttonText)
        && loadingHidden == old(loadingHidden) && resultHidden == old(resultHidden)
      ensures !old(buttonDisabled) && request.None? ==>
        alerts == old(alerts) + [MissingInput] && !pending && buttonText == old(buttonText)
        && loadingHidden == old(loadingHidden) && resultHidden == old(resultHidden)
      ensures request.Some? ==>
        request.value == (Trim(khutbah1), Trim(khutbah2)) && pending && buttonText == Processing
        && !loadingHidden && resultHidden && alerts == old(alerts)
      ensures report == old(report) && output == old(output)
    {
      if buttonDisabled {
        return None;
      }
      var k1, k2 := Trim(khutbah1), Trim(khutbah2);
      TrimEmptyIff(khutbah1);
      TrimEmptyIff(khutbah2);
      if k1 == "" || k2 == "" {
        alerts := alerts + [MissingInput];
        return None;
      }
      buttonDisabled, buttonText := true, Processing;
      loadingHidden, resultHidden := false, true;
      pending := true;
      request := Some((k1, k2));
    }

    /** The rest of the handler once the request settles. A parsed report
        replaces the current one and is rendered; rendering throws on a report
        without a quote (`renderError` is that error's message). Any failure is
        alerted after `"خطا: "`. In every case the `finally` re-enables and
        relabels the button and hides the loading indicator. */
    method Settle(reply: Reply, renderError: string)
      requires Valid() && pending
      modifies this
      ensures Valid() && !pending && buttonText == RetryText && loadingHidden
      ensures report == (if reply.Parsed? then Some(reply.report) else old(report))
      ensures reply.Threw? ==>
        alerts == old(alerts) + [ErrorPrefix + reply.message] && output == old(output) && resultHidden == old(resultHidden)
      ensures reply.NotOk? ==>
        alerts == old(alerts) + [ErrorPrefix + ServerError] && output == old(output) && resultHidden == old(resultHidden)
      ensures reply.Parsed? && RenderOutput(markup, reply.report, intro).Some? ==>
        output == RenderOutput(markup, reply.report, intro).value && !resultHidden && alerts == old(alerts)
      ensures reply.Parsed? && RenderOutput(markup, reply.report, intro).None? ==>
        alerts == old(alerts) + [ErrorPrefix + renderError] && output == old(output) && resultHidden == old(resultHidden)
    {
      match reply {
        case Threw(message) =>
          alerts := alerts + [ErrorPrefix + message];
        case NotOk =>
          alerts := alerts + [ErrorPrefix + ServerError];
        case Parsed(d) =>
          ShowReport(d, renderError);
      }
      buttonDisabled, buttonText := false, RetryText;
      loadingHidden := true;
      pending := false;
    }

    /** `currentReportData = JSON.parse(jsonText); renderOutput(currentReportData);`
        inside the `try`: the report is kept even when rendering it throws. */
    method ShowReport(d: Record, renderError: string)
      modifies this
      ensures report == Some(d)
      ensures RenderOutput(markup, d, intro).Some? ==>
        output == RenderOutput(markup, d, intro).value && !resultHidden && alerts == old(alerts)
      ensures RenderOutput(markup, d, intro).None? ==>
        alerts == old(alerts) + [ErrorPrefix + renderError] && output == old(output) && resultHidden == old(resultHidden)
      ensures buttonDisabled == old(buttonDisabled) && buttonText == old(buttonText)
      ensures loadingHidden == old(loadingHidden) && pending == old(pending)
    {
      report := Some(d);
      var html := RenderOutput(markup, d, intro);
      if html.Some? {
        output := html.value;
        resultHidden := false;
      } else {
        alerts := alerts + [ErrorPrefix + renderError];
      }
    }
  }
}
