/** `src/components/ImageGenerator.tsx`: the poster component. Its effect
    draws the background, the date, the imam's name and the wrapped quote on
    its canvas and then sets `isReady`; the download button is enabled only
    when `isReady` holds. */
module ImageGenerator {
  import opened Sermon
  import opened Dom
  import opened WordWrap

  /** The `type` prop. */
  datatype QuoteKind = Religious | Political

  function KindName(kind: QuoteKind): string {
    match kind
    case Religious => "religious"
    case Political => "political"
  }

  const ImamText: string := "امام جمعه محترم دهستان میانکاله(زاغمرز) حجت الاسلام والمسلمین حاج حسین انزائی:"
  const DownloadError: string := "خطایی در تولید تصویر رخ داد. لطفا از مرورگر دیگری استفاده کنید."

  /** `نماز جمعه ${format(new Date(), ...)} دهستان ...`, with the formatted date as given. */
  function DateText(today: string): string {
    "نماز جمعه " + today + " دهستان میانکاله (زاغمرز)"
  }

  /** `khutbah_${type}.png`: the downloaded file's name. */
  function DownloadName(kind: QuoteKind): (name: string)
    ensures |name| > 12 && name[..8] == "khutbah_" && name[|name| - 4..] == ".png"
  {
    "khutbah_" + KindName(kind) + ".png"
  }

  /** The two posters download under different names. */
  lemma DownloadNamesDistinct(a: QuoteKind, b: QuoteKind)
    ensures DownloadName(a) == DownloadName(b) <==> a == b
  {
    if a != b {
      assert DownloadName(a)[8] != DownloadName(b)[8];
    }
  }

  /** One mounted generator: its props, its canvas (`canvasRef.current`, which
      may be null) and its `isReady` state. */
  class Generator {
    const quote: Option<string>
    const kind: QuoteKind
    const canvas: Canvas?
    var isReady: bool

    /** `isReady` holds only once a canvas has a whole poster drawn on it. */
    predicate Valid()
      reads this, canvas
    {
      isReady ==> canvas != null && quote.Some?
    }

    /** On mount `isReady` is false. */
    constructor (quote: Option<string>, kind: QuoteKind, canvas: Canvas?)
      ensures this.quote == quote && this.kind == kind && this.canvas == canvas && !isReady
      ensures Valid()
    {
      this.quote, this.kind, this.canvas := quote, kind, canvas;
      isReady := false;
    }

    /** The effect. Without a canvas or a 2d context it does nothing, and a
        failed image load only logs. Once the image has loaded, the canvas
        takes its size and the backdrop is drawn; the quote is then wrapped
        and `isReady` set. A missing quote makes `text.split` throw inside
        `onload`, so drawing stops after the name and `isReady` stays as it was. */
    method RunEffect(hasContext: bool, load: ImageLoad, layout: PosterLayout, today: string)
      requires Valid()
      modifies canvas, this`isReady
      ensures Valid()
      ensures canvas == null || !hasContext || load.LoadFailed? ==>
        isReady == old(isReady) && (canvas != null ==> unchanged(canvas))
      ensures canvas != null && hasContext && load.Loaded? ==>
        && canvas.width == load.width && canvas.height == load.height
        && (quote.Some? ==>
              isReady && canvas.log == Poster(DateText(today), ImamText, quote.value, layout, canvas.measure))
        && (quote.None? ==> isReady == old(isReady) && canvas.log == Backdrop(DateText(today), ImamText, layout))
    {
      if canvas == null || !hasContext || load.LoadFailed? {
        return;
      }
      if quote.None? {
        DrawBackdrop(canvas, load, DateText(today), ImamText, layout);
        return;
      }
      DrawPoster(canvas, load, DateText(today), ImamText, quote.value, layout);
      isReady := true;
    }

    /** A click on the download button. The button is disabled until
        `isReady`, so before that a click does nothing; so does one with a
        null canvas. Otherwise the canvas is exported and offered as
        `khutbah_<type>.png`, or, when the export throws, an alert is shown. */
    method HandleDownload(page: Page, dataUrl: Attempt)
      requires Valid()
      modifies page`body, page`downloads, page`alerts
      ensures page.body == old(page.body)
      ensures !isReady || canvas == null ==> page.downloads == old(page.downloads) && page.alerts == old(page.alerts)
      ensures isReady && canvas != null && dataUrl == Succeeds ==>
        page.downloads == old(page.downloads) + [DownloadName(kind)] && page.alerts == old(page.alerts)
      ensures isReady && canvas != null && dataUrl.Throws? ==>
        page.downloads == old(page.downloads) && page.alerts == old(page.alerts) + [DownloadError]
    {
      if !isReady || canvas == null {
        return;
      }
      if dataUrl == Succeeds {
        page.ClickDownload(DownloadName(kind));
      } else {
        page.Alert(DownloadError);
      }
    }
  }
}
