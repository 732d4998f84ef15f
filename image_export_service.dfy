/** `src/services/imageExportService.ts`: `generateKhutbahNegasht` draws a
    poster for one quote on a fresh canvas and settles its promise with the
    canvas's data URL, or rejects it. */
module ImageExportService {
  import opened Strings
  import opened Sermon
  import opened WordWrap

  const ContextError: string := "Canvas context not found"
  const LoadError: string := "Failed to load background image."
  const ImamText: string := "امام جمعه محترم دهستان میانکاله(زاغمرز) حجت الاسلام والمسلمین حاج حسین انزائی:"

  /** `نماز جمعه ${moment()...format(...)} دهستان ...`, with the formatted date as given. */
  function DateText(today: string): string {
    "نماز جمعه " + today + " دهستان میانکاله (زاغمرز)"
  }

  /** `«${quote}»`: the quote between guillemets, as it is wrapped. */
  function Quoted(quote: string): (q: string)
    ensures |q| == |quote| + 2 && q[1..|q| - 1] == quote
    ensures q[0] == '«' && q[|q| - 1] == '»'
  {
    "«" + quote + "»"
  }

  /** How the returned promise settles. When `toDataURL` throws inside
      `onload` the promise never settles. */
  datatype Settlement = Resolved(dataUrl: string) | Rejected(message: string) | Pending

  /** `generateKhutbahNegasht(quote, type)`. A fresh canvas is created. With
      no 2d context the promise rejects at once, before any image is loaded,
      and nothing is drawn. A failed load rejects with its own message,
      leaving the canvas blank. After a load the canvas takes the image's
      size before anything is drawn, then the background, the date, the name
      and the guillemet-wrapped quote are drawn, and the promise resolves with
      the canvas's data URL. */
  method GenerateKhutbahNegasht(quote: string, hasContext: bool, load: ImageLoad, layout: PosterLayout,
                                today: string, measure: string -> int, dataUrl: Option<string>)
    returns (settled: Settlement, canvas: Canvas)
    ensures fresh(canvas) && canvas.measure == measure
    ensures !hasContext ==> settled == Rejected(ContextError) && canvas.log == []
    ensures hasContext && load.LoadFailed? ==> settled == Rejected(LoadError) && canvas.log == []
    ensures hasContext && load.Loaded? ==>
      && canvas.width == load.width && canvas.height == load.height
      && canvas.log == Poster(DateText(today), ImamText, Quoted(quote), layout, measure)
      && settled == (if dataUrl.Some? then Resolved(dataUrl.value) else Pending)
  {
    canvas := new Canvas(measure);
    if !hasContext {
      return Rejected(ContextError), canvas;
    }
    if load.LoadFailed? {
      return Rejected(LoadError), canvas;
    }
    DrawPoster(canvas, load, DateText(today), ImamText, Quoted(quote), layout);
    settled := if dataUrl.Some? then Resolved(dataUrl.value) else Pending;
  }

  /** The success path fixes the whole poster: the quote's lines start with
      the opening guillemet and spell the guillemet-wrapped quote's words in
      order, drawn below the two fixed lines. */
  lemma QuotedPoster(quote: string, today: string, layout: PosterLayout, measure: string -> int)
    ensures var log, lines := Poster(DateText(today), ImamText, Quoted(quote), layout, measure),
                              QuoteLines(Quoted(quote), layout, measure);
      && |log| == 5 + 2 * |lines|
      && log[1] == Stroke(DateText(today), layout.x, layout.dateY)
      && log[3] == Stroke(ImamText, layout.x, layout.nameY)
      && Concat(Texts(lines)) == Spaced(Split(Quoted(quote), ' '))
      && Concat(Texts(lines))[0] == '«'
  {
    var q := Quoted(quote);
    PosterDraws(DateText(today), ImamText, q, layout, measure);
    assert Split(q, ' ')[0][0] == q[0];
    var words := Split(q, ' ');
    assert Spaced(words) == Spaced(words[..1] + words[1..]) by { assert words == words[..1] + words[1..]; }
    SpacedAppend(words[..1], words[1..]);
    assert words[..1] == [words[0]];
    assert Spaced([words[0]]) == Spaced([]) + words[0] + " ";
  }
}
