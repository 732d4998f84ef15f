# Khutbah summariser: a verified model of its exporters, text builders and page logic

The application takes the two sermons (khutbahs) of a Friday prayer and asks a
generative-AI service to summarise them. The reply is one record: an impactful
title, and for each khutbah a title, an ordered list of points (each a heading
and an explanation) and a quotable sentence, plus an overall title and text. The
rest of the code puts that record in front of people, and that code is modelled
here:

- a static page (`public/assets/js/`) with its generate button, its output panel
  rendered in Persian digits, a `.doc` exporter, a PDF exporter and a poster
  (خطبه نگاشت) drawn on a canvas;
- a React app (`src/`) with two copy-to-clipboard builders, three Word exporters,
  three PDF exporters (`exportToPDF` in `src/utils.ts` and in
  `src/utils/exportUtils.ts`, `generatePdfDocument` in
  `src/services/pdfExportService.ts`), two image exporters (`exportToImage` in
  `src/utils.ts`, `generateKhutbahNegasht` in
  `src/services/imageExportService.ts`), the summarise form and the poster
  component;
- the serverless proxy (`api/proxy.js`) that forwards the request.

Shared pieces have one module each:

- `Sermon`: the record. One quote field is `Option<string>`; the code calls it
  `bestQuote`, `khutbahNQuote` or `quote` depending on the file.
- `Strings`: concatenation, JavaScript's `trim` and `split`, and line layout.
- `PersianDigits`: `toPersianDigits` and its inverse.
- `WordWrap`: a canvas that records the draw calls made on it, and the greedy
  word wrap used by all three poster writers. `measureText` is an uninterpreted
  width function.
- `Docx`: paragraphs and runs as data.
- `Dom`: the document body, downloads, alerts, the clipboard and rasterisations,
  as recorded events.

Code that changes state step by step is modelled as classes and methods. The
page state is a class with fields. The `+=` string builders are loops proved
equal to specification functions. The restyling of a clone works in place on an
array. Each async handler is split in two methods: the step before its `await`
and the step after it settles. Pure construction (the paragraph lists, the proxy
handler, the rendered HTML) is modelled as functions, with lemmas about them.

The paragraph list of `exportToWord` in `src/utils/exportUtils.ts` has five
empty separator paragraphs, at lines 46, 48, 50, 60 and 71.

## Model

The functions that specify whole builders carry no contract of their own:
`Utils.ExportToWord`, `WordExportService.WordDocument`, `ExportUtils.Children`,
`PdfExportService.Fragments`, `ExportJs.RawHtml`, `AppTsx.CopyText`,
`ResultDisplay.CopyText` and `AppJs.Entries`. Their rows are those of the lemmas
and methods about them (`Utils.ExportToWordLayout`, `ExportJs.BuildRawHtml`,
`AppTsx.CopyTextLines` and so on), which cite the source lines they model.

| member | source | states |
|---|---|---|
| PersianDigits.ToPersianDigits | public/assets/js/export.js:2-5 | Same length as the input; each ASCII digit d becomes the d-th Persian digit and every other character is kept. |
| PersianDigits.Convert | public/assets/js/export.js:3-4 | A digit maps to its entry in the ten-digit table, any other character to itself, and the result is never an ASCII digit. |
| PersianDigits.ConvertedHasNoAsciiDigit | public/assets/js/export.js:4 | No ASCII digit is left in a converted string. |
| PersianDigits.Idempotent | public/assets/js/export.js:3-4 | Converting twice is the same as converting once. |
| PersianDigits.DigitFree | public/assets/js/export.js:4 | A string without ASCII digits is left unchanged. |
| PersianDigits.Distributes | public/assets/js/export.js:4 | The conversion distributes over concatenation. |
| PersianDigits.FromPersianDigits | public/assets/js/export.js:3 | The inverse map, character by character, with the same length. |
| PersianDigits.RoundTrip | public/assets/js/export.js:2-5 | On text without Persian digits, restoring undoes the conversion. |
| PersianDigits.PersianNumeral | public/assets/js/app.js:84 | `toPersianDigits(idx+1)` is at least one character long and holds only Persian digits. |
| PersianDigits.PersianNumeralValue | public/assets/js/app.js:84 | A Persian numeral reads back as the decimal numeral of n and has the value n. |
| Strings.TrimEmptyIff | public/assets/js/app.js:21-23 | A string trims to "" exactly when every character is JavaScript whitespace. |
| Strings.JoinSplit | public/assets/js/export.js:121 | Joining the pieces of `split(' ')` with a space gives back the text. |
| Strings.SplitSections | src/App.tsx:66-76 | Text laid out as title, headed point lists and a closing pair splits at newlines into exactly those lines, when no part holds a newline. |
| WordWrap.Wrap | src/components/ImageGenerator.tsx:81-99 | The loop's lines as word lists: no lines exactly when there are no words, and never more lines than words. |
| WordWrap.WrapIsGreedy | src/components/ImageGenerator.tsx:85-99 | The lines hold the words in order. Every line is non-empty. Every extension of a line past its first word was measured within `maxWidth`. Each break happens because the next word overflowed. |
| WordWrap.GreedyIsWrap | src/components/ImageGenerator.tsx:85-99 | Any line split with those greedy properties is the loop's split, so the greedy wrap is unique. |
| WordWrap.LinesSpellWords | src/components/ImageGenerator.tsx:86-99 | The drawn line texts, concatenated, are every word followed by one space, in order; no word is dropped or repeated. |
| WordWrap.WrapProperties | src/components/ImageGenerator.tsx:81-99 | For a text split at spaces: at least one line. The first line starts with the first word. Each line is one word or fits `maxWidth`. The lines spell the words. |
| WordWrap.DrawLinesAt | src/components/ImageGenerator.tsx:90-99 | Line k is stroked then filled at `y + k·lineHeight`, two calls per line, however many lines there are. |
| WordWrap.WrapText | src/components/ImageGenerator.tsx:73-100 | The method's `for` loop appends exactly the stroke/fill calls of the greedy wrap of the text's space-separated words. |
| WordWrap.Canvas.SetSize | src/components/ImageGenerator.tsx:27-28 | Setting width and height resizes the canvas and clears what was drawn. |
| WordWrap.Canvas.OutlineText | public/assets/js/export.js:97-108 | `drawText`: a stroke, then a fill of the same text at the same point. |
| WordWrap.PosterDraws | public/assets/js/export.js:77-137 | A poster's calls: background at the origin, date and name each stroked then filled, then line k of the quote at `quoteY + k·lineHeight`. There are 5 + 2·lines calls and the lines spell the quote's words. |
| WordWrap.DrawBackdrop | public/assets/js/export.js:79-116 | Once the image is loaded the canvas takes its size and holds the background, the date and the name. |
| WordWrap.DrawPoster | public/assets/js/export.js:77-137 | The whole `onload` drawing: the poster draw list for that date, name, quote and layout. |
| ExportJs.WordHtml | public/assets/js/export.js:8-31 | The `.doc` HTML contains no ASCII digit, the stylesheet's sizes included. |
| ExportJs.WordHtmlParts | public/assets/js/export.js:10-31 | The converted file is the converted templates around one converted paragraph per point of each khutbah, in order. |
| ExportJs.ConvertedPoints | public/assets/js/export.js:26-31 | Converting the points' paragraphs together converts each one. |
| ExportJs.PointNumbers | public/assets/js/export.js:26 | Point i's paragraph carries the Persian numeral of i + 1, which reads back as i + 1, then its converted heading and explanation. |
| ExportJs.ExportToWord | public/assets/js/export.js:8-37 | Without a report nothing is downloaded. Otherwise the HTML is the converted document and one `.doc` download is added; the body is left as it was. |
| ExportJs.ExportReport | public/assets/js/export.js:10-36 | With a report: the returned HTML is the converted document, exactly one `.doc` download is recorded, and the body is as before (the link is appended and removed). |
| ExportJs.BuildRawHtml | public/assets/js/export.js:10-29 | The `+=` steps, with their per-point loops, build the unconverted document HTML. |
| ExportJs.AppendPoints | public/assets/js/export.js:26 | The `forEach` appends the numbered paragraphs of the points, in order. |
| ExportJs.ExportToPdf | public/assets/js/export.js:40-62 | The clone has the element's content and is moved off screen. It is attached and captured. On a successful save it is removed and the PDF downloaded; when saving fails it stays in the body. |
| ExportJs.GenerateInfographic | public/assets/js/export.js:65-154 | Without a quote: an alert, and nothing loaded or drawn. A failed load: the load alert. Loaded: the canvas size, the poster of the converted date, the name and the converted quote. Then a JPEG download, or the export alert when it throws. |
| ExportJs.PosterNamesDistinct | public/assets/js/export.js:143 | Two exports get the same poster file name exactly when `Date.now()` gave the same value. |
| AppJs.RenderOutput | public/assets/js/app.js:76-96 | No rendering exactly when a khutbah has no quote, because `toPersianDigits(undefined)` throws. |
| AppJs.RenderConverted | public/assets/js/app.js:79-94 | Converting the whole report to Persian digits first changes nothing, so every field reaches the panel converted. |
| AppJs.EntryNumbers | public/assets/js/app.js:84-89 | Entry i is numbered i + 1 in Persian digits, and the number reads back as i + 1. |
| AppJs.PosterQuote | public/assets/js/app.js:9-18 | A poster button calls `generateInfographic` exactly when there is a report and that khutbah's quote is truthy, and passes that quote. |
| AppJs.StaticPage.HandleGeneration | public/assets/js/app.js:20-28 | A request goes out exactly when the button is enabled and both trimmed texts are non-empty, carrying the trimmed texts. An empty input alerts. A sent request disables and relabels the button and shows the loader. The report is untouched. |
| AppJs.StaticPage.Settle | public/assets/js/app.js:54-74 | The report is replaced only by a parsed reply. Errors are alerted with their prefix. The `finally` always re-enables and relabels the button and hides the loader. |
| AppJs.StaticPage.ShowReport | public/assets/js/app.js:65-67 | The parsed report is kept even when rendering it throws. A rendered panel is shown. |
| AppJs.StaticPage.constructor | public/assets/js/app.js:1-2 | The page as loaded: no report (`currentReportData = null`), nothing pending and so the button enabled, no alert, an empty panel with the loader and the result hidden, and the fixed intro text. |
| AppTsx.CopyTextLines | src/App.tsx:62-76 | The copied text splits into lines in this order: the basmala line, the report line, blank, title, blank, the first heading, one `heading: explanation` line per first-khutbah point, blank, the second heading and its points, blank, the overall title and text. At least 11 + N + M lines. |
| AppTsx.BuildCopyText | src/App.tsx:66-76 | The `+=` steps build exactly the copied text. |
| AppTsx.AppendPoints | src/App.tsx:69-75 | Each point adds its line and a newline, in order. |
| AppTsx.App.constructor | src/App.tsx:23-28 | The `useState` initial values. |
| AppTsx.App.SetTexts | src/App.tsx:139-162 | The textareas' `onChange`: the two texts become exactly the typed values, untrimmed. |
| AppTsx.App.HandleSummarize | src/App.tsx:45-51 | A request is sent exactly when not loading and both untrimmed texts are non-empty. Whitespace passes. An empty text sets the error without touching `loading`. Otherwise `loading` is set and the error cleared. |
| AppTsx.App.Settle | src/App.tsx:52-59 | Success replaces the summary; failure keeps it and sets the message, or the fallback when the message is empty; `loading` ends either way. |
| AppTsx.App.HandleCopy | src/App.tsx:62-80 | Nothing without a summary; otherwise its copied text goes to the clipboard and `copied` is set. |
| ResultDisplay.CopyTextLines | src/components/ResultDisplay.tsx:9-23 | The text splits into lines in this order: the basmala line, the report line, blank, bold title, blank, bold first heading, one `- heading: explanation` line per point, blank, the second heading and its points, blank, the bold overall title, the overall text. |
| ResultDisplay.BuildCopyText | src/components/ResultDisplay.tsx:13-23 | The `+=` steps build exactly the copied text. |
| ResultDisplay.AppendPoints | src/components/ResultDisplay.tsx:16-22 | Each point adds its `- ` line and a newline, in order. |
| ResultDisplay.ResultView.HandleCopy | src/components/ResultDisplay.tsx:12-27 | The copied text goes to the clipboard, then the "copied" alert is shown. |
| ResultDisplay.ResultView.constructor | src/components/ResultDisplay.tsx:7-8 | The view shows the record it was given; `showImages` starts false, so no generator is shown; nothing is copied or alerted yet. |
| ResultDisplay.ResultView.ShowImages | src/components/ResultDisplay.tsx:52 | The image button sets `showImages`. |
| ResultDisplay.ResultView.Generators | src/components/ResultDisplay.tsx:121-126 | No generator while `showImages` is false. Otherwise two: the first khutbah's quote as religious, the second's as political. |
| SummarizerForm.Accepts | src/components/SummarizerForm.tsx:18 | The guard holds exactly when both texts are non-blank once trimmed. |
| SummarizerForm.Form.constructor | src/components/SummarizerForm.tsx:13-14 | Both fields start empty. |
| SummarizerForm.Form.SetTexts | src/components/SummarizerForm.tsx:38-50 | The textareas' `onChange`: the two texts become exactly the typed values, untrimmed. |
| SummarizerForm.Form.Submit | src/components/SummarizerForm.tsx:16-23 | A click on the enabled button is always prevented. A blank text alerts and submits nothing. Otherwise `onSubmit` is called once with the untrimmed texts. A disabled button changes nothing. |
| ImageGenerator.DownloadName | src/components/ImageGenerator.tsx:109 | `khutbah_<type>.png`. |
| ImageGenerator.DownloadNamesDistinct | src/components/ImageGenerator.tsx:109 | The two kinds download under different names. |
| ImageGenerator.Generator.constructor | src/components/ImageGenerator.tsx:12 | `isReady` starts false. |
| ImageGenerator.Generator.RunEffect | src/components/ImageGenerator.tsx:14-71 | Nothing without a canvas, a context or a loaded image. Once loaded, the canvas takes the image's size. With a quote it holds the full poster and `isReady` becomes true; without one only the backdrop is drawn (`split` throws) and `isReady` is unchanged. |
| ImageGenerator.Generator.HandleDownload | src/components/ImageGenerator.tsx:102-115 | No-op while not ready or without a canvas. Otherwise the PNG downloads under the type's name, or the error alert is shown. |
| ImageExportService.Quoted | src/services/imageExportService.ts:75 | The quote between « and », two characters longer. |
| ImageExportService.GenerateKhutbahNegasht | src/services/imageExportService.ts:32-85 | No context: rejected with "Canvas context not found", nothing drawn. Load failure: rejected with the load message, nothing drawn. Loaded: the canvas size, then the poster of the date, the name and the quoted text. |
| ImageExportService.QuotedPoster | src/services/imageExportService.ts:46-78 | The success poster's calls and positions; the wrapped lines spell the guillemet-quoted words; the first line starts with «. |
| Utils.PointParagraphsLayout | src/utils.ts:61-84 | Point i gives paragraphs 2i (its heading, bold) and 2i + 1 (its explanation). |
| Utils.ExportToWordLayout | src/utils.ts:13-146 | 7 + 2·N + 2·M paragraphs, in this order: bismillah, intro, title, first heading, the first khutbah's pairs, second heading, its pairs, overall title, overall text. |
| Utils.ExportToWordFormat | src/utils.ts:14-146 | One "B Nazanin" run per paragraph. Bismillah and title are centred, the rest right-aligned. The title is size 32 in colour 2563eb; every other run is size 28 with no colour. Every run is bold except the intro, the explanations and the overall text. |
| Utils.LaidOutFormatted | src/utils.ts:14-146 | Any document laid out that way has that formatting. |
| Utils.ExportToWordReadBack | src/utils.ts:13-146 | Every title, heading, explanation and text reads back from the document; only the quotes are lost. |
| Utils.ExportToImage | src/utils.ts:156-181 | Nothing without the element. Otherwise it is rasterised and downloaded under the given name, or the error alert is shown. |
| Utils.ExportToPdf | src/utils.ts:183-276 | Nothing without the element. The buttons are hidden in the captured styles. The PDF is saved or the error alerted. The buttons' style is restored exactly in every case. |
| Utils.RestoreStyle | src/utils.ts:188-274 | Setting a property and putting back its earlier value restores the declaration. |
| WordExportService.PointParagraphs | src/services/wordExportService.ts:49-69 | One paragraph per point, in order. |
| WordExportService.WordDocumentLayout | src/services/wordExportService.ts:12-128 | N + M + 6 paragraphs: title, preamble, the bare first title, its points, the second title, its points, overall title, overall text. |
| WordExportService.WordDocumentFormat | src/services/wordExportService.ts:12-128 | Every paragraph bidirectional, every run in "B Nazanin". Title centred, bold, size 32. Section titles right-aligned, bold, size 30. The rest justified, size 28. A point is a bold `heading: ` run then a plain explanation run. |
| WordExportService.PointRoundTrip | src/services/wordExportService.ts:56-66 | Reading a point back from its paragraph undoes the heading's `: ` suffix. |
| WordExportService.WordDocumentReadBack | src/services/wordExportService.ts:12-128 | The points and texts read back from the document; only the quotes are lost. |
| WordExportService.GenerateWordDocument | src/services/wordExportService.ts:4-143 | The document built, one `.docx` download, and the body unchanged (the link is attached and removed). |
| ExportUtils.RtlParagraph | src/utils/exportUtils.ts:6-26 | Right-aligned, bidirectional, one right-to-left "B Nazanin" run with the given text, boldness, size and colour. |
| ExportUtils.RtlParagraphDefaults | src/utils/exportUtils.ts:8-10 | The defaults: not bold, size 28, colour 000000. |
| ExportUtils.PointParagraphs | src/utils/exportUtils.ts:54-58 | One plain `- heading: explanation` paragraph per point, in order. |
| ExportUtils.ChildrenLayout | src/utils/exportUtils.ts:32-75 | N + M + 12 paragraphs: the seven opening ones, the first khutbah's points, separator, second heading, its points, separator, overall title, text. The headings are bold-coloured as written. |
| ExportUtils.ChildrenSeparators | src/utils/exportUtils.ts:46-71 | The empty paragraphs are exactly the five separators. |
| ExportUtils.ExportToWord | src/utils/exportUtils.ts:28-88 | The pushes build exactly that list; one `.docx` download. |
| ExportUtils.PushPoints | src/utils/exportUtils.ts:54-69 | The `forEach` pushes one point paragraph per point, in order. |
| ExportUtils.CloneStyle | src/utils/exportUtils.ts:96-115 | The copy is black on white and held at `absolute` / `-9999px`. |
| ExportUtils.Restyled | src/utils/exportUtils.ts:107-111 | Each descendant: black text, transparent background, grey border, no shadows. |
| ExportUtils.RestyledKeepsOthers | src/utils/exportUtils.ts:105-112 | Every other property of a descendant is kept. |
| ExportUtils.RestyleAll | src/utils/exportUtils.ts:104-112 | The in-place loop restyles every descendant. |
| ExportUtils.PrepareClone | src/utils/exportUtils.ts:95-115 | A fresh deep copy with those styles. |
| ExportUtils.ExportToPdf | src/utils/exportUtils.ts:90-144 | Nothing without the element. The original is untouched. The copy is captured while attached. The PDF is saved or the error alerted. The copy is detached in every case. |
| PdfExportService.FragmentsStructure | src/services/pdfExportService.ts:22-42 | One h1 holding the title. Three h2 holding the two khutbah titles and the overall title. N + M + 2 paragraphs: the preamble, each point in order, the overall text. All interpolated verbatim. |
| PdfExportService.PointFragments | src/services/pdfExportService.ts:29-37 | One `<p><strong>heading:</strong> explanation</p>` per point, in order. |
| PdfExportService.InnersAppend | src/services/pdfExportService.ts:22-42 | The elements of a tag in two fragment lists joined are those of each, in order. |
| PdfExportService.BuildHtml | src/services/pdfExportService.ts:22-42 | The `+=` steps build the rendering of that fragment list. |
| PdfExportService.AppendPoints | src/services/pdfExportService.ts:29-37 | Each point appends its paragraph, in order. |
| PdfExportService.GeneratePdfDocument | src/services/pdfExportService.ts:5-67 | A fresh container with the fixed style and that HTML. It is captured while attached. The body is restored in every case. A capture error is rethrown; success saves the PDF. |
| Proxy.Handler | api/proxy.js:5-43 | Always the four fixed headers; status 200, 405 or 500. OPTIONS gives 200 with a null body. Other non-POST methods give 405. An upstream fetch is made exactly for a POST with a parsed body and a key, to the API URL plus the key, with that body. |
| Proxy.PostOutcomes | api/proxy.js:21-42 | A body that does not parse: 500 with its message. Missing key: 500, fixed message. Upstream reply: relayed with 200. Upstream error: 500 with its message. |
| Proxy.UpstreamStatusIgnored | api/proxy.js:37-38 | The upstream's own status never reaches the client. |
| Proxy.OptionsNeverRefused | api/proxy.js:13-19 | OPTIONS is answered before the method guard, so it is never 405. |

## Left out

- The AI clients (`services/gemini.ts`, `src/services/gemini.ts`, `src/services/geminiService.ts`) and `server.ts` are not part of this model: they are network calls and server bootstrapping. The summary arrives as a parameter (`Outcome`, `Reply`), and the proxy's upstream call as `Upstream`.
- JSON parsing and the reply envelope are an oracle that parses or fails.
- The `docx` Packer, file-saver, Blob and object-URL handling, html2canvas, jsPDF and html2pdf are foreign libraries. Paragraphs and HTML are data. A rasterisation is a recorded `Shot` whose outcome (succeeds or throws) is a parameter. A download records only the file name, not the content.
- Canvas coordinates, scale factors, font sizes and line widths are floating point. They are given as an integer `PosterLayout`; fonts, colours, `textAlign` and `lineWidth` are not modelled. `measureText` is an uninterpreted function.
- Date formatting (`Intl.DateTimeFormat`, date-fns-jalali, jalali-moment) and `Date.now()` are parameters.
- React rendering, motion effects, `setTimeout` resets (the `copied` flag and the copy button's label) and CSS semantics (the `pdf-safe-mode` class, `classList` changes other than the hidden flags, and the stylesheet `utils.ts` injects `onclone`) are not modelled.
- `getElementById` and `querySelector` are replaced by the element found, given as a possibly-null parameter.
- ExportJs.ExportToPdf: the element is assumed to exist, as the code assumes (it does not check for null).
- The app.js copy button (`innerText` of the panel), the prompt text and the response schema literal are not modelled.
- ImageExportService.GenerateKhutbahNegasht: the unused `type` parameter is dropped. The quote is a string, so a missing quote is not modelled. A `toDataURL` that throws inside `onload` leaves the promise pending (`Pending`), and the data URL itself is a parameter.
- AppTsx.CopyTextLines and ResultDisplay.CopyTextLines state the intro's lines as `Split(Basmala, '\n') + Split(ReportLine, '\n')` rather than as two literal lines.
- Strings are sequences of Unicode scalar values, while JavaScript strings are UTF-16 code units (an emoji is two units). No stated property depends on this: `split`, `trim` and `replace(/\d/g, …)` act on characters that are one unit each.
- The poster quotes do not appear in any Word or PDF document; the read-back lemmas state that the quotes are the only thing lost.
