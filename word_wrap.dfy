/** The greedy word wrap of the poster compositor (`wrapText`, and the same loop
    inlined in `generateInfographic`), over a canvas modelled as a log of draw
    calls. `measureText` is an uninterpreted width function on strings. */
module WordWrap {
  import opened Strings

  /** One drawing call issued on the 2d context. */
  datatype Draw =
    | Image(x: int, y: int)                  // ctx.drawImage(img, x, y)
    | Stroke(text: string, x: int, y: int)   // ctx.strokeText(text, x, y)
    | Fill(text: string, x: int, y: int)     // ctx.fillText(text, x, y)

  /** A canvas element with its 2d context: its size, everything drawn on it
      since its bitmap was last reset, and the text-measuring function of the
      font in force. */
  class Canvas {
    var width: int
    var height: int
    var log: seq<Draw>
    const measure: string -> int

    /** A fresh `<canvas>` (300 by 150 pixels until resized). */
    constructor (measure: string -> int)
      ensures this.measure == measure && log == [] && width == 300 && height == 150
    {
      this.measure := measure;
      width, height, log := 300, 150, [];
    }

    /** `canvas.width = w; canvas.height = h`: setting the size clears the bitmap. */
    method SetSize(w: int, h: int)
      modifies this
      ensures width == w && height == h && log == []
    {
      width, height, log := w, h, [];
    }

    method DrawImage(x: int, y: int)
      modifies this`log
      ensures log == old(log) + [Image(x, y)]
    {
      log := log + [Image(x, y)];
    }

    method StrokeText(text: string, x: int, y: int)
      modifies this`log
      ensures log == old(log) + [Stroke(text, x, y)]
    {
      log := log + [Stroke(text, x, y)];
    }

    method FillText(text: string, x: int, y: int)
      modifies this`log
      ensures log == old(log) + [Fill(text, x, y)]
    {
      log := log + [Fill(text, x, y)];
    }

    /** The compositor's `drawText`: outline the text, then fill it at the same point. */
    method OutlineText(text: string, x: int, y: int)
      modifies this`log
      ensures log == old(log) + Outlined(text, x, y)
    {
      StrokeText(text, x, y);
      FillText(text, x, y);
    }

    /** `ctx.measureText(text).width`. */
    function MeasureText(text: string): int { measure(text) }
  }

  /** Outline then fill one text at one position, as every text draw of the
      compositor does. */
  function Outlined(text: string, x: int, y: int): seq<Draw> { [Stroke(text, x, y), Fill(text, x, y)] }

  // ---------------------------------------------------------------------------
  // The greedy algorithm as a function of the word list

  function Last<T>(s: seq<T>): T requires |s| > 0 { s[|s| - 1] }

  /** The text of a line: each of its words followed by one space. */
  function Spaced(words: seq<string>): string
    decreases |words|
  {
    if |words| == 0 then "" else Spaced(words[..|words| - 1]) + words[|words| - 1] + " "
  }

  lemma {:induction false} SpacedAppend(a: seq<string>, b: seq<string>)
    ensures Spaced(a + b) == Spaced(a) + Spaced(b)
    decreases |b|
  {
    if |b| > 0 {
      assert (a + b)[..|a + b| - 1] == a + b[..|b| - 1];
      SpacedAppend(a, b[..|b| - 1]);
    } else {
      assert a + b == a;
    }
  }

  /** The lines, as word lists, that the loop produces for `words` when
      `width` measures text and `maxWidth` is the limit. Word `n` is appended to
      the current line unless the extended line is wider than `maxWidth` and
      `n > 0`, in which case the current line is committed and word `n` starts
      the next one. */
  function Wrap(words: seq<string>, width: string -> int, maxWidth: int): (lines: seq<seq<string>>)
    ensures |lines| == 0 <==> |words| == 0
    ensures |lines| <= |words|
    decreases |words|
  {
    if |words| == 0 then []
    else Step(Wrap(words[..|words| - 1], width, maxWidth), words[|words| - 1], width, maxWidth)
  }

  /** One word more: it starts the first line, starts a new line when the
      current one extended by it would be wider than `maxWidth`, and otherwise
      extends the current line. */
  function Step(prev: seq<seq<string>>, w: string, width: string -> int, maxWidth: int): (lines: seq<seq<string>>)
    ensures 0 < |lines| <= |prev| + 1
  {
    if |prev| == 0 then [[w]]
    else if width(Spaced(Last(prev)) + w + " ") > maxWidth then prev + [[w]]
    else prev[..|prev| - 1] + [Last(prev) + [w]]
  }

  /** Every extension of `line` beyond its first word was at most `maxWidth` wide. */
  ghost predicate LineFits(line: seq<string>, width: string -> int, maxWidth: int) {
    forall j :: 2 <= j <= |line| ==> width(Spaced(line[..j])) <= maxWidth
  }

  /** Adding the word `next` to `line` would make it wider than `maxWidth`. */
  ghost predicate Overflows(line: seq<string>, next: string, width: string -> int, maxWidth: int) {
    width(Spaced(line) + next + " ") > maxWidth
  }

  /** No line is empty and every line grew only while it fitted. */
  ghost predicate AllFit(lines: seq<seq<string>>, width: string -> int, maxWidth: int) {
    forall k :: 0 <= k < |lines| ==> |lines[k]| > 0 && LineFits(lines[k], width, maxWidth)
  }

  /** A line ends only where its next word would overflow. */
  ghost predicate BreaksForced(lines: seq<seq<string>>, width: string -> int, maxWidth: int) {
    forall k :: 0 <= k < |lines| - 1 && |lines[k + 1]| > 0 ==> Overflows(lines[k], lines[k + 1][0], width, maxWidth)
  }

  /** What a greedy wrap of `words` is, independently of how it is computed:
      the lines hold the words in order, no line is empty, every line grew only
      while it fitted, and a line ends only where its next word would overflow. */
  ghost predicate IsGreedyWrap(words: seq<string>, width: string -> int, maxWidth: int, lines: seq<seq<string>>) {
    && Flatten(lines) == words
    && AllFit(lines, width, maxWidth)
    && BreaksForced(lines, width, maxWidth)
  }

  lemma FlattenSnoc(lines: seq<seq<string>>, line: seq<string>)
    ensures Flatten(lines + [line]) == Flatten(lines) + line
  {
    assert (lines + [line])[..|lines|] == lines;
  }

  /** The line-wise properties of `lines + [line]` in terms of those of `lines`. */
  lemma SnocParts(lines: seq<seq<string>>, line: seq<string>, width: string -> int, maxWidth: int)
    ensures AllFit(lines + [line], width, maxWidth) <==>
            AllFit(lines, width, maxWidth) && |line| > 0 && LineFits(line, width, maxWidth)
    ensures BreaksForced(lines + [line], width, maxWidth) <==>
            BreaksForced(lines, width, maxWidth) &&
            (|lines| > 0 && |line| > 0 ==> Overflows(Last(lines), line[0], width, maxWidth))
  {
    var all := lines + [line];
    assert forall k :: 0 <= k < |lines| ==> all[k] == lines[k];
    assert all[|lines|] == line;
  }

  /** Dropping the last line keeps the line-wise properties. */
  lemma DropLastParts(lines: seq<seq<string>>, width: string -> int, maxWidth: int)
    requires |lines| > 0
    requires AllFit(lines, width, maxWidth) && BreaksForced(lines, width, maxWidth)
    ensures AllFit(lines[..|lines| - 1], width, maxWidth) && BreaksForced(lines[..|lines| - 1], width, maxWidth)
    ensures LineFits(Last(lines), width, maxWidth) && |Last(lines)| > 0
    ensures |lines| > 1 ==> Overflows(lines[|lines| - 2], Last(lines)[0], width, maxWidth)
  {
    var before := lines[..|lines| - 1];
    assert lines == before + [Last(lines)];
    SnocParts(before, Last(lines), width, maxWidth);
  }

  /** A line that fitted still fits without its last word. */
  lemma ShorterFits(line: seq<string>, width: string -> int, maxWidth: int)
    requires |line| > 0 && LineFits(line, width, maxWidth)
    ensures LineFits(line[..|line| - 1], width, maxWidth)
  {
    var shorter := line[..|line| - 1];
    forall j | 2 <= j <= |shorter| ensures width(Spaced(shorter[..j])) <= maxWidth {
      assert shorter[..j] == line[..j];
    }
  }

  /** A line that fitted, extended by a word that fits, still fits. */
  lemma LongerFits(line: seq<string>, w: string, width: string -> int, maxWidth: int)
    requires |line| > 0 && LineFits(line, width, maxWidth)
    requires width(Spaced(line) + w + " ") <= maxWidth
    ensures LineFits(line + [w], width, maxWidth)
  {
    var longer := line + [w];
    forall j | 2 <= j <= |longer| ensures width(Spaced(longer[..j])) <= maxWidth {
      if j <= |line| {
        assert longer[..j] == line[..j];
      } else {
        assert longer[..j] == longer;
      }
    }
    SpacedSnoc(line, w);
  }

  /** The loop's lines are a greedy wrap. */
  lemma {:induction false} WrapIsGreedy(words: seq<string>, width: string -> int, maxWidth: int)
    ensures IsGreedyWrap(words, width, maxWidth, Wrap(words, width, maxWidth))
    decreases |words|
  {
    if |words| > 0 {
      var init := words[..|words| - 1];
      WrapIsGreedy(init, width, maxWidth);
      assert words == init + [words[|words| - 1]];
      StepIsGreedy(init, words[|words| - 1], width, maxWidth, Wrap(init, width, maxWidth));
    }
  }

  /** One step keeps a greedy wrap greedy. */
  lemma StepIsGreedy(init: seq<string>, w: string, width: string -> int, maxWidth: int, prev: seq<seq<string>>)
    requires IsGreedyWrap(init, width, maxWidth, prev)
    ensures IsGreedyWrap(init + [w], width, maxWidth, Step(prev, w, width, maxWidth))
  {
    if |prev| == 0 {
      assert Step(prev, w, width, maxWidth) == [] + [[w]];
      GreedyStart(init, w, width, maxWidth);
    } else if width(Spaced(Last(prev)) + w + " ") > maxWidth {
      GreedyBreak(init, w, width, maxWidth, prev);
    } else {
      GreedyExtend(init, w, width, maxWidth, prev);
    }
  }

  /** The first word starts the first line. */
  lemma GreedyStart(init: seq<string>, w: string, width: string -> int, maxWidth: int)
    requires IsGreedyWrap(init, width, maxWidth, [])
    ensures IsGreedyWrap(init + [w], width, maxWidth, [] + [[w]])
  {
    FlattenSnoc([], [w]);
    SnocParts([], [w], width, maxWidth);
  }

  /** A word that overflows the last line starts a new one. */
  lemma GreedyBreak(init: seq<string>, w: string, width: string -> int, maxWidth: int, prev: seq<seq<string>>)
    requires |prev| > 0 && IsGreedyWrap(init, width, maxWidth, prev)
    requires Overflows(Last(prev), w, width, maxWidth)
    ensures IsGreedyWrap(init + [w], width, maxWidth, prev + [[w]])
  {
    FlattenSnoc(prev, [w]);
    SnocParts(prev, [w], width, maxWidth);
  }

  /** A word that fits on the last line extends it. */
  lemma GreedyExtend(init: seq<string>, w: string, width: string -> int, maxWidth: int, prev: seq<seq<string>>)
    requires |prev| > 0 && IsGreedyWrap(init, width, maxWidth, prev)
    requires width(Spaced(Last(prev)) + w + " ") <= maxWidth
    ensures IsGreedyWrap(init + [w], width, maxWidth, prev[..|prev| - 1] + [Last(prev) + [w]])
  {
    var before := prev[..|prev| - 1];
    var line := Last(prev);
    assert prev == before + [line];
    DropLastParts(prev, width, maxWidth);
    LongerFits(line, w, width, maxWidth);
    SnocParts(before, line + [w], width, maxWidth);
    if |before| > 0 {
      assert Last(before) == prev[|prev| - 2];
    }
    FlattenSnoc(before, line);
    FlattenSnoc(before, line + [w]);
  }

  lemma FlattenEmpty(lines: seq<seq<string>>)
    requires forall k :: 0 <= k < |lines| ==> |lines[k]| > 0
    requires Flatten(lines) == []
    ensures lines == []
  {
  }

  /** Dropping a final one-word line of a greedy wrap leaves a greedy wrap of
      the other words. */
  lemma GreedyDropLast(words: seq<string>, width: string -> int, maxWidth: int, lines: seq<seq<string>>)
    requires |words| > 0 && |lines| > 0
    requires IsGreedyWrap(words, width, maxWidth, lines)
    requires |Last(lines)| == 1
    ensures IsGreedyWrap(words[..|words| - 1], width, maxWidth, lines[..|lines| - 1])
  {
    var before := lines[..|lines| - 1];
    assert lines == before + [Last(lines)];
    FlattenSnoc(before, Last(lines));
    DropLastParts(lines, width, maxWidth);
  }

  /** Removing the last word from a final line of several words leaves a greedy
      wrap of the other words. */
  lemma GreedyShorten(words: seq<string>, width: string -> int, maxWidth: int, lines: seq<seq<string>>)
    requires |words| > 0 && |lines| > 0
    requires IsGreedyWrap(words, width, maxWidth, lines)
    requires |Last(lines)| > 1
    ensures var line := Last(lines);
            IsGreedyWrap(words[..|words| - 1], width, maxWidth, lines[..|lines| - 1] + [line[..|line| - 1]])
  {
    var before := lines[..|lines| - 1];
    var line := Last(lines);
    var shorter := line[..|line| - 1];
    assert lines == before + [line];
    assert line == shorter + [Last(line)];
    assert words == words[..|words| - 1] + [Last(words)];
    FlattenSnoc(before, line);
    FlattenSnoc(before, shorter);
    DropLastParts(lines, width, maxWidth);
    ShorterFits(line, width, maxWidth);
    SnocParts(before, shorter, width, maxWidth);
    if |before| > 0 {
      assert Last(before) == lines[|lines| - 2];
      assert shorter[0] == line[0];
    }
  }

  lemma SpacedSnoc(line: seq<string>, w: string)
    ensures Spaced(line + [w]) == Spaced(line) + w + " "
  {
    assert (line + [w])[..|line|] == line;
  }

  /** A greedy wrap is unique: any line split with the four properties is the
      one the loop produces. */
  lemma {:induction false} GreedyIsWrap(words: seq<string>, width: string -> int, maxWidth: int, lines: seq<seq<string>>)
    requires IsGreedyWrap(words, width, maxWidth, lines)
    ensures lines == Wrap(words, width, maxWidth)
    decreases |words|
  {
    if |words| == 0 {
      FlattenEmpty(lines);
    } else {
      var init := words[..|words| - 1];
      var before := lines[..|lines| - 1];
      var line := Last(lines);
      if |line| == 1 {
        GreedyDropLast(words, width, maxWidth, lines);
        GreedyIsWrap(init, width, maxWidth, before);
        WrapAfterSingle(words, width, maxWidth, lines);
      } else {
        GreedyShorten(words, width, maxWidth, lines);
        GreedyIsWrap(init, width, maxWidth, before + [line[..|line| - 1]]);
        WrapAfterLonger(words, width, maxWidth, lines);
      }
    }
  }

  /** The induction step of the uniqueness proof when the last line is one word. */
  lemma WrapAfterSingle(words: seq<string>, width: string -> int, maxWidth: int, lines: seq<seq<string>>)
    requires |words| > 0 && |lines| > 0 && |Last(lines)| == 1
    requires IsGreedyWrap(words, width, maxWidth, lines)
    requires lines[..|lines| - 1] == Wrap(words[..|words| - 1], width, maxWidth)
    ensures lines == Wrap(words, width, maxWidth)
  {
    var before := lines[..|lines| - 1];
    var w := Last(words);
    assert lines == before + [Last(lines)];
    FlattenSnoc(before, Last(lines));
    DropLastParts(lines, width, maxWidth);
    assert Last(lines) == [w];
    if |before| > 0 {
      assert Last(before) == lines[|lines| - 2];
    }
  }

  /** The induction step of the uniqueness proof when the last line has several words. */
  lemma WrapAfterLonger(words: seq<string>, width: string -> int, maxWidth: int, lines: seq<seq<string>>)
    requires |words| > 0 && |lines| > 0 && |Last(lines)| > 1
    requires IsGreedyWrap(words, width, maxWidth, lines)
    requires var line := Last(lines);
             lines[..|lines| - 1] + [line[..|line| - 1]] == Wrap(words[..|words| - 1], width, maxWidth)
    ensures lines == Wrap(words, width, maxWidth)
  {
    var before := lines[..|lines| - 1];
    var line := Last(lines);
    var shorter := line[..|line| - 1];
    var w := Last(words);
    var prev := before + [shorter];
    assert lines == before + [line];
    FlattenSnoc(before, line);
    assert words == words[..|words| - 1] + [w];
    assert line == shorter + [w];
    DropLastParts(lines, width, maxWidth);
    assert line[..|line|] == line;
    SpacedSnoc(shorter, w);
    assert width(Spaced(shorter) + w + " ") <= maxWidth;
    assert prev[..|prev| - 1] == before && Last(prev) == shorter;
  }

  /** The line texts the loop draws, in order. */
  function Texts(lines: seq<seq<string>>): (texts: seq<string>)
    ensures |texts| == |lines|
  {
    seq(|lines|, k requires 0 <= k < |lines| => Spaced(lines[k]))
  }

  /** Concatenating the drawn lines gives every word followed by one space, in
      the original order: no word is dropped, repeated or split. */
  lemma {:induction false} LinesSpellWords(lines: seq<seq<string>>)
    ensures Concat(Texts(lines)) == Spaced(Flatten(lines))
    decreases |lines|
  {
    if |lines| > 0 {
      var init := lines[..|lines| - 1];
      LinesSpellWords(init);
      assert Texts(lines)[..|lines| - 1] == Texts(init);
      SpacedAppend(Flatten(init), Last(lines));
    }
  }

  /** The properties of one wrap of a quote: at least one line, the first line
      starts with the first word, the lines spell the words in order, each line
      is a single word or was at most `maxWidth` wide, and each break was forced. */
  lemma WrapProperties(text: string, width: string -> int, maxWidth: int)
    ensures var words := Split(text, ' ');
            var lines := Wrap(words, width, maxWidth);
            && |lines| >= 1
            && (forall k :: 0 <= k < |lines| ==> |lines[k]| > 0)
            && lines[0][0] == words[0]
            && Concat(Texts(lines)) == Spaced(words)
            && (forall k :: 0 <= k < |lines| ==> |lines[k]| == 1 || width(Texts(lines)[k]) <= maxWidth)
            && (forall k :: 0 <= k < |lines| - 1 ==> width(Texts(lines)[k] + lines[k + 1][0] + " ") > maxWidth)
  {
    var words := Split(text, ' ');
    var lines := Wrap(words, width, maxWidth);
    WrapIsGreedy(words, width, maxWidth);
    LinesSpellWords(lines);
    FirstOfFlatten(lines);
    FitsAsTexts(lines, width, maxWidth);
    BreaksAsTexts(lines, width, maxWidth);
  }

  /** A line that fitted was, as drawn, at most `maxWidth` wide unless it is one word. */
  lemma FitsAsTexts(lines: seq<seq<string>>, width: string -> int, maxWidth: int)
    requires AllFit(lines, width, maxWidth)
    ensures forall k :: 0 <= k < |lines| ==> |lines[k]| == 1 || width(Texts(lines)[k]) <= maxWidth
  {
    forall k | 0 <= k < |lines| ensures |lines[k]| == 1 || width(Texts(lines)[k]) <= maxWidth {
      assert LineFits(lines[k], width, maxWidth);
      assert lines[k][..|lines[k]|] == lines[k];
    }
  }

  /** A forced break, as drawn: the line's text with the next word would overflow. */
  lemma BreaksAsTexts(lines: seq<seq<string>>, width: string -> int, maxWidth: int)
    requires AllFit(lines, width, maxWidth) && BreaksForced(lines, width, maxWidth)
    ensures forall k :: 0 <= k < |lines| - 1 ==> width(Texts(lines)[k] + lines[k + 1][0] + " ") > maxWidth
  {
    forall k | 0 <= k < |lines| - 1 ensures width(Texts(lines)[k] + lines[k + 1][0] + " ") > maxWidth {
      assert |lines[k + 1]| > 0;
    }
  }

  lemma {:induction false} FirstOfFlatten(lines: seq<seq<string>>)
    requires |lines| > 0 && forall k :: 0 <= k < |lines| ==> |lines[k]| > 0
    ensures |Flatten(lines)| > 0 && Flatten(lines)[0] == lines[0][0]
    decreases |lines|
  {
    if |lines| > 1 {
      var init := lines[..|lines| - 1];
      FirstOfFlatten(init);
    }
  }

  // ---------------------------------------------------------------------------
  // Drawing the lines

  /** The calls that draw `texts` from `(x, y)` down: line `k` outlined then
      filled at `y + k * lineHeight`. */
  function DrawLines(texts: seq<string>, x: int, y: int, lineHeight: int): seq<Draw>
    decreases |texts|
  {
    if |texts| == 0 then []
    else DrawLines(texts[..|texts| - 1], x, y, lineHeight) + Outlined(Last(texts), x, y + (|texts| - 1) * lineHeight)
  }

  /** Every line is drawn, however many there are: stroke then fill, at the
      same point, line `k` at `y + k * lineHeight`. */
  lemma {:induction false} DrawLinesAt(texts: seq<string>, x: int, y: int, lineHeight: int)
    ensures |DrawLines(texts, x, y, lineHeight)| == 2 * |texts|
    ensures forall k :: 0 <= k < |texts| ==>
      DrawLines(texts, x, y, lineHeight)[2 * k] == Stroke(texts[k], x, y + k * lineHeight) &&
      DrawLines(texts, x, y, lineHeight)[2 * k + 1] == Fill(texts[k], x, y + k * lineHeight)
    decreases |texts|
  {
    if |texts| > 0 {
      var init := texts[..|texts| - 1];
      DrawLinesAt(init, x, y, lineHeight);
      forall k | 0 <= k < |init| ensures init[k] == texts[k] { }
    }
  }

  lemma DrawLinesStep(lines: seq<seq<string>>, x: int, y: int, lineHeight: int)
    requires |lines| > 0
    ensures DrawLines(Texts(lines), x, y, lineHeight) ==
      DrawLines(Texts(lines[..|lines| - 1]), x, y, lineHeight) +
      Outlined(Spaced(Last(lines)), x, y + (|lines| - 1) * lineHeight)
  {
    assert Texts(lines)[..|lines| - 1] == Texts(lines[..|lines| - 1]);
  }

  /** How one more word changes the lines: a new line on overflow, otherwise
      the last line grows by that word. */
  lemma WrapNext(words: seq<string>, n: nat, width: string -> int, maxWidth: int)
    requires 0 < n < |words|
    ensures var lines := Wrap(words[..n], width, maxWidth);
            var next := Wrap(words[..n + 1], width, maxWidth);
            && |lines| > 0
            && (width(Spaced(Last(lines)) + words[n] + " ") > maxWidth ==>
                  next[..|next| - 1] == lines && Last(next) == [words[n]] && |next| == |lines| + 1)
            && (width(Spaced(Last(lines)) + words[n] + " ") <= maxWidth ==>
                  next[..|next| - 1] == lines[..|lines| - 1] && |next| == |lines| &&
                  Spaced(Last(next)) == Spaced(Last(lines)) + words[n] + " ")
  {
    assert words[..n + 1][..n] == words[..n];
    var lines := Wrap(words[..n], width, maxWidth);
    assert Wrap(words[..n + 1], width, maxWidth) == Step(lines, words[n], width, maxWidth);
    SpacedSnoc(Last(lines), words[n]);
  }

  /** `wrapText(ctx, text, x, y, maxWidth, lineHeight)`: split `text` at single
      spaces and draw the greedy wrap's lines, outlined then filled, the first at
      `y` and each next one `lineHeight` lower. */
  method WrapText(ctx: Canvas, text: string, x: int, y: int, maxWidth: int, lineHeight: int)
    modifies ctx`log
    ensures ctx.log == old(ctx.log) +
      DrawLines(Texts(Wrap(Split(text, ' '), ctx.measure, maxWidth)), x, y, lineHeight)
  {
    var words := Split(text, ' ');
    var line := "";
    var currentY := y;
    var n := 0;
    ghost var log0, measure := ctx.log, ctx.measure;
    ghost var ok := LoopState(words, n, measure, maxWidth, ctx.log, log0, line, currentY, x, y, lineHeight);
    while n < |words|
      invariant ok && ok == LoopState(words, n, measure, maxWidth, ctx.log, log0, line, currentY, x, y, lineHeight)
    {
      var testLine := line + words[n] + " ";
      var testWidth := ctx.MeasureText(testLine);
      ghost var log := ctx.log;
      if testWidth > maxWidth && n > 0 {
        ctx.OutlineText(line, x, currentY);
        LoopBreak(words, n, measure, maxWidth, log, log0, line, currentY, x, y, lineHeight);
        line := words[n] + " ";
        currentY := currentY + lineHeight;
      } else {
        LoopExtend(words, n, measure, maxWidth, log, log0, line, currentY, x, y, lineHeight);
        line := testLine;
      }
      n := n + 1;
      ok := LoopState(words, n, measure, maxWidth, ctx.log, log0, line, currentY, x, y, lineHeight);
    }
    ghost var log := ctx.log;
    ctx.OutlineText(line, x, currentY);
    LoopFinish(words, measure, maxWidth, log, log0, line, currentY, x, y, lineHeight);
  }

  /** The loop's state after `n` words: nothing drawn yet before the first,
      and after that `WrapState` of the lines of the words so far. */
  ghost predicate LoopState(words: seq<string>, n: int, measure: string -> int, maxWidth: int,
                            log: seq<Draw>, log0: seq<Draw>, line: string, currentY: int,
                            x: int, y: int, lineHeight: int) {
    && 0 <= n <= |words|
    && (n == 0 ==> line == "" && currentY == y && log == log0)
    && (n > 0 ==> WrapState(log, log0, Wrap(words[..n], measure, maxWidth), line, currentY, x, y, lineHeight))
  }

  /** A forced break keeps `LoopState`: the current line is drawn and word
      `n` starts the next line one `lineHeight` lower. */
  lemma LoopBreak(words: seq<string>, n: int, measure: string -> int, maxWidth: int,
                  log: seq<Draw>, log0: seq<Draw>, line: string, currentY: int, x: int, y: int, lineHeight: int)
    requires 0 < n < |words| && measure(line + words[n] + " ") > maxWidth
    requires LoopState(words, n, measure, maxWidth, log, log0, line, currentY, x, y, lineHeight)
    ensures LoopState(words, n + 1, measure, maxWidth, log + Outlined(line, x, currentY), log0,
                      words[n] + " ", currentY + lineHeight, x, y, lineHeight)
  {
    WrapNext(words, n, measure, maxWidth);
    BreakKeepsState(log, log0, Wrap(words[..n], measure, maxWidth), Wrap(words[..n + 1], measure, maxWidth),
                    line, currentY, x, y, lineHeight);
  }

  /** Otherwise word `n` extends the current line, or starts the first one. */
  lemma LoopExtend(words: seq<string>, n: int, measure: string -> int, maxWidth: int,
                   log: seq<Draw>, log0: seq<Draw>, line: string, currentY: int, x: int, y: int, lineHeight: int)
    requires 0 <= n < |words| && (n == 0 || measure(line + words[n] + " ") <= maxWidth)
    requires LoopState(words, n, measure, maxWidth, log, log0, line, currentY, x, y, lineHeight)
    ensures LoopState(words, n + 1, measure, maxWidth, log, log0, line + words[n] + " ", currentY, x, y, lineHeight)
  {
    var next := Wrap(words[..n + 1], measure, maxWidth);
    if n == 0 {
      assert words[..1] == [] + [words[0]];
      assert next == [[words[0]]];
      assert Spaced([words[0]]) == Spaced([]) + words[0] + " ";
      assert next[..0] == [];
    } else {
      WrapNext(words, n, measure, maxWidth);
    }
  }

  /** After the last word the last line is drawn, and then every line is. */
  lemma LoopFinish(words: seq<string>, measure: string -> int, maxWidth: int,
                   log: seq<Draw>, log0: seq<Draw>, line: string, currentY: int,
                   x: int, y: int, lineHeight: int)
    requires |words| > 0
    requires LoopState(words, |words|, measure, maxWidth, log, log0, line, currentY, x, y, lineHeight)
    ensures log + Outlined(line, x, currentY) == log0 + DrawLines(Texts(Wrap(words, measure, maxWidth)), x, y, lineHeight)
  {
    assert words[..|words|] == words;
    FinishState(log, log0, Wrap(words, measure, maxWidth), line, currentY, x, y, lineHeight);
  }

  /** The loop's state after some words: `line` is the last line's text, drawn
      at `currentY`, and every earlier line is already on the canvas. */
  ghost predicate WrapState(log: seq<Draw>, log0: seq<Draw>, lines: seq<seq<string>>, line: string,
                            currentY: int, x: int, y: int, lineHeight: int) {
    && |lines| > 0
    && line == Spaced(Last(lines))
    && currentY == y + (|lines| - 1) * lineHeight
    && log == log0 + DrawLines(Texts(lines[..|lines| - 1]), x, y, lineHeight)
  }

  lemma BreakKeepsState(log: seq<Draw>, log0: seq<Draw>, lines: seq<seq<string>>, next: seq<seq<string>>,
                        line: string, currentY: int, x: int, y: int, lineHeight: int)
    requires WrapState(log, log0, lines, line, currentY, x, y, lineHeight)
    requires |next| == |lines| + 1 && next[..|next| - 1] == lines && |Last(next)| == 1
    ensures WrapState(log + Outlined(line, x, currentY), log0, next, Last(next)[0] + " ",
                      currentY + lineHeight, x, y, lineHeight)
  {
    DrawLinesStep(lines, x, y, lineHeight);
    assert Last(next) == [Last(next)[0]];
    assert Spaced([Last(next)[0]]) == Spaced([]) + Last(next)[0] + " ";
  }

  lemma FinishState(log: seq<Draw>, log0: seq<Draw>, lines: seq<seq<string>>, line: string,
                    currentY: int, x: int, y: int, lineHeight: int)
    requires WrapState(log, log0, lines, line, currentY, x, y, lineHeight)
    ensures log + Outlined(line, x, currentY) == log0 + DrawLines(Texts(lines), x, y, lineHeight)
  {
    DrawLinesStep(lines, x, y, lineHeight);
  }

  // ---------------------------------------------------------------------------
  // The poster: background, date line, name line, wrapped quote

  /** The outcome of loading the background image: `onload` with the image's
      size, or `onerror`. */
  datatype ImageLoad = Loaded(width: nat, height: nat) | LoadFailed

  /** Where the poster's texts go: the text anchor's x, the date line, the
      name line, the first quote line, the quote's line spacing and its
      maximum width. The sources derive these from the image size in floating
      point; here they are given. */
  datatype PosterLayout = PosterLayout(x: int, dateY: int, nameY: int, quoteY: int,
                                       lineHeight: int, maxWidth: int)

  /** The quote's lines: the quote split at spaces and wrapped greedily. */
  function QuoteLines(quote: string, layout: PosterLayout, measure: string -> int): seq<seq<string>> {
    Wrap(Split(quote, ' '), measure, layout.maxWidth)
  }

  /** The background image, then the date and the name, each outlined then filled. */
  function Backdrop(date: string, name: string, layout: PosterLayout): seq<Draw> {
    [Image(0, 0)] + Outlined(date, layout.x, layout.dateY) + Outlined(name, layout.x, layout.nameY)
  }

  /** Everything drawn on a finished poster, in order: the backdrop and the
      quote's lines. */
  function Poster(date: string, name: string, quote: string, layout: PosterLayout, measure: string -> int): seq<Draw> {
    Backdrop(date, name, layout) + DrawLines(Texts(QuoteLines(quote, layout, measure)), layout.x, layout.quoteY, layout.lineHeight)
  }

  /** A poster's draw calls: the background at the origin, the date and the
      name (stroke before fill), then each quote line outlined and filled
      `lineHeight` below the previous one; there is at least one quote line,
      and together the lines spell the quote's words in order, each followed
      by a space. */
  lemma PosterDraws(date: string, name: string, quote: string, layout: PosterLayout, measure: string -> int)
    ensures var log, lines := Poster(date, name, quote, layout, measure), QuoteLines(quote, layout, measure);
      && |lines| >= 1
      && |log| == 5 + 2 * |lines|
      && log[0] == Image(0, 0)
      && log[1] == Stroke(date, layout.x, layout.dateY) && log[2] == Fill(date, layout.x, layout.dateY)
      && log[3] == Stroke(name, layout.x, layout.nameY) && log[4] == Fill(name, layout.x, layout.nameY)
      && (forall k :: 0 <= k < |lines| ==>
            log[5 + 2 * k] == Stroke(Texts(lines)[k], layout.x, layout.quoteY + k * layout.lineHeight)
            && log[6 + 2 * k] == Fill(Texts(lines)[k], layout.x, layout.quoteY + k * layout.lineHeight))
      && Concat(Texts(lines)) == Spaced(Split(quote, ' '))
  {
    var lines := QuoteLines(quote, layout, measure);
    assert |lines| >= 1 && Concat(Texts(lines)) == Spaced(Split(quote, ' ')) by {
      WrapProperties(quote, measure, layout.maxWidth);
    }
    AfterHead(Backdrop(date, name, layout), Texts(lines), layout.x, layout.quoteY, layout.lineHeight);
  }

  /** Lines drawn after five other calls sit at offset five, two calls each. */
  lemma AfterHead(head: seq<Draw>, texts: seq<string>, x: int, y: int, lineHeight: int)
    requires |head| == 5
    ensures var log := head + DrawLines(texts, x, y, lineHeight);
      && |log| == 5 + 2 * |texts|
      && (forall k :: 0 <= k < |texts| ==>
            log[5 + 2 * k] == Stroke(texts[k], x, y + k * lineHeight)
            && log[6 + 2 * k] == Fill(texts[k], x, y + k * lineHeight))
  {
    var draws := DrawLines(texts, x, y, lineHeight);
    DrawLinesAt(texts, x, y, lineHeight);
    forall k | 0 <= k < |texts|
      ensures (head + draws)[5 + 2 * k] == draws[2 * k] && (head + draws)[6 + 2 * k] == draws[2 * k + 1]
    {
    }
  }

  /** The start of an `onload` handler: the canvas takes the image's size
      (which clears it), then the background, the date and the name are drawn. */
  method DrawBackdrop(canvas: Canvas, load: ImageLoad, date: string, name: string, layout: PosterLayout)
    requires load.Loaded?
    modifies canvas
    ensures canvas.width == load.width && canvas.height == load.height
    ensures canvas.log == Backdrop(date, name, layout)
  {
    canvas.SetSize(load.width, load.height);
    canvas.DrawImage(0, 0);
    canvas.OutlineText(date, layout.x, layout.dateY);
    canvas.OutlineText(name, layout.x, layout.nameY);
  }

  /** A whole `onload` handler: the backdrop, then `wrapText` of the quote. */
  method DrawPoster(canvas: Canvas, load: ImageLoad, date: string, name: string, quote: string, layout: PosterLayout)
    requires load.Loaded?
    modifies canvas
    ensures canvas.width == load.width && canvas.height == load.height
    ensures canvas.log == Poster(date, name, quote, layout, canvas.measure)
  {
    DrawBackdrop(canvas, load, date, name, layout);
    WrapText(canvas, quote, layout.x, layout.quoteY, layout.maxWidth, layout.lineHeight);
  }
}
