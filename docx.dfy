/** The part of the `docx` library's document model the exporters use:
    paragraphs of text runs with alignment, direction, spacing, font, size,
    weight and colour. Packing to a .docx file is not modelled. */
module Docx {
  import opened Sermon

  datatype Alignment = Center | Right | Justified

  /** A `TextRun`; options not given are `None` (the library default). Sizes are
      in half-points, as the library takes them. */
  datatype Run = Run(text: string, font: Option<string>, size: Option<nat>, bold: bool,
                     color: Option<string>, rightToLeft: bool)

  datatype Spacing = Spacing(before: Option<nat>, after: Option<nat>)

  /** A `Paragraph`. */
  datatype Paragraph = Paragraph(alignment: Option<Alignment>, bidirectional: bool,
                                 spacing: Spacing, runs: seq<Run>)

  const NoSpacing: Spacing := Spacing(None, None)

  /** `new Paragraph({ text })`: one run of plain text, every option left at its default. */
  function TextParagraph(text: string): (p: Paragraph)
    ensures p.runs == [Run(text, None, None, false, None, false)]
    ensures p.alignment == None && !p.bidirectional && p.spacing == NoSpacing
  {
    Paragraph(None, false, NoSpacing, [Run(text, None, None, false, None, false)])
  }
}
