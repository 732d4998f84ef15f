/** The summary record every view and export consumes (the `SermonData` /
    `SummaryResponse` shape). The three variants of the source name the poster
    quote `bestQuote`, `khutbahNQuote` or `quote`, and the structured-output
    schema does not require it, so here it is an optional field of each khutbah. */
module Sermon {

  datatype Option<T> = None | Some(value: T)

  /** One summary point: `{heading, explanation}`. */
  datatype Point = Point(heading: string, explanation: string)

  /** One khutbah's summary: its title, its ordered points and its poster quote. */
  datatype Khutbah = Khutbah(title: string, summary: seq<Point>, quote: Option<string>)

  datatype Overall = Overall(title: string, text: string)

  datatype Record = Record(impactfulTitle: string, khutbah1: Khutbah, khutbah2: Khutbah, overall: Overall)

  /** JavaScript truthiness of an optional string: present and not empty. */
  predicate Truthy(s: Option<string>) { s.Some? && s.value != "" }

  /** No text of the report holds a line break. */
  predicate SingleLine(r: Record) {
    && '\n' !in r.impactfulTitle && '\n' !in r.khutbah1.title && '\n' !in r.khutbah2.title
    && '\n' !in r.overall.title && '\n' !in r.overall.text
    && (forall i :: 0 <= i < |r.khutbah1.summary| ==>
          '\n' !in r.khutbah1.summary[i].heading && '\n' !in r.khutbah1.summary[i].explanation)
    && (forall i :: 0 <= i < |r.khutbah2.summary| ==>
          '\n' !in r.khutbah2.summary[i].heading && '\n' !in r.khutbah2.summary[i].explanation)
  }
}
