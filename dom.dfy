/** The browser state the exporters touch: the document body, downloads offered
    to the user, `alert` messages, clipboard writes, and what the rasteriser
    (`html2canvas`) was given. Library calls that may throw take their outcome
    as an `Attempt`. */
module Dom {

  /** The outcome of a foreign call that may throw. */
  datatype Attempt = Succeeds | Throws(message: string)

  /** The CSS properties the exporters set, in their `style` attribute
      spelling; `Other` stands for any other property. */
  datatype Prop =
    | Display | Position | Left | Top | Width | Padding | Margin
    | Background | BackgroundColor | Color | BorderColor | TextShadow | BoxShadow
    | Direction | FontFamily | FontSize | TextAlign | LineHeight
    | Other(name: string)

  /** The value of a set property; a property that is not set reads as "". */
  type Value = s: string | s != "" witness "none"

  /** An inline style declaration: the properties set, with their values. */
  type Style = map<Prop, Value>

  /** `el.style[name]`. */
  function StyleOf(style: Style, name: Prop): string { if name in style then style[name] else "" }

  /** `el.style[name] = value`; assigning "" removes the property. */
  function SetStyle(style: Style, name: Prop, value: string): (r: Style)
    ensures StyleOf(r, name) == value
  {
    if value == "" then style - {name} else style[name := value]
  }

  /** Setting one property leaves every other one as it was. */
  lemma SetStyleOther(style: Style, name: Prop, value: string, other: Prop)
    requires other != name
    ensures StyleOf(SetStyle(style, name, value), other) == StyleOf(style, other)
  {
  }

  /** An element: its own inline style, the inline styles of its descendants in
      document order (what `querySelectorAll("*")` visits) and its inner HTML. */
  class Element {
    var style: Style
    var innerHtml: string
    const descendants: array<Style>

    constructor (style: Style, descendants: seq<Style>)
      ensures this.style == style && this.descendants[..] == descendants && innerHtml == ""
      ensures fresh(this.descendants)
    {
      this.style := style;
      innerHtml := "";
      this.descendants := new Style[|descendants|](i requires 0 <= i < |descendants| => descendants[i]);
    }

    /** `el.cloneNode(true)`: a new element with copies of the style and the subtree. */
    method CloneNode() returns (c: Element)
      ensures fresh(c) && fresh(c.descendants)
      ensures c.style == style && c.descendants[..] == descendants[..] && c.innerHtml == innerHtml
    {
      c := new Element(style, descendants[..]);
      c.innerHtml := innerHtml;
    }
  }

  /** What one rasterisation was given: the element, whether it was attached to
      the body, and the styles in force on it and its descendants. */
  datatype Shot = Shot(target: object, attached: bool, styles: seq<Style>)

  /** Remove the first occurrence of `o`: `parent.removeChild(o)`. */
  function Remove(s: seq<object>, o: object): (r: seq<object>)
    decreases |s|
  {
    if |s| == 0 then [] else if s[0] == o then s[1..] else [s[0]] + Remove(s[1..], o)
  }

  /** Removing what was just appended restores the body. */
  lemma {:induction false} RemoveAppended(s: seq<object>, o: object)
    requires o !in s
    ensures Remove(s + [o], o) == s
    decreases |s|
  {
    if |s| > 0 {
      assert (s + [o])[1..] == s[1..] + [o];
      RemoveAppended(s[1..], o);
    }
  }

  class Page {
    var body: seq<object>
    var downloads: seq<string>
    var alerts: seq<string>
    var clipboard: seq<string>
    var shots: seq<Shot>

    constructor ()
      ensures body == [] && downloads == [] && alerts == [] && clipboard == [] && shots == []
    {
      body, downloads, alerts, clipboard, shots := [], [], [], [], [];
    }

    method Alert(message: string)
      modifies this`alerts
      ensures alerts == old(alerts) + [message]
    {
      alerts := alerts + [message];
    }

    /** A link click that downloads a file with this name. */
    method Download(name: string)
      modifies this`downloads
      ensures downloads == old(downloads) + [name]
    {
      downloads := downloads + [name];
    }

    /** A temporary `<a download>` link: appended to the body, clicked, and
        removed again, so the body ends as it was and one file is offered. */
    method ClickDownload(name: string)
      modifies this`body, this`downloads
      ensures body == old(body) && downloads == old(downloads) + [name]
    {
      var link := new Element(map[], []);
      AppendChild(link);
      Download(name);
      RemoveChild(link);
      RemoveAppended(old(body), link);
    }

    method WriteClipboard(text: string)
      modifies this`clipboard
      ensures clipboard == old(clipboard) + [text]
    {
      clipboard := clipboard + [text];
    }

    method AppendChild(o: object)
      modifies this`body
      ensures body == old(body) + [o]
    {
      body := body + [o];
    }

    method RemoveChild(o: object)
      requires o in body
      modifies this`body
      ensures body == Remove(old(body), o)
    {
      body := Remove(body, o);
    }

    /** `body.appendChild(target)`, then `html2canvas(target)` inside a `try`
        whose `finally` does `body.removeChild(target)`: the body ends as it
        was and the rasteriser saw the element attached. */
    method CaptureAttached(target: object, styles: seq<Style>, outcome: Attempt) returns (ok: bool)
      requires target !in body
      modifies this`body, this`shots
      ensures body == old(body)
      ensures shots == old(shots) + [Shot(target, true, styles)]
      ensures ok <==> outcome == Succeeds
    {
      AppendChild(target);
      ok := Capture(target, styles, outcome);
      RemoveChild(target);
      RemoveAppended(old(body), target);
    }

    /** `html2canvas(target)`: records what it was given; `outcome` is whether it threw. */
    method Capture(target: object, styles: seq<Style>, outcome: Attempt) returns (ok: bool)
      modifies this`shots
      ensures shots == old(shots) + [Shot(target, target in body, styles)]
      ensures ok <==> outcome == Succeeds
    {
      shots := shots + [Shot(target, target in body, styles)];
      ok := outcome == Succeeds;
    }
  }
}
