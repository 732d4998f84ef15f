/** String and sequence helpers shared by the text builders: concatenation of
    fragment lists, JavaScript's `String.prototype.trim`, `split`/`join` on a
    one-character separator, and `Number.prototype.toString` for naturals. */
module Strings {

  /** `parts.join('')`: the fragments one after another. */
  function Concat(parts: seq<string>): (s: string)
    decreases |parts|
  {
    if |parts| == 0 then "" else Concat(parts[..|parts| - 1]) + parts[|parts| - 1]
  }

  /** Concatenating two fragment lists is concatenating their texts. */
  lemma {:induction false} ConcatAppend(a: seq<string>, b: seq<string>)
    ensures Concat(a + b) == Concat(a) + Concat(b)
    decreases |b|
  {
    if |b| == 0 {
      assert a + b == a;
    } else {
      assert (a + b)[..|a + b| - 1] == a + b[..|b| - 1];
      ConcatAppend(a, b[..|b| - 1]);
    }
  }

  lemma AppendAssoc<T>(a: seq<T>, b: seq<T>, c: seq<T>)
    ensures a + b + c == a + (b + c)
  {
  }

  /** The length of a concatenation is the sum of the fragment lengths. */
  function TotalLength(parts: seq<string>): nat
    decreases |parts|
  {
    if |parts| == 0 then 0 else TotalLength(parts[..|parts| - 1]) + |parts[|parts| - 1]|
  }

  lemma {:induction false} ConcatLength(parts: seq<string>)
    ensures |Concat(parts)| == TotalLength(parts)
    decreases |parts|
  {
    if |parts| > 0 { ConcatLength(parts[..|parts| - 1]); }
  }

  /** How often character `c` occurs in `s`. */
  function Count(s: string, c: char): nat { multiset(s)[c] }

  /** Occurrences of `c` in a concatenation: the sum over the fragments. */
  function CountAll(parts: seq<string>, c: char): nat
    decreases |parts|
  {
    if |parts| == 0 then 0 else CountAll(parts[..|parts| - 1], c) + Count(parts[|parts| - 1], c)
  }

  lemma {:induction false} CountConcat(parts: seq<string>, c: char)
    ensures Count(Concat(parts), c) == CountAll(parts, c)
    decreases |parts|
  {
    if |parts| > 0 {
      CountConcat(parts[..|parts| - 1], c);
      assert multiset(Concat(parts)) ==
        multiset(Concat(parts[..|parts| - 1])) + multiset(parts[|parts| - 1]);
    }
  }

  /** If every fragment holds `c` exactly `k` times, the whole holds it `k * |parts|` times. */
  lemma {:induction false} CountUniform(parts: seq<string>, c: char, k: nat)
    requires forall i :: 0 <= i < |parts| ==> Count(parts[i], c) == k
    ensures Count(Concat(parts), c) == k * |parts|
    decreases |parts|
  {
    CountConcat(parts, c);
    CountAllUniform(parts, c, k);
  }

  lemma {:induction false} CountAllUniform(parts: seq<string>, c: char, k: nat)
    requires forall i :: 0 <= i < |parts| ==> Count(parts[i], c) == k
    ensures CountAll(parts, c) == k * |parts|
    decreases |parts|
  {
    if |parts| > 0 { CountAllUniform(parts[..|parts| - 1], c, k); }
  }

  /** `ss.flat()`: the blocks one after another. */
  function Flatten<T>(blocks: seq<seq<T>>): (s: seq<T>)
    decreases |blocks|
  {
    if |blocks| == 0 then [] else Flatten(blocks[..|blocks| - 1]) + blocks[|blocks| - 1]
  }

  /** Flattening blocks of exactly two elements: element `2k` and `2k + 1` come from block `k`. */
  lemma {:induction false} FlattenPairs<T>(blocks: seq<seq<T>>)
    requires forall i :: 0 <= i < |blocks| ==> |blocks[i]| == 2
    ensures |Flatten(blocks)| == 2 * |blocks|
    ensures forall k :: 0 <= k < |blocks| ==>
      Flatten(blocks)[2 * k] == blocks[k][0] && Flatten(blocks)[2 * k + 1] == blocks[k][1]
    decreases |blocks|
  {
    if |blocks| > 0 {
      var init := blocks[..|blocks| - 1];
      FlattenPairs(init);
      forall k | 0 <= k < |blocks| - 1
        ensures Flatten(blocks)[2 * k] == blocks[k][0] && Flatten(blocks)[2 * k + 1] == blocks[k][1]
      {
        assert init[k] == blocks[k];
      }
    }
  }

  // ---------------------------------------------------------------------------
  // String.prototype.trim

  /** The characters ECMAScript's `trim` removes: WhiteSpace (tab, vertical tab,
      form feed, space, no-break space, byte-order mark and the other Unicode space
      separators) and LineTerminator (line feed, carriage return, line and
      paragraph separators). */
  predicate IsJsWhitespace(c: char) {
    c == '\t' || c == '\n' || c == '\U{000B}' || c == '\U{000C}' || c == '\r' || c == ' ' ||
    c == '\U{00A0}' || c == '\U{1680}' || ('\U{2000}' <= c <= '\U{200A}') ||
    c == '\U{2028}' || c == '\U{2029}' || c == '\U{202F}' || c == '\U{205F}' || c == '\U{3000}' ||
    c == '\U{FEFF}'
  }

  function TrimStart(s: string): (r: string)
    decreases |s|
  {
    if |s| > 0 && IsJsWhitespace(s[0]) then TrimStart(s[1..]) else s
  }

  function TrimEnd(s: string): (r: string)
    decreases |s|
  {
    if |s| > 0 && IsJsWhitespace(s[|s| - 1]) then TrimEnd(s[..|s| - 1]) else s
  }

  /** `s.trim()`. */
  function Trim(s: string): string { TrimEnd(TrimStart(s)) }

  predicate IsBlank(s: string) { forall i :: 0 <= i < |s| ==> IsJsWhitespace(s[i]) }

  lemma {:induction false} TrimStartBlank(s: string)
    ensures TrimStart(s) == "" <==> IsBlank(s)
    ensures TrimStart(s) != "" ==> !IsJsWhitespace(TrimStart(s)[0])
    decreases |s|
  {
    if |s| > 0 && IsJsWhitespace(s[0]) {
      TrimStartBlank(s[1..]);
      assert forall i :: 1 <= i < |s| ==> s[i] == s[1..][i - 1];
    }
  }

  lemma {:induction false} TrimEndKeepsFirst(s: string)
    requires |s| > 0 && !IsJsWhitespace(s[0])
    ensures TrimEnd(s) != "" && TrimEnd(s)[0] == s[0]
    decreases |s|
  {
    if IsJsWhitespace(s[|s| - 1]) { TrimEndKeepsFirst(s[..|s| - 1]); }
  }

  /** The trimmed text is empty exactly when every character is whitespace:
      the emptiness test of the input forms. */
  lemma TrimEmptyIff(s: string)
    ensures Trim(s) == "" <==> IsBlank(s)
  {
    TrimStartBlank(s);
    if TrimStart(s) != "" { TrimEndKeepsFirst(TrimStart(s)); }
  }

  // ---------------------------------------------------------------------------
  // String.prototype.split / Array.prototype.join with a one-character separator

  /** `s.split(sep)` for a one-character separator: the text between separators,
      empty pieces included; the empty text splits into one empty piece. */
  function Split(s: string, sep: char): (parts: seq<string>)
    ensures |parts| >= 1
    ensures forall i :: 0 <= i < |parts| ==> sep !in parts[i]
    decreases |s|
  {
    if |s| == 0 then [""]
    else if s[0] == sep then [""] + Split(s[1..], sep)
    else
      var rest := Split(s[1..], sep);
      [[s[0]] + rest[0]] + rest[1..]
  }

  /** `parts.join(sep)`. */
  function Join(parts: seq<string>, sep: char): string
    decreases |parts|
  {
    if |parts| == 0 then ""
    else if |parts| == 1 then parts[0]
    else parts[0] + [sep] + Join(parts[1..], sep)
  }

  /** Joining the pieces again gives back the text: split loses nothing. */
  lemma {:induction false} JoinSplit(s: string, sep: char)
    ensures Join(Split(s, sep), sep) == s
    decreases |s|
  {
    if |s| > 0 {
      var rest := Split(s[1..], sep);
      JoinSplit(s[1..], sep);
      if s[0] == sep {
        assert Split(s, sep)[1..] == rest;
      } else {
        var parts := Split(s, sep);
        assert parts[1..] == rest[1..];
        if |rest| == 1 {
          assert s == [s[0]] + rest[0];
        } else {
          assert Join(rest, sep) == rest[0] + [sep] + Join(rest[1..], sep);
          assert s == [s[0]] + s[1..];
        }
      }
    }
  }

  /** The number of pieces is one more than the number of separators. */
  lemma {:induction false} SplitCount(s: string, sep: char)
    ensures |Split(s, sep)| == Count(s, sep) + 1
    decreases |s|
  {
    if |s| > 0 {
      SplitCount(s[1..], sep);
      assert s == [s[0]] + s[1..];
      assert multiset(s) == multiset([s[0]]) + multiset(s[1..]);
    }
  }

  /** Each line followed by the separator: what a loop of
      `text += line + "\n"` appends. */
  function Terminated(lines: seq<string>, sep: char): string
    decreases |lines|
  {
    if |lines| == 0 then "" else Terminated(lines[..|lines| - 1], sep) + lines[|lines| - 1] + [sep]
  }

  lemma TerminatedSnoc(a: seq<string>, x: string, sep: char)
    ensures Terminated(a + [x], sep) == Terminated(a, sep) + x + [sep]
  {
    assert (a + [x])[..|a|] == a;
  }

  lemma {:induction false} TerminatedAppend(a: seq<string>, b: seq<string>, sep: char)
    ensures Terminated(a + b, sep) == Terminated(a, sep) + Terminated(b, sep)
    decreases |b|
  {
    if |b| == 0 {
      assert a + b == a;
    } else {
      var init, x := b[..|b| - 1], b[|b| - 1];
      assert a + b == (a + init) + [x];
      assert b == init + [x];
      TerminatedSnoc(a + init, x, sep);
      TerminatedSnoc(init, x, sep);
      TerminatedAppend(a, init, sep);
    }
  }

  /** Splitting at one occurrence of the separator splits the two sides
      independently. */
  lemma {:induction false} SplitAt(a: string, b: string, sep: char)
    ensures Split(a + [sep] + b, sep) == Split(a, sep) + Split(b, sep)
    decreases |a|
  {
    var s := a + [sep] + b;
    if |a| == 0 {
      assert s[1..] == b;
    } else {
      assert s[1..] == a[1..] + [sep] + b;
      SplitAt(a[1..], b, sep);
    }
  }

  lemma {:induction false} SplitWithout(s: string, sep: char)
    requires sep !in s
    ensures Split(s, sep) == [s]
    decreases |s|
  {
    if |s| > 0 {
      SplitWithout(s[1..], sep);
      assert [s[0]] + s[1..] == s;
    }
  }

  /** Lines free of the separator, each terminated, then a last unterminated
      one: splitting gives exactly those lines back. */
  lemma {:induction false} SplitTerminated(lines: seq<string>, last: string, sep: char)
    requires forall i :: 0 <= i < |lines| ==> sep !in lines[i]
    requires sep !in last
    ensures Split(Terminated(lines, sep) + last, sep) == lines + [last]
    decreases |lines|
  {
    SplitWithout(last, sep);
    if |lines| == 0 {
      assert Terminated(lines, sep) + last == last;
    } else {
      var init, l := lines[..|lines| - 1], lines[|lines| - 1];
      SplitTerminated(init, l, sep);
      SplitAt(Terminated(init, sep) + l, last, sep);
      assert Terminated(lines, sep) + last == (Terminated(init, sep) + l) + [sep] + last;
      assert init + [l] == lines;
    }
  }

  /** A last piece after a separator is the last part. */
  lemma SplitLast(a: string, b: string, sep: char)
    requires sep !in b
    ensures Split(a + [sep] + b, sep) == Split(a, sep) + [b]
  {
    SplitAt(a, b, sep);
    SplitWithout(b, sep);
  }

  /** A separator, then terminated lines: those lines follow, and an empty
      piece after the last terminator. */
  lemma SplitBlock(z: string, lines: seq<string>, sep: char)
    requires forall i :: 0 <= i < |lines| ==> sep !in lines[i]
    ensures Split(z + [sep] + Terminated(lines, sep), sep) == Split(z, sep) + lines + [""]
  {
    var t := Terminated(lines, sep);
    SplitTerminated(lines, "", sep);
    assert t + "" == t;
    assert Split(t, sep) == lines + [""];
    SplitAt(z, t, sep);
  }

  /** The plain-text report layout both copy handlers produce: a head, an
      empty line, a title line, an empty line, the first section's heading
      line and its terminated point lines, an empty line, the second heading
      line and its point lines, an empty line, the overall title line and the
      overall text. */
  function Sections(head: string, title: string, first: string, points1: seq<string>,
                    second: string, points2: seq<string>, overallTitle: string, overallText: string): string
  {
    head + "\n\n" + title + "\n\n" + first + "\n" + Terminated(points1, '\n') + "\n" + second + "\n"
    + Terminated(points2, '\n') + "\n" + overallTitle + "\n" + overallText
  }

  /** The lines of `Sections` after the head's own lines. */
  function SectionLines(title: string, first: string, points1: seq<string>,
                        second: string, points2: seq<string>, overallTitle: string, overallText: string)
    : (lines: seq<string>)
    ensures |lines| == 9 + |points1| + |points2|
  {
    ["", title, "", first] + points1 + ["", second] + points2 + ["", overallTitle, overallText]
  }

  /** With single-line parts, `Sections` splits at its line breaks into the
      head's lines followed by exactly `SectionLines`. */
  lemma SplitSections(head: string, title: string, first: string, points1: seq<string>,
                      second: string, points2: seq<string>, overallTitle: string, overallText: string)
    requires '\n' !in title && '\n' !in first && '\n' !in second
    requires '\n' !in overallTitle && '\n' !in overallText
    requires forall i :: 0 <= i < |points1| ==> '\n' !in points1[i]
    requires forall i :: 0 <= i < |points2| ==> '\n' !in points2[i]
    ensures Split(Sections(head, title, first, points1, second, points2, overallTitle, overallText), '\n')
      == Split(head, '\n') + SectionLines(title, first, points1, second, points2, overallTitle, overallText)
  {
    SplitHead(head, title, first);
    var v := head + "\n\n" + title + "\n\n" + first;
    SplitSection(v, points1, second);
    var w := v + "\n" + Terminated(points1, '\n') + "\n" + second;
    SplitTail(w, points2, overallTitle, overallText);
  }

  lemma SplitHead(head: string, title: string, first: string)
    requires '\n' !in title && '\n' !in first
    ensures Split(head + "\n\n" + title + "\n\n" + first, '\n') == Split(head, '\n') + ["", title, "", first]
  {
    var sep := '\n';
    var q := head + "\n\n" + title;
    assert Split(q, sep) == Split(head, sep) + ["", title] by {
      assert q == head + [sep] + "" + [sep] + title;
      SplitLast(head + [sep] + "", title, sep);
      SplitLast(head, "", sep);
    }
    assert q + "\n\n" + first == q + [sep] + "" + [sep] + first;
    SplitLast(q + [sep] + "", first, sep);
    SplitLast(q, "", sep);
  }

  lemma SplitSection(v: string, points: seq<string>, heading: string)
    requires '\n' !in heading
    requires forall i :: 0 <= i < |points| ==> '\n' !in points[i]
    ensures Split(v + "\n" + Terminated(points, '\n') + "\n" + heading, '\n') == Split(v, '\n') + points + ["", heading]
  {
    var sep := '\n';
    var u := v + "\n" + Terminated(points, sep);
    SplitBlock(v, points, sep);
    SplitLast(u, heading, sep);
  }

  lemma SplitTail(w: string, points: seq<string>, overallTitle: string, overallText: string)
    requires '\n' !in overallTitle && '\n' !in overallText
    requires forall i :: 0 <= i < |points| ==> '\n' !in points[i]
    ensures Split(w + "\n" + Terminated(points, '\n') + "\n" + overallTitle + "\n" + overallText, '\n')
      == Split(w, '\n') + points + ["", overallTitle, overallText]
  {
    var sep := '\n';
    var z := w + "\n" + Terminated(points, sep);
    SplitBlock(w, points, sep);
    SplitLast(z, overallTitle, sep);
    SplitLast(z + "\n" + overallTitle, overallText, sep);
  }

  // ---------------------------------------------------------------------------
  // Number.prototype.toString for naturals

  function DigitChar(d: nat): (c: char)
    requires d < 10
    ensures '0' <= c <= '9'
  {
    ('0' as int + d) as char
  }

  /** `String(n)`: the shortest decimal numeral of `n`. */
  function NatToString(n: nat): (s: string)
    ensures |s| >= 1
    ensures forall i :: 0 <= i < |s| ==> '0' <= s[i] <= '9'
    decreases n
  {
    if n < 10 then [DigitChar(n)] else NatToString(n / 10) + [DigitChar(n % 10)]
  }

  /** The value of a numeral of ASCII digits. */
  function NumeralValue(s: string): nat
    requires forall i :: 0 <= i < |s| ==> '0' <= s[i] <= '9'
    decreases |s|
  {
    if |s| == 0 then 0
    else NumeralValue(s[..|s| - 1]) * 10 + (s[|s| - 1] as int - '0' as int)
  }

  /** Reading the numeral back gives the number: distinct numbers are printed differently. */
  lemma {:induction false} NatToStringValue(n: nat)
    ensures NumeralValue(NatToString(n)) == n
    decreases n
  {
    if n >= 10 {
      NatToStringValue(n / 10);
      var s := NatToString(n);
      assert s[..|s| - 1] == NatToString(n / 10);
    }
  }
}
