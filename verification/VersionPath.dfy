/**
 The version-path notation: dots, brackets and quoted brackets.
 Each character stands for one byte of the path.
 */
module VersionPath {

  const DEFAULT_HELM_RELEASE_PATH := "spec.chart.spec.version"

  // ----- what a path means -----

  predicate IsQuote(c: char) { c == '\'' || c == '"' }

  /** The segment text collected so far, as zero or one finished segments. */
  function Flush(text: string): seq<string> {
    if text == "" then [] else [text]
  }

  /** How many characters stand before the first `stop`; all of them if there is none. */
  function Find(rest: string, stop: char): (k: nat)
    ensures k <= |rest|
    ensures k < |rest| ==> rest[k] == stop
    ensures stop !in rest[..k]
  {
    if rest == "" || rest[0] == stop then 0
    else
      var k := Find(rest[1..], stop);
      assert rest[..k + 1] == [rest[0]] + rest[1..][..k];
      k + 1
  }

  function DropOne(rest: string): string {
    if rest == "" then "" else rest[1..]
  }

  function DropClose(rest: string): string {
    if rest != "" && rest[0] == ']' then rest[1..] else rest
  }

  /** What a bracket holds, and what follows it, when `rest` starts just behind the opening bracket. */
  function Bracket(rest: string): (r: (string, string))
    ensures |r.1| <= |rest|
  {
    if rest == "" then ("", "")
    else if IsQuote(rest[0]) then
      var k := Find(rest[1..], rest[0]);
      (rest[1..][..k], DropClose(DropOne(rest[1..][k..])))
    else
      var k := Find(rest, ']');
      (rest[..k], DropClose(rest[k..]))
  }

  /** The segments still to be read from `rest`, when `text` has already been collected. */
  function Segments(rest: string, text: string): seq<string>
    decreases |rest|
  {
    if rest == "" then Flush(text)
    else if rest[0] == '.' then Flush(text) + Segments(rest[1..], "")
    else if rest[0] == '[' then
      Flush(text) + (Flush(Bracket(rest[1..]).0) + Segments(Bracket(rest[1..]).1, ""))
    else Segments(rest[1..], text + [rest[0]])
  }

  function TrimDot(path: string): string {
    if path != "" && path[0] == '.' then path[1..] else path
  }

  function Parse(path: string): seq<string> {
    Segments(TrimDot(path), "")
  }

  // ----- the parser -----

  /** Collect characters up to a stop character or the end. */
  method ReadUntil(path: string, stop: char, from: nat) returns (text: string, i: nat)
    requires from <= |path|
    ensures from <= i <= |path|
    ensures i == from + Find(path[from..], stop)
    ensures text == path[from..i]
  {
    text, i := "", from;
    while i < |path| && path[i] != stop
      invariant from <= i <= |path|
      invariant i + Find(path[i..], stop) == from + Find(path[from..], stop)
      invariant text == path[from..i]
    {
      assert path[i..][1..] == path[i + 1..];
      text := text + [path[i]];
      i := i + 1;
    }
  }

  /** The bracket part of the scan: `at` is just behind the opening bracket. */
  method ReadBracket(path: string, at: nat) returns (inner: string, i: nat)
    requires at <= |path|
    ensures at <= i <= |path|
    ensures (inner, path[i..]) == Bracket(path[at..])
  {
    inner, i := "", at;
    if i == |path| { return; }
    ghost var rest := path[at..];
    if IsQuote(path[i]) {
      inner, i := ReadUntil(path, path[i], i + 1);
      assert rest[1..] == path[at + 1..];
      assert inner == rest[1..][..i - at - 1] && path[i..] == rest[1..][i - at - 1..];
      if i < |path| { i := i + 1; }
    } else {
      inner, i := ReadUntil(path, ']', i);
      assert inner == rest[..i - at] && path[i..] == rest[i - at..];
    }
    if i < |path| && path[i] == ']' { i := i + 1; }
  }

  method ParseVersionPath(full: string) returns (parts: seq<string>)
    ensures parts == Parse(full)
  {
    var path := TrimDot(full);
    parts := [];
    var current := "";
    var i := 0;
    while i < |path|
      invariant 0 <= i <= |path|
      invariant parts + Segments(path[i..], current) == Parse(full)
    {
      assert path[i..][1..] == path[i + 1..];
      if path[i] == '.' {
        parts := parts + Flush(current);
        current, i := "", i + 1;
      } else if path[i] == '[' {
        parts := parts + Flush(current);
        var inner, k := ReadBracket(path, i + 1);
        parts := parts + Flush(inner);
        current, i := "", k;
      } else {
        current, i := current + [path[i]], i + 1;
      }
    }
    parts := parts + Flush(current);
  }

  // ----- a printer, and the round trip -----

  /** One written segment: plain text after a dot, an unquoted bracket, or a bracket in quotes. */
  datatype Segment =
    | Dotted(text: string)
    | Bracketed(text: string)
    | Quoted(quote: char, text: string)

  predicate Legal(s: Segment) {
    s.text != "" &&
    match s
    case Dotted(text) => '.' !in text && '[' !in text
    case Bracketed(text) => ']' !in text && !IsQuote(text[0])
    case Quoted(quote, text) => IsQuote(quote) && quote !in text
  }

  function Show(s: Segment): string {
    match s
    case Dotted(text) => "." + text
    case Bracketed(text) => "[" + text + "]"
    case Quoted(quote, text) => "[" + [quote] + text + [quote] + "]"
  }

  function Print(segments: seq<Segment>): string {
    if segments == [] then "" else Show(segments[0]) + Print(segments[1..])
  }

  function Texts(segments: seq<Segment>): seq<string> {
    if segments == [] then [] else [segments[0].text] + Texts(segments[1..])
  }

  /** `Find` stops where a clean text ends. */
  lemma {:induction false} FindAfter(text: string, tail: string, stop: char)
    requires stop !in text
    requires tail != "" ==> tail[0] == stop
    ensures Find(text + tail, stop) == |text|
  {
    if text != "" {
      FindAfter(text[1..], tail, stop);
      assert (text + tail)[1..] == text[1..] + tail;
    } else {
      assert text + tail == tail;
    }
  }

  /** Plain text is collected character by character. */
  lemma {:induction false} PlainText(text: string, tail: string, before: string)
    requires '.' !in text && '[' !in text
    ensures Segments(text + tail, before) == Segments(tail, before + text)
  {
    if text != "" {
      PlainText(text[1..], tail, before + [text[0]]);
      assert (text + tail)[1..] == text[1..] + tail;
      assert before + [text[0]] + text[1..] == before + text;
    } else {
      assert text + tail == tail;
      assert before + text == before;
    }
  }

  /** At a dot, a bracket or the end, a collected text is complete. */
  lemma TextEnds(rest: string, text: string)
    requires rest != "" ==> rest[0] == '.' || rest[0] == '['
    requires text != ""
    ensures Segments(rest, text) == [text] + Segments(rest, "")
  {
    assert Flush("") == [];
  }

  lemma PrintStarts(segments: seq<Segment>)
    ensures Print(segments) != "" ==> Print(segments)[0] == '.' || Print(segments)[0] == '['
  {
  }

  lemma FirstDotted(text: string, tail: string)
    requires Legal(Dotted(text))
    requires tail != "" ==> tail[0] == '.' || tail[0] == '['
    ensures Segments(Show(Dotted(text)) + tail, "") == [text] + Segments(tail, "")
  {
    var path := Show(Dotted(text)) + tail;
    assert path[1..] == text + tail;
    assert Flush("") == [];
    PlainText(text, tail, "");
    assert "" + text == text;
    TextEnds(tail, text);
  }

  lemma FirstBracketed(text: string, tail: string)
    requires Legal(Bracketed(text))
    ensures Segments(Show(Bracketed(text)) + tail, "") == [text] + Segments(tail, "")
  {
    var path := Show(Bracketed(text)) + tail;
    var rest := text + ("]" + tail);
    assert path[1..] == rest;
    FindAfter(text, "]" + tail, ']');
    assert rest[..|text|] == text && rest[|text|..] == "]" + tail;
    assert ("]" + tail)[1..] == tail;
    assert Bracket(rest) == (text, tail);
  }

  lemma FirstQuoted(quote: char, text: string, tail: string)
    requires Legal(Quoted(quote, text))
    ensures Segments(Show(Quoted(quote, text)) + tail, "") == [text] + Segments(tail, "")
  {
    var path := Show(Quoted(quote, text)) + tail;
    var end := [quote] + ("]" + tail);
    var rest := [quote] + (text + end);
    assert path[1..] == rest;
    assert rest[1..] == text + end;
    FindAfter(text, end, quote);
    assert (text + end)[..|text|] == text && (text + end)[|text|..] == end;
    assert end[1..] == "]" + tail && ("]" + tail)[1..] == tail;
    assert Bracket(rest) == (text, tail);
  }

  /** Parsing undoes printing, for every list of legally written segments. */
  lemma {:induction false} PrintThenSegments(segments: seq<Segment>)
    requires forall s | s in segments :: Legal(s)
    ensures Segments(Print(segments), "") == Texts(segments)
  {
    if segments != [] {
      var rest := segments[1..];
      PrintThenSegments(rest);
      match segments[0]
      case Dotted(text) =>
        PrintStarts(rest);
        FirstDotted(text, Print(rest));
      case Bracketed(text) => FirstBracketed(text, Print(rest));
      case Quoted(quote, text) => FirstQuoted(quote, text, Print(rest));
    }
  }

  /** A printed path, with or without its leading dot, parses back to its segments. */
  lemma PrintThenParse(segments: seq<Segment>)
    requires forall s | s in segments :: Legal(s)
    ensures Parse(Print(segments)) == Texts(segments)
    ensures Parse("." + Print(segments)) == Texts(segments)
  {
    PrintThenSegments(segments);
    LeadingDotIgnored(Print(segments));
  }

  /** Where a HelmRelease has its chart version. */
  lemma DefaultPath()
    ensures Parse(DEFAULT_HELM_RELEASE_PATH) == ["spec", "chart", "spec", "version"]
  {
    hide Segments;
    var tail := ".chart.spec.version";
    DefaultTail();
    PlainThenDot("spec", tail);
    assert DEFAULT_HELM_RELEASE_PATH == "spec" + tail;
  }

  lemma DefaultTail()
    ensures Segments(".chart.spec.version", "") == ["chart", "spec", "version"]
  {
    hide Segments;
    PlainThenDot("version", "");
    assert "version" + "" == "version";
    DotSkipped("");
    DotSkipped(".version");
    assert ".version"[1..] == "version";
    PlainThenDot("spec", ".version");
    DotSkipped(".spec.version");
    assert ".spec.version"[1..] == "spec" + ".version";
    PlainThenDot("chart", ".spec.version");
    DotSkipped(".chart.spec.version");
    assert ".chart.spec.version"[1..] == "chart" + ".spec.version";
  }

  lemma PlainThenDot(text: string, tail: string)
    requires text != "" && '.' !in text && '[' !in text
    requires tail != "" ==> tail[0] == '.'
    ensures Segments(text + tail, "") == [text] + Segments(tail, "")
  {
    PlainText(text, tail, "");
    assert "" + text == text;
    TextEnds(tail, text);
  }

  lemma DotSkipped(path: string)
    ensures path != "" && path[0] == '.' ==> Segments(path, "") == Segments(path[1..], "")
    ensures path == "" ==> Segments(path, "") == []
  {
    assert Flush("") == [];
  }

  lemma DottedStep(text: string, tail: string, path: string)
    requires Legal(Dotted(text)) && path == "." + text + tail
    requires tail != "" ==> tail[0] == '.' || tail[0] == '['
    ensures Segments(path, "") == [text] + Segments(tail, "")
  {
    FirstDotted(text, tail);
  }

  lemma LeadingDotIgnored(path: string)
    ensures Parse("." + path) == Parse(path)
  {
    assert ("." + path)[1..] == path;
    assert Flush("") == [];
  }

  // ----- which segment lists a path can name -----

  /** Some legal way to write this text exists. */
  predicate Writable(text: string) {
    text != "" &&
    ( || ('.' !in text && '[' !in text)
      || (']' !in text && !IsQuote(text[0]))
      || '\'' !in text
      || '"' !in text)
  }

  function Write(text: string): (s: Segment)
    requires Writable(text)
    ensures Legal(s) && s.text == text
  {
    if '.' !in text && '[' !in text then Dotted(text)
    else if ']' !in text && !IsQuote(text[0]) then Bracketed(text)
    else if '\'' !in text then Quoted('\'', text)
    else Quoted('"', text)
  }

  lemma BracketIsWritable(rest: string)
    ensures Bracket(rest).0 != "" ==> Writable(Bracket(rest).0)
  {
    var inner := Bracket(rest).0;
    if inner != "" {
      if IsQuote(rest[0]) {
        assert rest[0] !in inner;
      } else {
        assert ']' !in inner && inner[0] == rest[0];
      }
    }
  }

  lemma {:induction false} SegmentsAreWritable(rest: string, text: string)
    requires '.' !in text && '[' !in text
    ensures forall part | part in Segments(rest, text) :: Writable(part)
    decreases |rest|
  {
    if rest != "" {
      if rest[0] == '.' {
        SegmentsAreWritable(rest[1..], "");
      } else if rest[0] == '[' {
        BracketIsWritable(rest[1..]);
        SegmentsAreWritable(Bracket(rest[1..]).1, "");
      } else {
        SegmentsAreWritable(rest[1..], text + [rest[0]]);
      }
    }
  }

  lemma {:induction false} WriteAll(parts: seq<string>) returns (segments: seq<Segment>)
    requires forall part | part in parts :: Writable(part)
    ensures forall s | s in segments :: Legal(s)
    ensures Texts(segments) == parts
  {
    if parts == [] {
      segments := [];
    } else {
      var rest := WriteAll(parts[1..]);
      segments := [Write(parts[0])] + rest;
      assert segments[1..] == rest;
    }
  }

  /** A list of segments is the meaning of some path exactly when each segment can be written:
      in particular no path yields an empty segment. */
  lemma ParseRange(parts: seq<string>)
    ensures (exists path :: Parse(path) == parts) <==> (forall part | part in parts :: Writable(part))
  {
    if path :| Parse(path) == parts {
      SegmentsAreWritable(TrimDot(path), "");
    }
    if forall part | part in parts :: Writable(part) {
      var segments := WriteAll(parts);
      PrintThenParse(segments);
      assert Parse(Print(segments)) == parts;
    }
  }
}
