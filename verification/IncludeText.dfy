/** Lines and directives: how a text is cut up, what each line asks for, and how lines are put together again. */
module IncludeText {
  datatype Option<T> = None | Some(value: T)

  // ---- Lines ----

  /** There is always a last line; it is empty when the text ends in a newline. */
  function Lines(text: string): (lines: seq<string>)
    ensures |lines| >= 1
  {
    if text == "" then [""]
    else
      var rest := Lines(text[1..]);
      if text[0] == '\n' then [""] + rest else [[text[0]] + rest[0]] + rest[1..]
  }

  function Join(lines: seq<string>): string {
    if |lines| == 0 then "" else if |lines| == 1 then lines[0] else lines[0] + "\n" + Join(lines[1..])
  }

  /** Putting the lines of a text together gives the text. */
  lemma {:induction false} LinesJoined(text: string)
    ensures Join(Lines(text)) == text
  {
    if text != "" {
      LinesJoined(text[1..]);
      var rest := Lines(text[1..]);
      if text[0] == '\n' {
        assert ([""] + rest)[1..] == rest;
        assert "" + "\n" + text[1..] == text;
      } else {
        var first := [text[0]] + rest[0];
        assert ([first] + rest[1..])[1..] == rest[1..];
        assert Join(Lines(text)) == [text[0]] + Join(rest);
      }
    }
  }

  // ---- Output ----

  /** A line goes on a new line unless nothing has been written yet. */
  function Append(output: string, line: string): string {
    if |output| > 0 then output + "\n" + line else line
  }

  function AppendAll(output: string, lines: seq<string>): string
    decreases |lines|
  {
    if lines == [] then output else AppendAll(Append(output, lines[0]), lines[1..])
  }

  lemma {:induction false} AppendAllSplits(output: string, a: seq<string>, b: seq<string>)
    ensures AppendAll(output, a + b) == AppendAll(AppendAll(output, a), b)
    decreases |a|
  {
    if a == [] {
      assert a + b == b;
    } else {
      AppendAllSplits(Append(output, a[0]), a[1..], b);
      assert (a + b)[1..] == a[1..] + b;
    }
  }

  /** Empty lines before the first line with something in it leave no trace. */
  function DropEmpty(lines: seq<string>): seq<string> {
    if lines != [] && lines[0] == "" then DropEmpty(lines[1..]) else lines
  }

  lemma {:induction false} AppendIsJoin(output: string, lines: seq<string>)
    requires output != ""
    ensures AppendAll(output, lines) == Join([output] + lines)
    decreases |lines|
  {
    if lines == [] {
      assert [output] + lines == [output];
    } else {
      AppendIsJoin(Append(output, lines[0]), lines[1..]);
      assert ([output] + lines)[1..] == lines;
      JoinFirstTwo(output, lines);
    }
  }

  lemma Regrouped(a: string, b: string, c: string)
    ensures a + "\n" + b + "\n" + c == a + "\n" + (b + "\n" + c)
  {
  }

  lemma JoinFirstTwo(first: string, lines: seq<string>)
    requires lines != []
    ensures Join([first + "\n" + lines[0]] + lines[1..]) == first + "\n" + Join(lines)
  {
    var merged := [first + "\n" + lines[0]] + lines[1..];
    assert merged[1..] == lines[1..];
    if |lines| > 1 { Regrouped(first, lines[0], Join(lines[1..])); }
  }

  /** Writing to an empty output joins the lines by newlines, leading empty lines dropped. */
  lemma {:induction false} OutputIsJoin(lines: seq<string>)
    ensures AppendAll("", lines) == Join(DropEmpty(lines))
  {
    if lines != [] {
      if lines[0] == "" {
        OutputIsJoin(lines[1..]);
      } else {
        AppendIsJoin(lines[0], lines[1..]);
        assert [lines[0]] + lines[1..] == lines;
      }
    }
  }

  function DropNewlines(text: string): string {
    if text != "" && text[0] == '\n' then DropNewlines(text[1..]) else text
  }

  /** Without directives, a text is copied but for the newlines it begins with. */
  lemma {:induction false} CopyDropsNewlines(text: string)
    ensures AppendAll("", Lines(text)) == DropNewlines(text)
  {
    OutputIsJoin(Lines(text));
    if text != "" && text[0] == '\n' {
      CopyDropsNewlines(text[1..]);
      OutputIsJoin(Lines(text[1..]));
      assert ([""] + Lines(text[1..]))[1..] == Lines(text[1..]);
    } else {
      LinesJoined(text);
      if text == "" { assert DropEmpty([""]) == DropEmpty([""][1..]); }
    }
  }

  // ---- Directives ----

  function IsSpace(c: char): bool { c == ' ' || 9 <= c as int <= 13 }

  function Lower(word: string): string {
    if word == "" then ""
    else [if 'A' <= word[0] <= 'Z' then (word[0] as int + 32) as char else word[0]] + Lower(word[1..])
  }

  function WordStart(line: string, i: nat): (s: nat)
    requires i <= |line|
    ensures i <= s <= |line|
    decreases |line| - i
  {
    if i < |line| && IsSpace(line[i]) then WordStart(line, i + 1) else i
  }

  function WordEnd(line: string, i: nat): (e: nat)
    requires i <= |line|
    ensures i <= e <= |line|
    decreases |line| - i
  {
    if i < |line| && !IsSpace(line[i]) then WordEnd(line, i + 1) else i
  }

  /** The first place of `c` at or after `from`. */
  function Find(line: string, c: char, from: nat): (p: Option<nat>)
    ensures p.Some? <==> exists k :: from <= k < |line| && line[k] == c
    ensures p.Some? ==>
              from <= p.value < |line| && line[p.value] == c && forall k :: from <= k < p.value ==> line[k] != c
    decreases if from < |line| then |line| - from else 0
  {
    if from >= |line| then None else if line[from] == c then Some(from) else Find(line, c, from + 1)
  }

  /** What a line is: text, the mark before an include that may be missing, an include, or a directive gone wrong. */
  datatype Kind = Plain | Marker | Include(path: string) | Wrong

  const OptionalMark := "//inliner-include-optional"

  datatype Options = Options(directive: string, angleBrackets: bool, recurse: bool)

  function Between(line: string, open: char, close: char, from: nat): Kind {
    match Find(line, open, from)
    case None => Wrong
    case Some(a) =>
      match Find(line, close, a + 1)
      case None => Wrong
      case Some(b) => Include(line[a + 1..b])
  }

  function Classify(line: string, options: Options): Kind {
    var start := WordStart(line, 0);
    var end := WordEnd(line, start);
    var word := Lower(line[start..end]);
    if word != "" && word == OptionalMark then Marker
    else if word != "" && word == options.directive && options.recurse then
      var from := if end == |line| then 0 else end + 1;
      if Find(line, '"', from).Some? then Between(line, '"', '"', from)
      else if options.angleBrackets then Between(line, '<', '>', from)
      else Wrong
    else Plain
  }
}
