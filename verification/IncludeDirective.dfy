/** How a line is written that is a mark, an include or plain text: blanks, letters of either case, what follows. */
module IncludeDirective {
  import opened IncludeText

  // ---- Words ----

  predicate IsBlank(c: char) { c == ' ' || '\t' <= c <= '\r' }

  predicate Blanks(b: string) { forall i :: 0 <= i < |b| ==> IsBlank(b[i]) }

  predicate IsWord(word: string) { word != "" && forall i :: 0 <= i < |word| ==> !IsBlank(word[i]) }

  /** What may follow a word: nothing, or something that begins with a blank. */
  predicate Follows(rest: string) { rest == "" || IsBlank(rest[0]) }

  /** The same letters; those of the word may be capitals. */
  predicate SameLetters(word: string, lower: string) {
    && |word| == |lower|
    && forall i :: 0 <= i < |word| ==>
         if 'A' <= word[i] <= 'Z' then lower[i] == (word[i] as int + ('a' as int - 'A' as int)) as char
         else lower[i] == word[i]
  }

  lemma {:induction false} LowerIs(word: string)
    ensures |Lower(word)| == |word| && SameLetters(word, Lower(word))
  {
    if word != "" { LowerIs(word[1..]); }
  }

  lemma LowerOnce(word: string, lower: string)
    ensures SameLetters(word, lower) <==> Lower(word) == lower
  {
    LowerIs(word);
    if SameLetters(word, lower) { assert Lower(word) == lower; }
  }

  lemma {:induction false} WordStartIs(line: string, i: nat, s: nat)
    requires i <= s <= |line| && (s < |line| ==> !IsBlank(line[s])) && forall k :: i <= k < s ==> IsBlank(line[k])
    ensures WordStart(line, i) == s
    decreases s - i
  {
    if i < s { WordStartIs(line, i + 1, s); }
  }

  lemma {:induction false} WordEndIs(line: string, i: nat, e: nat)
    requires i <= e <= |line| && (e < |line| ==> IsBlank(line[e])) && forall k :: i <= k < e ==> !IsBlank(line[k])
    ensures WordEnd(line, i) == e
    decreases e - i
  {
    if i < e { WordEndIs(line, i + 1, e); }
  }

  lemma {:induction false} FindIs(line: string, c: char, from: nat, p: nat)
    requires from <= p < |line| && line[p] == c && forall k :: from <= k < p ==> line[k] != c
    ensures Find(line, c, from) == Some(p)
    decreases p - from
  {
    if from < p { FindIs(line, c, from + 1, p); }
  }

  function Line(b: string, word: string, rest: string): string { b + word + rest }

  /** Blanks before the first word do not matter, and it ends at the next blank. */
  lemma FirstWord(b: string, word: string, rest: string)
    requires Blanks(b) && IsWord(word) && Follows(rest)
    ensures var line := Line(b, word, rest);
            && WordStart(line, 0) == |b| && WordEnd(line, |b|) == |b| + |word| && |line| == |b| + |word| + |rest|
            && line[|b|..|b| + |word|] == word
  {
    var line := Line(b, word, rest);
    assert forall k :: 0 <= k < |b| ==> line[k] == b[k];
    assert forall k :: 0 <= k < |word| ==> line[|b| + k] == word[k];
    assert forall k :: 0 <= k < |rest| ==> line[|b| + |word| + k] == rest[k];
    assert forall k :: |b| <= k < |b| + |word| ==> line[k] == word[k - |b|];
    WordStartIs(line, 0, |b|);
    WordEndIs(line, |b|, |b| + |word|);
  }

  // ---- What a line is ----

  predicate IsMark(word: string) { SameLetters(word, "//inliner-include-optional") }

  predicate MarkText(lower: string) { lower == OptionalMark }

  lemma MarkOnce(word: string)
    ensures IsMark(word) <==> MarkText(Lower(word))
  {
    LowerOnce(word, "//inliner-include-optional");
    hide SameLetters, Lower;
  }

  /** What the first word, in small letters, decides. */
  function Decide(options: Options, line: string, lower: string, from: nat): Kind {
    if lower == "" then Plain
    else if MarkText(lower) then Marker
    else if lower == options.directive && options.recurse then
      if Find(line, '"', from).Some? then Between(line, '"', '"', from)
      else if options.angleBrackets then Between(line, '<', '>', from)
      else Wrong
    else Plain
  }

  lemma ByWord(options: Options, line: string, s: nat, e: nat)
    requires s == WordStart(line, 0) && e == WordEnd(line, s)
    ensures s <= e <= |line|
    ensures Classify(line, options) == Decide(options, line, Lower(line[s..e]), if e == |line| then 0 else e + 1)
  {
    hide WordStart, WordEnd, Lower, Find, Between;
  }

  lemma WordDecides(options: Options, b: string, word: string, rest: string)
    requires Blanks(b) && IsWord(word) && Follows(rest)
    ensures Classify(Line(b, word, rest), options)
            == Decide(options, Line(b, word, rest), Lower(word), if rest == "" then 0 else |b| + |word| + 1)
  {
    hide *;
    FirstWord(b, word, rest);
    ByWord(options, Line(b, word, rest), |b|, |b| + |word|);
  }

  lemma WordIs(options: Options, b: string, word: string, rest: string) returns (lower: string)
    requires Blanks(b) && IsWord(word) && Follows(rest)
    ensures lower != "" && (MarkText(lower) <==> IsMark(word))
    ensures lower == options.directive <==> SameLetters(word, options.directive)
    ensures Classify(Line(b, word, rest), options)
            == Decide(options, Line(b, word, rest), lower, if rest == "" then 0 else |b| + |word| + 1)
  {
    lower := Lower(word);
    LowerIs(word);
    assert lower != "";
    hide *;
    MarkOnce(word);
    LowerOnce(word, options.directive);
    WordDecides(options, b, word, rest);
  }

  /** The mark before an optional include, wherever the line begins and whatever follows the mark. */
  lemma MarkIs(options: Options, b: string, mark: string, rest: string)
    requires Blanks(b) && Follows(rest) && IsWord(mark) && IsMark(mark)
    ensures Classify(Line(b, mark, rest), options) == Marker
  {
    hide MarkText, IsMark, SameLetters, Blanks, IsWord, Follows, Line, Classify, Find, Between;
    var lower := WordIs(options, b, mark, rest);
  }

  /** What follows the directive: a gap, then a path between two delimiters. */
  function Tail(gap: string, open: char, path: string, close: char, rest: string): string {
    gap + [open] + path + [close] + rest
  }

  lemma TailFollows(gap: string, open: char, path: string, close: char, rest: string)
    requires gap != "" && IsBlank(gap[0])
    ensures Tail(gap, open, path, close, rest) != "" && Follows(Tail(gap, open, path, close, rest))
  {
  }

  lemma LineTail(b: string, word: string, rest: string)
    ensures var line := Line(b, word, rest);
            |line| == |b| + |word| + |rest| && forall k :: 0 <= k < |rest| ==> line[|b| + |word| + k] == rest[k]
  {
  }

  lemma TailParts(gap: string, open: char, path: string, close: char, rest: string)
    ensures var tail := Tail(gap, open, path, close, rest);
            && |tail| == |gap| + |path| + 2 + |rest| && tail[|gap|] == open && tail[|gap| + 1 + |path|] == close
            && (forall k :: 0 <= k < |gap| ==> tail[k] == gap[k])
            && forall k :: 0 <= k < |path| ==> tail[|gap| + 1 + k] == path[k]
  {
  }

  /** The delimiters of the path are found where they stand. */
  lemma InTail(line: string, at: nat, gap: string, open: char, path: string, close: char, tail: string)
    requires |line| == at + |tail| && forall k :: 0 <= k < |tail| ==> line[at + k] == tail[k]
    requires |tail| >= |gap| + |path| + 2 && tail[|gap|] == open && tail[|gap| + 1 + |path|] == close
    requires forall k :: 0 <= k < |gap| ==> tail[k] == gap[k]
    requires forall k :: 0 <= k < |path| ==> tail[|gap| + 1 + k] == path[k]
    requires gap != "" && open !in gap && close !in path
    ensures Find(line, open, at + 1).Some? && Between(line, open, close, at + 1) == Include(path)
  {
    var p := at + |gap|;
    forall k | at <= k < p ensures line[k] != open { assert line[at + (k - at)] == tail[k - at] == gap[k - at]; }
    forall k | p + 1 <= k < p + 1 + |path| ensures line[k] == path[k - p - 1] {
      assert line[at + (k - at)] == tail[|gap| + 1 + (k - p - 1)];
    }
    assert line[at + |gap|] == open && line[at + (|gap| + 1 + |path|)] == close;
    FindIs(line, open, at + 1, p);
    FindIs(line, close, p + 1, p + 1 + |path|);
    assert line[p + 1..p + 1 + |path|] == path;
  }

  /** An include in quotes: blanks, the directive in any case, a blank, no quote before the path's own. */
  lemma QuotedInclude(options: Options, b: string, word: string, gap: string, path: string, rest: string)
    requires Blanks(b) && IsWord(word) && SameLetters(word, options.directive) && options.recurse && !IsMark(word)
    requires gap != "" && IsBlank(gap[0]) && '"' !in gap && '"' !in path
    ensures Classify(Line(b, word, Tail(gap, '"', path, '"', rest)), options) == Include(path)
  {
    hide MarkText, IsMark, SameLetters, Blanks, IsWord, Follows, Line, Classify, Find, Between, Tail;
    var tail := Tail(gap, '"', path, '"', rest);
    TailFollows(gap, '"', path, '"', rest);
    var lower := WordIs(options, b, word, tail);
    LineTail(b, word, tail);
    TailParts(gap, '"', path, '"', rest);
    InTail(Line(b, word, tail), |b| + |word|, gap, '"', path, '"', tail);
  }

  lemma NotInTail(line: string, at: nat, tail: string, c: char)
    requires |line| == at + |tail| && (forall k :: 0 <= k < |tail| ==> line[at + k] == tail[k]) && c !in tail
    ensures Find(line, c, at + 1) == None
  {
    assert forall k :: at <= k < |line| ==> line[k] == tail[k - at];
  }

  lemma TailWithout(gap: string, open: char, path: string, close: char, rest: string, c: char)
    requires c !in gap && c != open && c !in path && c != close && c !in rest
    ensures c !in Tail(gap, open, path, close, rest)
  {
  }

  /** An include in angle brackets, where they are allowed and no quote follows the directive. */
  lemma AngledInclude(options: Options, b: string, word: string, gap: string, path: string, rest: string)
    requires Blanks(b) && IsWord(word) && SameLetters(word, options.directive) && options.recurse && !IsMark(word)
    requires gap != "" && IsBlank(gap[0]) && options.angleBrackets
    requires '<' !in gap && '>' !in path && '"' !in gap && '"' !in path && '"' !in rest
    ensures Classify(Line(b, word, Tail(gap, '<', path, '>', rest)), options) == Include(path)
  {
    hide MarkText, IsMark, SameLetters, Blanks, IsWord, Follows, Line, Classify, Find, Between, Tail;
    var tail := Tail(gap, '<', path, '>', rest);
    TailFollows(gap, '<', path, '>', rest);
    var lower := WordIs(options, b, word, tail);
    LineTail(b, word, tail);
    TailWithout(gap, '<', path, '>', rest, '"');
    NotInTail(Line(b, word, tail), |b| + |word|, tail, '"');
    TailParts(gap, '<', path, '>', rest);
    InTail(Line(b, word, tail), |b| + |word|, gap, '<', path, '>', tail);
  }

  /** Without a quote, and without angle brackets allowed, the directive is broken. */
  lemma WrongInclude(options: Options, b: string, word: string, rest: string)
    requires Blanks(b) && IsWord(word) && SameLetters(word, options.directive) && options.recurse && !IsMark(word)
    requires Follows(rest) && rest != "" && '"' !in rest && !options.angleBrackets
    ensures Classify(Line(b, word, rest), options) == Wrong
  {
    hide MarkText, IsMark, SameLetters, Blanks, IsWord, Follows, Line, Classify, Find, Between;
    var lower := WordIs(options, b, word, rest);
    LineTail(b, word, rest);
    NotInTail(Line(b, word, rest), |b| + |word|, rest, '"');
  }

  /** Every other first word makes plain text; when not recursing, so does the directive. */
  lemma OtherIsPlain(options: Options, b: string, word: string, rest: string)
    requires Blanks(b) && IsWord(word) && Follows(rest) && !IsMark(word)
    requires options.recurse ==> !SameLetters(word, options.directive)
    ensures Classify(Line(b, word, rest), options) == Plain
  {
    hide MarkText, IsMark, SameLetters, Blanks, IsWord, Follows, Line, Classify, Find, Between;
    var lower := WordIs(options, b, word, rest);
  }

  /** And so do blanks alone. */
  lemma BlankIsPlain(options: Options, b: string)
    requires Blanks(b)
    ensures Classify(b, options) == Plain
  {
    WordStartIs(b, 0, |b|);
    WordEndIs(b, |b|, |b|);
    ByWord(options, b, |b|, |b|);
  }

  // ---- The plainest include ----

  function Directive(word: string, path: string): string { word + " \"" + path + "\"" }

  lemma DirectiveLine(word: string, path: string)
    ensures Line("", word, Tail(" ", '"', path, '"', "")) == Directive(word, path)
  {
  }

  /** The directive, a space and a path in quotes are read as an include of that path. */
  lemma DirectiveIncludes(options: Options, path: string)
    requires IsWord(options.directive) && SameLetters(options.directive, options.directive)
    requires !IsMark(options.directive) && options.recurse && '"' !in path
    ensures Classify(Directive(options.directive, path), options) == Include(path)
  {
    assert Blanks("") && IsBlank(' ');
    hide *;
    DirectiveLine(options.directive, path);
    QuotedInclude(options, "", options.directive, " ", path, "");
  }
}
