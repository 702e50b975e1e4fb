/** What inlining means: an include is its file's lines pasted in place, and nothing is left to do afterwards. */
module IncludeMeaning {
  import opened IncludeText
  import opened IncludeDirective
  import opened IncludeExpand
  import opened IncludeSound

  // ---- Lines hold no newlines, and joining is the way back ----

  predicate OneLiners(lines: seq<string>) { forall k :: 0 <= k < |lines| ==> '\n' !in lines[k] }

  lemma {:induction false} LinesAreLines(text: string)
    ensures OneLiners(Lines(text))
  {
    if text != "" { LinesAreLines(text[1..]); }
  }

  lemma {:induction false} LinesOfFirst(first: string, rest: string)
    requires '\n' !in first
    ensures Lines(first + "\n" + rest) == [first] + Lines(rest)
  {
    var text := first + "\n" + rest;
    if first == "" {
      assert text[1..] == rest;
    } else {
      LinesOfFirst(first[1..], rest);
      assert text[1..] == first[1..] + "\n" + rest && text[0] == first[0];
      assert [first[0]] + first[1..] == first;
    }
  }

  /** Cutting a text that was put together from lines gives the lines back. */
  lemma {:induction false} LinesOfJoin(lines: seq<string>)
    requires lines != [] && OneLiners(lines)
    ensures Lines(Join(lines)) == lines
  {
    if |lines| == 1 {
      SingleLine(lines[0]);
    } else {
      LinesOfFirst(lines[0], Join(lines[1..]));
      LinesOfJoin(lines[1..]);
      assert [lines[0]] + lines[1..] == lines;
    }
  }

  // ---- What comes out is plain ----

  /** Lines without newlines, of which none is a directive or a mark. */
  predicate Finished(s: Setting, lines: seq<string>) {
    OneLiners(lines) && forall k :: 0 <= k < |lines| ==> Classify(lines[k], s.options).Plain?
  }

  lemma {:induction false} ExpandFinishes(s: Setting, stack: Stack, name: string, line: nat, text: string)
    ensures Finished(s, s.Expand(stack, name, line, text).lines)
    decreases if s.limit > Height(stack) then s.limit - Height(stack) else 0, 0
  {
    if Height(stack) < s.limit {
      LinesAreLines(text);
      WalkFinishes(s, Desc(name, stack, line), Lines(text), 0, false);
    }
  }

  lemma {:induction false} WalkFinishes(s: Setting, stack: Stack, lines: seq<string>, i: nat, optional: bool)
    requires i <= |lines| && stack.Desc? && Height(stack) <= s.limit && OneLiners(lines)
    ensures Finished(s, s.Walk(stack, lines, i, optional).lines)
    decreases s.limit - Height(stack), 1 + |lines| - i
  {
    hide Setting.Expand, Classify, Setting.Open;
    if i < |lines| {
      WalkFinishes(s, stack, lines, i + 1, false);
      WalkFinishes(s, stack, lines, i + 1, true);
      var kind := Classify(lines[i], s.options);
      if kind.Include? && Readable(s, kind.path) { ExpandFinishes(s, stack, kind.path, i + 1, TextOf(s, kind.path)); }
    }
  }

  /** Lines that are plain are passed on as they are. */
  lemma {:induction false} PlainAhead(s: Setting, stack: Stack, lines: seq<string>, i: nat, n: nat)
    requires i + n <= |lines| && stack.Desc? && Height(stack) <= s.limit
    requires forall k :: i <= k < i + n ==> Classify(lines[k], s.options).Plain?
    ensures s.Walk(stack, lines, i, false) == After(lines[i..i + n], s.Walk(stack, lines, i + n, false))
    decreases n
  {
    hide Setting.Expand, Classify;
    if n > 0 {
      PlainAhead(s, stack, lines, i + 1, n - 1);
      assert [lines[i]] + lines[i + 1..i + n] == lines[i..i + n];
    }
  }

  lemma PlainRuns(s: Setting, stack: Stack, name: string, line: nat, lines: seq<string>)
    requires lines != [] && Finished(s, lines) && Height(stack) < s.limit
    ensures s.Expand(stack, name, line, Join(lines)) == Expansion(lines, Done, stack)
  {
    LinesOfJoin(lines);
    PlainAhead(s, Desc(name, stack, line), lines, 0, |lines|);
    assert lines[0..|lines|] == lines;
  }

  lemma {:induction false} DropFinished(s: Setting, lines: seq<string>)
    requires Finished(s, lines)
    ensures Finished(s, DropEmpty(lines)) && DropEmpty(DropEmpty(lines)) == DropEmpty(lines)
  {
    hide Classify;
    if lines != [] && lines[0] == "" { DropFinished(s, lines[1..]); }
  }

  /** Inlining what was inlined changes nothing. */
  lemma InlinedOnce(s: Setting, stack: Stack, name: string, line: nat, text: string, later: Stack)
    requires Height(later) < s.limit
    ensures var output := AppendAll("", s.Expand(stack, name, line, text).lines);
            var again := s.Expand(later, name, line, output);
            again.end.Done? && AppendAll("", again.lines) == output
  {
    var lines := s.Expand(stack, name, line, text).lines;
    ExpandFinishes(s, stack, name, line, text);
    DropFinished(s, lines);
    OutputIsJoin(lines);
    var kept := DropEmpty(lines);
    hide Setting.Expand, Classify, Finished, DropEmpty, Lines;
    if kept != [] {
      PlainRuns(s, later, name, line, kept);
      OutputIsJoin(kept);
    } else {
      EmptyAgain(s, later, name, line);
    }
  }

  lemma EmptyAgain(s: Setting, stack: Stack, name: string, line: nat)
    requires Height(stack) < s.limit
    ensures var again := s.Expand(stack, name, line, "");
            Join([]) == "" && again.end.Done? && AppendAll("", again.lines) == ""
  {
    EmptyIsPlain(s.options);
    assert OneLiners([""]) && Join([""]) == "";
    PlainRuns(s, stack, name, line, [""]);
    assert AppendAll("", [""]) == AppendAll("", []);
  }

  // ---- Where a file is read from does not matter to what it becomes ----

  lemma {:induction false} ExpandAgrees(s: Setting, stack: Stack, stack': Stack, name: string, name': string,
                                        line: nat, line': nat, text: string)
    requires Height(stack) == Height(stack') && s.Expand(stack, name, line, text).end.Done?
    ensures s.Expand(stack', name', line', text).end.Done?
    ensures s.Expand(stack', name', line', text).lines == s.Expand(stack, name, line, text).lines
    decreases if s.limit > Height(stack) then s.limit - Height(stack) else 0, 0
  {
    if Height(stack) < s.limit {
      WalkAgrees(s, Desc(name, stack, line), Desc(name', stack', line'), Lines(text), Lines(text), 0, 0, false);
    }
  }

  /** Nor does what stood before, once the mark before an include is taken care of. */
  lemma {:induction false} WalkAgrees(s: Setting, stack: Stack, stack': Stack, lines: seq<string>,
                                      lines': seq<string>, i: nat, j: nat, optional: bool)
    requires i <= |lines| && j <= |lines'| && lines[i..] == lines'[j..]
    requires stack.Desc? && stack'.Desc? && Height(stack) == Height(stack') <= s.limit
    requires s.Walk(stack, lines, i, optional).end.Done?
    ensures s.Walk(stack', lines', j, optional).end.Done?
    ensures s.Walk(stack', lines', j, optional).lines == s.Walk(stack, lines, i, optional).lines
    decreases s.limit - Height(stack), 1 + |lines| - i
  {
    hide Setting.Expand, Classify, Setting.Open;
    if i < |lines| {
      assert lines[i] == lines[i..][0] == lines'[j..][0] == lines'[j];
      assert lines[i + 1..] == lines[i..][1..] == lines'[j + 1..];
      var kind := Classify(lines[i], s.options);
      match kind
      case Marker => WalkAgrees(s, stack, stack', lines, lines', i + 1, j + 1, true);
      case Wrong =>
      case Plain => WalkAgrees(s, stack, stack', lines, lines', i + 1, j + 1, false);
      case Include(path) =>
        if Readable(s, path) { ExpandAgrees(s, stack, stack', path, path, i + 1, j + 1, TextOf(s, path)); }
        WalkAgrees(s, stack, stack', lines, lines', i + 1, j + 1, false);
    }
  }

  // ---- An include is its file pasted in place ----

  /** Lines with an include among them. */
  datatype Place = Place(before: seq<string>, directive: string, after: seq<string>) {
    function Whole(): seq<string> { before + [directive] + after }

    function Pasted(lines: seq<string>): seq<string> { before + lines + after }

    /** The include can be read and stands behind no mark. */
    predicate Includes(s: Setting, path: string) {
      && Classify(directive, s.options) == IncludeText.Include(path) && Readable(s, path)
      && !Marks(s, before, |before| - 1)
    }
  }

  lemma PlaceParts(p: Place, lines: seq<string>)
    ensures var whole, pasted, n, m := p.Whole(), p.Pasted(lines), |p.before|, |p.before| + |lines|;
            && |whole| == n + 1 + |p.after| && |pasted| == m + |p.after|
            && whole[n] == p.directive && whole[n + 1..] == p.after == pasted[m..] && pasted[n..m] == lines
            && forall k :: 0 <= k < n ==> whole[k] == pasted[k] == p.before[k]
  {
  }

  lemma {:induction false} PasteFrom(s: Setting, stack: Stack, p: Place, path: string, i: nat, optional: bool)
    requires p.Includes(s, path) && i <= |p.before| && stack.Desc? && Height(stack) <= s.limit
    requires optional <==> Marks(s, p.before, i - 1)
    requires s.Walk(stack, p.Whole(), i, optional).end.Done?
    ensures var inner := s.Expand(stack, path, |p.before| + 1, TextOf(s, path));
            var e := s.Walk(stack, p.Pasted(inner.lines), i, optional);
            inner.end.Done? && e.end.Done? && e.lines == s.Walk(stack, p.Whole(), i, optional).lines
    decreases |p.before| - i
  {
    hide Classify, Setting.Open, Setting.Expand, Place.Whole, Place.Pasted;
    PlaceParts(p, s.Expand(stack, path, |p.before| + 1, TextOf(s, path)).lines);
    if i == |p.before| {
      PasteHere(s, stack, p, path);
    } else {
      PasteFrom(s, stack, p, path, i + 1, Classify(p.before[i], s.options).Marker?);
    }
  }

  lemma PasteHere(s: Setting, stack: Stack, p: Place, path: string)
    requires p.Includes(s, path) && stack.Desc? && Height(stack) <= s.limit
    requires s.Walk(stack, p.Whole(), |p.before|, false).end.Done?
    ensures var inner := s.Expand(stack, path, |p.before| + 1, TextOf(s, path));
            var e := s.Walk(stack, p.Pasted(inner.lines), |p.before|, false);
            inner.end.Done? && e.end.Done? && e.lines == s.Walk(stack, p.Whole(), |p.before|, false).lines
  {
    hide Classify, Setting.Open, Setting.Expand, Place.Whole, Place.Pasted;
    var inner, whole, n := s.Expand(stack, path, |p.before| + 1, TextOf(s, path)), p.Whole(), |p.before|;
    var pasted := p.Pasted(inner.lines);
    PlaceParts(p, inner.lines);
    forall k | n <= k < n + |inner.lines| ensures Classify(pasted[k], s.options).Plain? {
      ExpandFinishes(s, stack, path, n + 1, TextOf(s, path));
      assert pasted[k] == pasted[n..n + |inner.lines|][k - n];
    }
    PlainAhead(s, stack, pasted, n, |inner.lines|);
    WalkAgrees(s, stack, stack, whole, pasted, n + 1, n + |inner.lines|, false);
  }

  /** A run that succeeds writes what it writes with the expanded file in place of the include. */
  lemma IncludeIsPaste(s: Setting, stack: Stack, name: string, line: nat, p: Place, path: string)
    requires p.Includes(s, path) && OneLiners(p.Whole()) && s.Expand(stack, name, line, Join(p.Whole())).end.Done?
    ensures Height(stack) < s.limit
    ensures var inner := s.Expand(Desc(name, stack, line), path, |p.before| + 1, TextOf(s, path));
            var e := s.Expand(stack, name, line, Join(p.Pasted(inner.lines)));
            inner.end.Done? && e.end.Done?
            && AppendAll("", e.lines) == AppendAll("", s.Expand(stack, name, line, Join(p.Whole())).lines)
  {
    var top := Desc(name, stack, line);
    var inner := s.Expand(top, path, |p.before| + 1, TextOf(s, path));
    LinesOfJoin(p.Whole());
    PasteFrom(s, top, p, path, 0, false);
    ExpandFinishes(s, top, path, |p.before| + 1, TextOf(s, path));
    var pasted := p.Pasted(inner.lines);
    PastedLines(s, p, inner.lines);
    hide Classify, Setting.Open, Finished, Lines;
    if pasted == [] {
      EmptyAgain(s, stack, name, line);
      assert s.Walk(top, pasted, 0, false).lines == [];
    } else {
      LinesOfJoin(pasted);
    }
  }

  lemma PastedLines(s: Setting, p: Place, lines: seq<string>)
    requires OneLiners(p.Whole()) && Finished(s, lines)
    ensures OneLiners(p.Pasted(lines))
  {
    hide Classify;
    forall k | 0 <= k < |p.before| ensures '\n' !in p.before[k] { assert p.Whole()[k] == p.before[k]; }
    forall k | 0 <= k < |p.after| ensures '\n' !in p.after[k] {
      assert p.Whole()[|p.before| + 1 + k] == p.after[k];
    }
  }

  // ---- Runs that can be foretold ----

  /** Among plain lines, a directive that names a file of plain lines becomes those lines. */
  lemma PlainFileIsRead(s: Setting, stack: Stack, name: string, line: nat, p: Place, path: string, lines: seq<string>)
    requires Finished(s, p.before) && Finished(s, p.after) && OneLiners([p.directive])
    requires Classify(p.directive, s.options) == IncludeText.Include(path)
    requires Finished(s, lines) && lines != [] && Height(stack) + 1 < s.limit
    requires s.root + "/" + path in s.files && s.files[s.root + "/" + path] == Text(Join(lines))
    ensures s.Expand(stack, name, line, Join(p.Whole())) == Expansion(p.Pasted(lines), Done, stack)
  {
    hide *;
    var whole, n, top := p.Whole(), |p.before|, Desc(name, stack, line);
    TopIs(s, stack, name, line);
    FileAt(s, path, Join(lines));
    PlaceSizes(p);
    WholeIsLines(s, p);
    PlainBefore(s, p);
    PlainAfter(s, p);
    LinesOfJoin(whole);
    PlainAhead(s, top, whole, 0, n);
    PlainRuns(s, top, path, n + 1, lines);
    assert s.Expand(top, path, n + 1, TextOf(s, path)).lines == lines;
    IncludeStep(s, top, whole, n, path);
    PlainAhead(s, top, whole, n + 1, |p.after|);
    WalkEnds(s, top, whole);
    Gathered(p, lines, Expansion([], Done, stack));
    ExpandCases(s, stack, name, line, Join(whole));
  }

  lemma TopIs(s: Setting, stack: Stack, name: string, line: nat)
    ensures Height(Desc(name, stack, line)) == Height(stack) + 1
  {
  }

  lemma FileAt(s: Setting, path: string, text: string)
    requires s.root + "/" + path in s.files && s.files[s.root + "/" + path] == Text(text)
    ensures s.Open(path) == Some(Text(text)) && Readable(s, path) && TextOf(s, path) == text
  {
  }

  lemma PlaceSizes(p: Place)
    ensures |p.Whole()| == |p.before| + 1 + |p.after| && p.Whole()[|p.before|] == p.directive
  {
  }

  lemma IncludeStep(s: Setting, stack: Stack, lines: seq<string>, i: nat, path: string)
    requires i < |lines| && stack.Desc? && Height(stack) <= s.limit
    requires Classify(lines[i], s.options) == IncludeText.Include(path) && Readable(s, path)
    ensures var inner := s.Expand(stack, path, i + 1, TextOf(s, path));
            s.Walk(stack, lines, i, false)
            == if inner.end.Done? then After(inner.lines, s.Walk(stack, lines, i + 1, false)) else inner
  {
    hide Classify, Setting.Open, Setting.Expand;
  }

  lemma WalkEnds(s: Setting, stack: Stack, lines: seq<string>)
    requires stack.Desc? && Height(stack) <= s.limit
    ensures s.Walk(stack, lines, |lines|, false) == Expansion([], Done, stack.from)
  {
  }

  lemma Gathered(p: Place, lines: seq<string>, end: Expansion)
    requires end.lines == []
    ensures |p.Whole()| == |p.before| + 1 + |p.after|
    ensures After(p.Whole()[0..|p.before|], After(lines, After(p.Whole()[|p.before| + 1..|p.Whole()|], end)))
         == end.(lines := p.Pasted(lines))
  {
  }

  /** The trace of an error goes from the file it is in outwards, each including file with the line of its include. */
  lemma MissingInside(s: Setting, stack: Stack, name: string, line: nat, p: Place, path: string, missing: string)
    requires Finished(s, p.before) && OneLiners(p.Whole()) && Height(stack) + 1 < s.limit
    requires Classify(p.directive, s.options) == IncludeText.Include(path)
    requires s.Open(path) == Some(Text(Directive(s.options.directive, missing))) && s.Open(missing) == None
    requires IsWord(s.options.directive) && SameLetters(s.options.directive, s.options.directive)
    requires s.options.recurse && !IsMark(s.options.directive) && '"' !in missing
    requires '\n' !in Directive(s.options.directive, missing)
    ensures s.Expand(stack, name, line, Join(p.Whole())).end
         == Failed(NotFound(missing, [(path, 1), (name, |p.before| + 1)] + Trace(stack, line)))
  {
    hide Classify, Setting.Open, Setting.Expand, Setting.Walk, Place.Whole, Place.Pasted, Finished, OneLiners;
    hide Directive, IsWord, SameLetters, IsMark, Join;
    var whole, n, top := p.Whole(), |p.before|, Desc(name, stack, line);
    PlaceParts(p, []);
    PlainBefore(s, p);
    LinesOfJoin(whole);
    PlainAhead(s, top, whole, 0, n);
    MissingFails(s, top, path, n + 1, missing);
    IncludeStep(s, top, whole, n, path);
    ExpandCases(s, stack, name, line, Join(whole));
    TraceOfTwo(path, name, n + 1, Trace(stack, line));
  }

  lemma TraceOfTwo(path: string, name: string, n: nat, trace: seq<(string, nat)>)
    ensures [(path, 1)] + ([(name, n)] + trace) == [(path, 1), (name, n)] + trace
  {
  }

  lemma PlainBefore(s: Setting, p: Place)
    requires Finished(s, p.before)
    ensures |p.Whole()| > |p.before|
    ensures forall k :: 0 <= k < |p.before| ==> Classify(p.Whole()[k], s.options).Plain?
  {
    hide Classify;
    PlaceParts(p, []);
  }

  lemma PlainAfter(s: Setting, p: Place)
    requires Finished(s, p.after)
    ensures forall k :: |p.before| + 1 <= k < |p.Whole()| ==> Classify(p.Whole()[k], s.options).Plain?
  {
    hide Classify;
    var whole, n := p.Whole(), |p.before|;
    PlaceParts(p, []);
    forall k | n + 1 <= k < |whole| ensures Classify(whole[k], s.options).Plain? {
      assert whole[k] == whole[n + 1..][k - n - 1] && Classify(p.after[k - n - 1], s.options).Plain?;
    }
  }

  lemma WholeIsLines(s: Setting, p: Place)
    requires Finished(s, p.before) && Finished(s, p.after) && OneLiners([p.directive])
    ensures p.Whole() != [] && OneLiners(p.Whole())
  {
    hide Classify;
    assert [p.directive][0] == p.directive;
  }
}
