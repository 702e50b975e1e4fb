/** When an expansion succeeds, when it overflows, and what a failed one leaves behind. */
module IncludeSound {
  import opened IncludeText
  import opened IncludeDirective
  import opened IncludeExpand

  // ---- After a failure ----

  lemma {:induction false} AboveIsHigher(upper: Stack, lower: Stack)
    requires Above(upper, lower)
    ensures Height(upper) >= Height(lower)
  {
    if upper != lower { AboveIsHigher(upper.from, lower); }
  }

  /** The stack is restored if and only if the run succeeds or was refused before it began. */
  lemma StackRestored(s: Setting, stack: Stack, name: string, line: nat, text: string)
    ensures s.Expand(stack, name, line, text).stack == stack
       <==> s.Expand(stack, name, line, text).end.Done? || Height(stack) >= s.limit
    ensures Height(s.Expand(stack, name, line, text).stack) == Height(stack)
       <==> s.Expand(stack, name, line, text).end.Done? || Height(stack) >= s.limit
  {
    hide Setting.Walk, Lines;
    if Height(stack) < s.limit {
      var top := Desc(name, stack, line);
      var e := s.Walk(top, Lines(text), 0, false);
      WalkLeaves(s, top, Lines(text), 0, false);
      if e.end.Failed? { AboveIsHigher(e.stack, top); }
    }
  }

  // ---- A failed run takes room away ----

  lemma {:induction false} SingleLine(text: string)
    requires '\n' !in text
    ensures Lines(text) == [text]
  {
    if text != "" {
      SingleLine(text[1..]);
      assert [text[0]] + text[1..] == text;
    }
  }

  /** A text of one line that includes a file that is not there. */
  lemma MissingFails(s: Setting, stack: Stack, name: string, line: nat, path: string)
    requires IsWord(s.options.directive) && SameLetters(s.options.directive, s.options.directive)
    requires s.options.recurse && !IsMark(s.options.directive) && '"' !in path
    requires '\n' !in Directive(s.options.directive, path)
    requires s.Open(path) == None && Height(stack) < s.limit
    ensures var e := s.Expand(stack, name, line, Directive(s.options.directive, path));
            e.end == Failed(NotFound(path, [(name, 1)] + Trace(stack, line))) && e.stack == Desc(name, stack, line)
  {
    var text := Directive(s.options.directive, path);
    hide Directive, Setting.Open, Classify, IsWord, SameLetters, IsMark;
    SingleLine(text);
    DirectiveIncludes(s.options, path);
  }

  /** Empty stack, one missing include, limit one: the next run overflows, though by itself it would succeed. */
  lemma SecondRunOverflows()
    ensures var s := Setting(map[], "", Options("#include", false, true), 1);
            var first := s.Expand(Nil, "", 0, Directive("#include", "a"));
            && first.end == Failed(NotFound("a", [("", 1)])) && Height(first.stack) == 1
            && Overflows(s.Expand(first.stack, "", 0, "")) && s.Expand(Nil, "", 0, "").end.Done?
  {
    hide Classify, Lines, Setting.Expand, Directive, IsWord, SameLetters, IsMark;
    var s := Setting(map[], "", Options("#include", false, true), 1);
    IncludeIsWord();
    MissingFails(s, Nil, "", 0, "a");
    assert Trace(Nil, 0) == [] && [("", 1)] + [] == [("", 1)];
    EmptyRuns(s, Nil);
    EmptyRuns(s, s.Expand(Nil, "", 0, Directive("#include", "a")).stack);
  }

  lemma IncludeIsWord()
    ensures IsWord("#include") && SameLetters("#include", "#include") && !IsMark("#include")
    ensures '\n' !in Directive("#include", "a")
  {
  }

  lemma EmptyRuns(s: Setting, stack: Stack)
    ensures s.Expand(stack, "", 0, "").end.Done? <==> Height(stack) < s.limit
    ensures Height(stack) >= s.limit ==> Overflows(s.Expand(stack, "", 0, ""))
  {
    hide Classify, Lines;
    EmptyIsPlain(s.options);
    if Height(stack) < s.limit { assert s.Walk(Desc("", stack, 0), [""], 1, false).end.Done?; }
  }

  lemma EmptyIsPlain(options: Options)
    ensures Classify("", options) == Plain && Lines("") == [""]
  {
  }

  // ---- When a run succeeds ----

  predicate Marks(s: Setting, lines: seq<string>, i: int) {
    0 <= i < |lines| && Classify(lines[i], s.options).Marker?
  }

  /**
   Line `i` is right: not a broken directive; an include after a marker, and only there, may name a file that is
   missing, and every other include can be read and is sound with one level less.
   */
  predicate RightLine(s: Setting, lines: seq<string>, i: nat, room: nat)
    requires i < |lines|
    decreases room, 0
  {
    match Classify(lines[i], s.options)
    case Wrong => false
    case Marker => !Marks(s, lines, i - 1)
    case Plain => !Marks(s, lines, i - 1)
    case Include(path) =>
      match s.Open(path)
      case None => Marks(s, lines, i - 1)
      case Some(Closed) => false
      case Some(Text(text)) => room > 0 && Sound(s, text, room - 1)
  }

  predicate RightFrom(s: Setting, lines: seq<string>, i: nat, room: nat)
    decreases room, 1
  {
    forall k :: i <= k < |lines| ==> RightLine(s, lines, k, room)
  }

  /** Every line of the text is right when `room` more levels may be included from it. */
  predicate Sound(s: Setting, text: string, room: nat)
    decreases room, 2
  {
    RightFrom(s, Lines(text), 0, room)
  }

  lemma {:induction false} WalkDone(s: Setting, stack: Stack, lines: seq<string>, i: nat, optional: bool)
    requires i <= |lines| && stack.Desc? && Height(stack) <= s.limit && (optional <==> Marks(s, lines, i - 1))
    ensures s.Walk(stack, lines, i, optional).end.Done? <==> RightFrom(s, lines, i, s.limit - Height(stack))
    decreases s.limit - Height(stack), 1 + |lines| - i
  {
    hide Setting.Expand, Classify, Setting.Open, Sound;
    if i < |lines| {
      var next := Classify(lines[i], s.options).Marker?;
      WalkDone(s, stack, lines, i + 1, next);
      var room := s.limit - Height(stack);
      assert RightFrom(s, lines, i, room) <==> RightLine(s, lines, i, room) && RightFrom(s, lines, i + 1, room);
      match Classify(lines[i], s.options)
      case Marker =>
      case Wrong =>
      case Plain =>
      case Include(path) =>
        if s.Open(path).Some? && s.Open(path).value.Text? {
          SoundIsDone(s, stack, path, i + 1, s.Open(path).value.text);
        }
    }
  }

  /** A run succeeds if and only if there is room for the file and every line it reaches, at any depth, is right. */
  lemma {:induction false} SoundIsDone(s: Setting, stack: Stack, name: string, line: nat, text: string)
    ensures s.Expand(stack, name, line, text).end.Done?
       <==> Height(stack) < s.limit && Sound(s, text, s.limit - Height(stack) - 1)
    decreases if s.limit > Height(stack) then s.limit - Height(stack) else 0, 0
  {
    if Height(stack) < s.limit { WalkDone(s, Desc(name, stack, line), Lines(text), 0, false); }
  }

  // ---- Files that can only overflow ----

  /** A line that is right as far as it can be seen without following includes, which stay inside `good`. */
  predicate FineLine(s: Setting, good: set<string>, lines: seq<string>, i: nat)
    requires i < |lines|
  {
    match Classify(lines[i], s.options)
    case Wrong => false
    case Marker => !Marks(s, lines, i - 1)
    case Plain => !Marks(s, lines, i - 1)
    case Include(path) =>
      match s.Open(path)
      case None => Marks(s, lines, i - 1)
      case Some(Closed) => false
      case Some(Text(text)) => path in good
  }

  predicate Readable(s: Setting, p: string) { s.Open(p).Some? && s.Open(p).value.Text? }

  function TextOf(s: Setting, p: string): string
    requires Readable(s, p)
  {
    s.Open(p).value.text
  }

  /** Files with nothing but fine lines, closed under their includes. */
  ghost predicate Fine(s: Setting, good: set<string>) {
    forall p :: p in good ==>
      Readable(s, p) && forall i: nat :: i < |Lines(TextOf(s, p))| ==> FineLine(s, good, Lines(TextOf(s, p)), i)
  }

  /** Fine files whose includes go down in rank are sound when there is room for their rank. */
  lemma {:induction false} FineIsSound(s: Setting, good: set<string>, rank: string -> nat, p: string, room: nat)
    requires Fine(s, good) && Ranked(s, rank) && p in good && rank(p) <= room
    ensures Readable(s, p) && Sound(s, TextOf(s, p), room)
    decreases room
  {
    hide Classify, Setting.Open, Lines;
    var lines := Lines(TextOf(s, p));
    forall k: nat | k < |lines| ensures RightLine(s, lines, k, room) {
      assert FineLine(s, good, lines, k);
      var kind := Classify(lines[k], s.options);
      if kind.Include? && Readable(s, kind.path) {
        assert IncludeExpand.Includes(s, TextOf(s, p), k, kind.path);
        FineIsSound(s, good, rank, kind.path, room - 1);
      }
    }
    assert RightFrom(s, lines, 0, room);
  }

  /** So a run of such a file succeeds. */
  lemma FineSucceeds(s: Setting, good: set<string>, rank: string -> nat, stack: Stack, line: nat, p: string)
    requires Fine(s, good) && Ranked(s, rank) && p in good && Height(stack) + rank(p) < s.limit
    ensures Readable(s, p) && s.Expand(stack, p, line, TextOf(s, p)).end.Done?
  {
    assert Readable(s, p);
    hide Fine, Ranked, Setting.Expand;
    FineIsSound(s, good, rank, p, s.limit - Height(stack) - 1);
    SoundIsDone(s, stack, p, line, TextOf(s, p));
  }

  predicate Passes(e: Expansion) { e.end.Done? || Overflows(e) }

  /** Fine files never fail but by overflow. */
  lemma {:induction false} FinePasses(s: Setting, good: set<string>, stack: Stack, name: string, line: nat, p: string)
    requires Fine(s, good) && p in good
    ensures Readable(s, p) && Passes(s.Expand(stack, name, line, TextOf(s, p)))
    decreases if s.limit > Height(stack) then s.limit - Height(stack) else 0, 0
  {
    if Height(stack) < s.limit { FineWalks(s, good, Desc(name, stack, line), Lines(TextOf(s, p)), 0, false); }
  }

  lemma {:induction false} FineWalks(s: Setting, good: set<string>, stack: Stack, lines: seq<string>, i: nat,
                                     optional: bool)
    requires Fine(s, good) && i <= |lines| && stack.Desc? && Height(stack) <= s.limit
    requires (optional <==> Marks(s, lines, i - 1))
    requires forall k: nat :: i <= k < |lines| ==> FineLine(s, good, lines, k)
    ensures Passes(s.Walk(stack, lines, i, optional))
    decreases s.limit - Height(stack), 1 + |lines| - i
  {
    hide Setting.Expand, Classify, Setting.Open, Fine;
    if i < |lines| {
      assert FineLine(s, good, lines, i);
      FineWalks(s, good, stack, lines, i + 1, Classify(lines[i], s.options).Marker?);
      var kind := Classify(lines[i], s.options);
      if kind.Include? && Readable(s, kind.path) { FinePasses(s, good, stack, kind.path, i + 1, kind.path); }
    }
  }

  /** Line `i` includes a file of the circle, and all lines before it are fine. */
  ghost predicate LeadsOn(s: Setting, good: set<string>, circle: set<string>, p: string, i: nat, q: string)
    requires Readable(s, p)
  {
    && q in circle && IncludeExpand.Includes(s, TextOf(s, p), i, q)
    && forall k: nat :: k < i && k < |Lines(TextOf(s, p))| ==> FineLine(s, good, Lines(TextOf(s, p)), k)
  }

  ghost predicate Endless(s: Setting, good: set<string>, circle: set<string>) {
    forall p :: p in circle ==> Readable(s, p) && exists i: nat, q :: LeadsOn(s, good, circle, p, i, q)
  }

  /** Along a circle where every line before the next include is fine, every limit is overflown. */
  lemma {:induction false} CirclesOverflow(s: Setting, good: set<string>, circle: set<string>, stack: Stack,
                                           name: string, line: nat, p: string)
    requires Fine(s, good) && Endless(s, good, circle) && p in circle
    ensures Readable(s, p) && Overflows(s.Expand(stack, name, line, TextOf(s, p)))
    decreases if s.limit > Height(stack) then s.limit - Height(stack) else 0
  {
    hide Setting.Walk, Setting.Expand, Setting.Open, Lines, Classify, Fine, Endless, LeadsOn, Readable, Overflows;
    var i, q := NextOnCircle(s, good, circle, p);
    ExpandCases(s, stack, name, line, TextOf(s, p));
    if Height(stack) < s.limit {
      var top := Desc(name, stack, line);
      CirclesOverflow(s, good, circle, top, q, i + 1, q);
      LeadReaches(s, good, circle, top, p, i, q);
    }
  }

  lemma ExpandCases(s: Setting, stack: Stack, name: string, line: nat, text: string)
    ensures Height(stack) >= s.limit ==> Overflows(s.Expand(stack, name, line, text))
    ensures Height(stack) < s.limit ==>
              s.Expand(stack, name, line, text) == s.Walk(Desc(name, stack, line), Lines(text), 0, false)
  {
    hide Setting.Walk, Lines;
  }

  lemma LeadReaches(s: Setting, good: set<string>, circle: set<string>, top: Stack, p: string, i: nat, q: string)
    requires Fine(s, good) && Readable(s, p) && Readable(s, q) && LeadsOn(s, good, circle, p, i, q)
    requires top.Desc? && Height(top) <= s.limit && Overflows(s.Expand(top, q, i + 1, TextOf(s, q)))
    ensures Overflows(s.Walk(top, Lines(TextOf(s, p)), 0, false))
  {
    hide Setting.Walk, Setting.Expand, Setting.Open, Lines, Classify, Fine, Overflows;
    WalkReaches(s, good, top, Lines(TextOf(s, p)), 0, false, i, q);
  }

  lemma NextOnCircle(s: Setting, good: set<string>, circle: set<string>, p: string) returns (i: nat, q: string)
    requires Endless(s, good, circle) && p in circle
    ensures Readable(s, p) && q in circle && LeadsOn(s, good, circle, p, i, q) && Readable(s, q)
  {
    hide LeadsOn, Setting.Open;
    i, q :| LeadsOn(s, good, circle, p, i, q);
    OnCircle(s, good, circle, p, i, q);
  }

  lemma OnCircle(s: Setting, good: set<string>, circle: set<string>, p: string, i: nat, q: string)
    requires Readable(s, p) && LeadsOn(s, good, circle, p, i, q)
    ensures q in circle
  {
  }

  lemma {:induction false} WalkReaches(s: Setting, good: set<string>, stack: Stack, lines: seq<string>, i: nat,
                                       optional: bool, k: nat, path: string)
    requires Fine(s, good) && i <= k < |lines| && stack.Desc? && Height(stack) <= s.limit
    requires optional <==> Marks(s, lines, i - 1)
    requires forall j: nat :: i <= j < k ==> FineLine(s, good, lines, j)
    requires Classify(lines[k], s.options) == IncludeText.Include(path) && Readable(s, path)
    requires Overflows(s.Expand(stack, path, k + 1, TextOf(s, path)))
    ensures Overflows(s.Walk(stack, lines, i, optional))
    decreases k - i
  {
    hide Setting.Expand, Classify, Setting.Open, Fine;
    if i < k {
      assert FineLine(s, good, lines, i);
      WalkReaches(s, good, stack, lines, i + 1, Classify(lines[i], s.options).Marker?, k, path);
      var kind := Classify(lines[i], s.options);
      if kind.Include? && Readable(s, kind.path) { FinePasses(s, good, stack, kind.path, i + 1, kind.path); }
    }
  }
}
