/** The inliner: a recursive method that keeps depth, include stack and output in fields. */
module IncludeInliner {
  import opened IncludeText
  import opened IncludeExpand
  import opened IncludeSound

  class Inliner {
    var depth: nat
    var stack: Stack
    var output: string

    constructor ()
      ensures depth == 0 && stack == Nil && output == "" && Consistent()
    {
      depth, stack, output := 0, Nil, "";
    }

    predicate Consistent()
      reads this
    {
      depth == Height(stack)
    }

    /** What the fields become when `e` is carried out. */
    twostate predicate Carried(e: Expansion)
      reads this
    {
      Consistent() && stack == e.stack && output == AppendAll(old(output), e.lines)
    }

    /** A whole run from the top. */
    method Process(s: Setting, name: string, text: string) returns (end: End)
      requires Consistent()
      modifies this
      ensures end == s.Expand(old(stack), name, 0, text).end && Carried(s.Expand(old(stack), name, 0, text))
      ensures stack == old(stack) <==> end.Done? || old(depth) >= s.limit
      ensures depth == old(depth) <==> end.Done? || old(depth) >= s.limit
      ensures end.Done? <==> old(depth) < s.limit && Sound(s, text, s.limit - old(depth) - 1)
      ensures old(output) == "" ==> output == Join(DropEmpty(s.Expand(old(stack), name, 0, text).lines))
    {
      end := ProcessCore(s, name, 0, text);
      OutputIsJoin(s.Expand(old(stack), name, 0, text).lines);
      StackRestored(s, old(stack), name, 0, text);
      SoundIsDone(s, old(stack), name, 0, text);
    }

    method ProcessCore(s: Setting, name: string, line: nat, text: string) returns (end: End)
      requires Consistent()
      modifies this
      ensures end == s.Expand(old(stack), name, line, text).end && Carried(s.Expand(old(stack), name, line, text))
      decreases if s.limit > depth then s.limit - depth else 0, 0
    {
      if depth >= s.limit { return Failed(Overflow(Trace(stack, 0))); }
      depth := depth + 1;
      stack := Desc(name, stack, line);
      end := ReadLines(s, Lines(text));
    }

    /** Reads the lines of the file on top, and takes it off when they are all read. */
    method ReadLines(s: Setting, lines: seq<string>) returns (end: End)
      requires Consistent() && stack.Desc? && depth <= s.limit
      modifies this
      ensures end == s.Walk(old(stack), lines, 0, false).end && Carried(s.Walk(old(stack), lines, 0, false))
      decreases s.limit - depth, 3
    {
      hide Setting.Expand, Classify;
      var current, nextOptional := 0, false;
      ghost var whole := s.Walk(stack, lines, 0, false);
      while current < |lines|
        invariant current <= |lines| && Consistent() && stack == old(stack)
        invariant StillToGo(s, old(output), lines, current, nextOptional, whole)
        decreases |lines| - current
      {
        end, nextOptional := ReadLine(s, lines, current, nextOptional, old(output), whole);
        if end.Failed? { return end; }
        current := current + 1;
      }
      stack := stack.from;
      depth := depth - 1;
      end := Done;
    }

    /** One line; says whether the next one may be an include of a missing file. */
    method ReadLine(s: Setting, lines: seq<string>, current: nat, optional: bool, ghost before: string,
                    ghost whole: Expansion)
      returns (end: End, nextOptional: bool)
      requires current < |lines| && Consistent() && stack.Desc? && depth <= s.limit
      requires StillToGo(s, before, lines, current, optional, whole)
      modifies this
      ensures Consistent()
      ensures end.Done? ==> stack == old(stack) && StillToGo(s, before, lines, current + 1, nextOptional, whole)
      ensures end.Failed? ==> end == whole.end && stack == whole.stack && output == AppendAll(before, whole.lines)
      decreases s.limit - depth, 2
    {
      hide Setting.Expand, Classify, Append;
      var text, number := lines[current], current + 1;
      end, nextOptional := Done, false;
      match Classify(text, s.options)
      case Marker =>
        if optional { return Failed(IncludeExpected(Trace(stack, number))), false; }
        nextOptional := true;
      case Wrong => return Failed(WrongDirective(Trace(stack, number))), false;
      case Plain =>
        if optional { return Failed(IncludeExpected(Trace(stack, number))), false; }
        OneLine(output, text, s.Walk(stack, lines, number, false).lines);
        output := Append(output, text);
      case Include(path) =>
        match s.Open(path)
        case None =>
          if !optional { return Failed(NotFound(path, Trace(stack, number))), false; }
        case Some(Closed) => return Failed(CannotOpen(path, Trace(stack, number))), false;
        case Some(Text(included)) =>
          AppendAllSplits(output, s.Expand(stack, path, number, included).lines,
                          s.Walk(stack, lines, number, false).lines);
          ExpandLeaves(s, stack, path, number, included);
          end := ProcessCore(s, path, number, included);
    }

    /** What has been written and what is left to write make up the whole. */
    ghost predicate StillToGo(s: Setting, before: string, lines: seq<string>, current: nat, optional: bool,
                              whole: Expansion)
      requires current <= |lines| && stack.Desc? && Height(stack) <= s.limit
      reads this
    {
      var rest := s.Walk(stack, lines, current, optional);
      whole.end == rest.end && whole.stack == rest.stack
        && AppendAll(before, whole.lines) == AppendAll(output, rest.lines)
    }
  }

  lemma OneLine(output: string, line: string, rest: seq<string>)
    ensures AppendAll(output, [line] + rest) == AppendAll(Append(output, line), rest)
  {
    hide Append;
    assert ([line] + rest)[1..] == rest;
  }
}
