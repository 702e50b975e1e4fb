/** Recursive expansion of include directives over any graph of files, and the inliner that performs it. */
module IncludeExpand {
  import opened IncludeText

  datatype File = Closed | Text(text: string)

  /** The files there are, by their path under the root. */
  type Files = map<string, File>

  /** The chain of files being read, innermost first, each with the line that included it. */
  datatype Stack = Nil | Desc(path: string, from: Stack, line: nat)

  function Height(stack: Stack): nat { if stack.Nil? then 0 else 1 + Height(stack.from) }

  /** The innermost file with `line`, then every including file with the line of its directive. */
  function Trace(stack: Stack, line: nat): (trace: seq<(string, nat)>)
    ensures |trace| == Height(stack)
  {
    if stack.Nil? then [] else [(stack.path, line)] + Trace(stack.from, stack.line)
  }

  datatype Error =
    | Overflow(trace: seq<(string, nat)>)
    | IncludeExpected(trace: seq<(string, nat)>)
    | WrongDirective(trace: seq<(string, nat)>)
    | NotFound(path: string, trace: seq<(string, nat)>)
    | CannotOpen(path: string, trace: seq<(string, nat)>)

  datatype End = Done | Failed(error: Error)

  /** What is written, how it ends, and the stack it leaves behind. */
  datatype Expansion = Expansion(lines: seq<string>, end: End, stack: Stack)

  datatype Setting = Setting(files: Files, root: string, options: Options, limit: nat) {
    function Open(path: string): Option<File> {
      if root + "/" + path in files then Some(files[root + "/" + path]) else None
    }

    /** One file on top of `stack`. */
    function Expand(stack: Stack, name: string, line: nat, text: string): Expansion
      decreases if limit > Height(stack) then limit - Height(stack) else 0, 0
    {
      if Height(stack) >= limit then Expansion([], Failed(Overflow(Trace(stack, 0))), stack)
      else Walk(Desc(name, stack, line), Lines(text), 0, false)
    }

    /** The lines from `i` on of the file on top of the stack; `optional` if the line before said so. */
    function Walk(stack: Stack, lines: seq<string>, i: nat, optional: bool): Expansion
      requires i <= |lines| && stack.Desc? && Height(stack) <= limit
      decreases if limit >= Height(stack) then limit - Height(stack) else 0, 1 + |lines| - i
    {
      if i == |lines| then Expansion([], Done, stack.from)
      else
        match Classify(lines[i], options)
        case Marker =>
          if optional then Expansion([], Failed(IncludeExpected(Trace(stack, i + 1))), stack)
          else Walk(stack, lines, i + 1, true)
        case Wrong => Expansion([], Failed(WrongDirective(Trace(stack, i + 1))), stack)
        case Plain =>
          if optional then Expansion([], Failed(IncludeExpected(Trace(stack, i + 1))), stack)
          else After([lines[i]], Walk(stack, lines, i + 1, false))
        case Include(path) =>
          match Open(path)
          case None =>
            if optional then Walk(stack, lines, i + 1, false)
            else Expansion([], Failed(NotFound(path, Trace(stack, i + 1))), stack)
          case Some(Closed) => Expansion([], Failed(CannotOpen(path, Trace(stack, i + 1))), stack)
          case Some(Text(text)) =>
            var inner := Expand(stack, path, i + 1, text);
            if inner.end.Done? then After(inner.lines, Walk(stack, lines, i + 1, false)) else inner
      }
  }

  function After(first: seq<string>, rest: Expansion): Expansion { rest.(lines := first + rest.lines) }

  // ---- What an expansion leaves behind ----

  /** `upper` is `lower` with files on top. */
  predicate Above(upper: Stack, lower: Stack) { upper == lower || (upper.Desc? && Above(upper.from, lower)) }

  /**
   On success the stack is what it was; on failure it still holds the files that were being read, and the trace names
   them all.
   */
  ghost predicate LeavesBehind(e: Expansion, before: Stack, reading: Stack, limit: nat) {
    match e.end
    case Done => e.stack == before
    case Failed(error) =>
      && Above(e.stack, reading) && Height(e.stack) <= limit
      && (exists line :: error.trace == Trace(e.stack, line))
      && (error.Overflow? ==> Height(e.stack) == limit)
  }

  lemma {:induction false} ExpandLeaves(s: Setting, stack: Stack, name: string, line: nat, text: string)
    requires Height(stack) <= s.limit
    ensures LeavesBehind(s.Expand(stack, name, line, text), stack, stack, s.limit)
    decreases s.limit - Height(stack), 0
  {
    if Height(stack) < s.limit {
      var top := Desc(name, stack, line);
      WalkLeaves(s, top, Lines(text), 0, false);
      assert Above(top, stack);
      var e := s.Walk(top, Lines(text), 0, false);
      if e.end.Failed? { AboveThrough(e.stack, top); }
    } else {
      assert s.Expand(stack, name, line, text).end.error.trace == Trace(stack, 0);
    }
  }

  lemma {:induction false} AboveThrough(upper: Stack, top: Stack)
    requires Above(upper, top) && top.Desc?
    ensures Above(upper, top.from)
  {
    if upper != top { AboveThrough(upper.from, top); } else { assert Above(top.from, top.from); }
  }

  lemma {:induction false} WalkLeaves(s: Setting, stack: Stack, lines: seq<string>, i: nat, optional: bool)
    requires i <= |lines| && stack.Desc? && Height(stack) <= s.limit
    ensures LeavesBehind(s.Walk(stack, lines, i, optional), stack.from, stack, s.limit)
    decreases s.limit - Height(stack), 1 + |lines| - i
  {
    if i < |lines| {
      WalkLeaves(s, stack, lines, i + 1, false);
      WalkLeaves(s, stack, lines, i + 1, true);
      var e := s.Walk(stack, lines, i, optional);
      var kind := Classify(lines[i], s.options);
      if kind.Include? && s.Open(kind.path).Some? && s.Open(kind.path).value.Text? {
        ExpandLeaves(s, stack, kind.path, i + 1, s.Open(kind.path).value.text);
      }
      assert Above(stack, stack) && Trace(stack, i + 1) == Trace(stack, i + 1);
    }
  }

  // ---- The depth limit ----

  /** An expansion that does not overflow is the same under every larger limit. */
  lemma {:induction false} ExpandStable(s: Setting, larger: nat, stack: Stack, name: string, line: nat, text: string)
    requires s.limit <= larger && !Overflows(s.Expand(stack, name, line, text))
    ensures s.(limit := larger).Expand(stack, name, line, text) == s.Expand(stack, name, line, text)
    decreases if s.limit > Height(stack) then s.limit - Height(stack) else 0, 0
  {
    WalkStable(s, larger, Desc(name, stack, line), Lines(text), 0, false);
  }

  predicate Overflows(e: Expansion) { e.end.Failed? && e.end.error.Overflow? }

  lemma {:induction false} WalkStable(s: Setting, larger: nat, stack: Stack, lines: seq<string>, i: nat, optional: bool)
    requires s.limit <= larger && i <= |lines| && stack.Desc? && Height(stack) <= s.limit
    requires !Overflows(s.Walk(stack, lines, i, optional))
    ensures s.(limit := larger).Walk(stack, lines, i, optional) == s.Walk(stack, lines, i, optional)
    decreases s.limit - Height(stack), 1 + |lines| - i
  {
    if i < |lines| {
      match Classify(lines[i], s.options)
      case Marker => if !optional { WalkStable(s, larger, stack, lines, i + 1, true); }
      case Wrong =>
      case Plain => if !optional { WalkStable(s, larger, stack, lines, i + 1, false); }
      case Include(path) =>
        if s.Open(path) == None {
          if optional { WalkStable(s, larger, stack, lines, i + 1, false); }
        } else if s.Open(path).value.Text? {
          var text := s.Open(path).value.text;
          ExpandStable(s, larger, stack, path, i + 1, text);
          if s.Expand(stack, path, i + 1, text).end.Done? { WalkStable(s, larger, stack, lines, i + 1, false); }
        }
    }
  }

  /** Line `i` of a text includes a file that can be read. */
  predicate Includes(s: Setting, text: string, i: nat, path: string) {
    && i < |Lines(text)| && Classify(Lines(text)[i], s.options) == IncludeText.Include(path)
    && s.Open(path).Some? && s.Open(path).value.Text?
  }

  /** Every file in the set includes a file in the set. */
  ghost predicate Circular(s: Setting, paths: set<string>) {
    forall p :: p in paths ==>
      s.Open(p).Some? && s.Open(p).value.Text?
      && exists i: nat, q :: q in paths && Includes(s, s.Open(p).value.text, i, q)
  }

  /** Nothing that leads into a circle succeeds, whatever the limit. */
  lemma {:induction false} CirclesFail(s: Setting, paths: set<string>, stack: Stack, name: string, line: nat, p: string)
    requires Circular(s, paths) && p in paths && s.Open(p).Some? && s.Open(p).value.Text?
    ensures s.Expand(stack, name, line, s.Open(p).value.text).end.Failed?
    decreases if s.limit > Height(stack) then s.limit - Height(stack) else 0
  {
    hide Setting.Walk, Setting.Expand, Setting.Open, Lines, Classify, Circular, Includes;
    Overflowing(s, stack, name, line, s.Open(p).value.text);
    if Height(stack) < s.limit {
      var text, top := s.Open(p).value.text, Desc(name, stack, line);
      var i, q := NextInCircle(s, paths, p);
      CirclesFail(s, paths, top, q, i + 1, q);
      CircleMeets(s, top, text, i, q);
    }
  }

  lemma Overflowing(s: Setting, stack: Stack, name: string, line: nat, text: string)
    ensures Height(stack) >= s.limit ==> s.Expand(stack, name, line, text).end.Failed?
    ensures Height(stack) < s.limit ==>
              s.Expand(stack, name, line, text) == s.Walk(Desc(name, stack, line), Lines(text), 0, false)
  {
    hide Setting.Walk, Lines;
  }

  lemma NextInCircle(s: Setting, paths: set<string>, p: string) returns (i: nat, q: string)
    requires Circular(s, paths) && p in paths
    ensures q in paths && s.Open(p).Some? && s.Open(p).value.Text? && Includes(s, s.Open(p).value.text, i, q)
    ensures s.Open(q).Some? && s.Open(q).value.Text?
  {
    hide Setting.Open, Includes;
    i, q :| q in paths && Includes(s, s.Open(p).value.text, i, q);
  }

  lemma CircleMeets(s: Setting, top: Stack, text: string, i: nat, q: string)
    requires Includes(s, text, i, q) && top.Desc? && Height(top) <= s.limit
    requires s.Expand(top, q, i + 1, s.Open(q).value.text).end.Failed?
    ensures s.Walk(top, Lines(text), 0, false).end.Failed?
  {
    hide Setting.Walk, Setting.Expand, Setting.Open, Lines, Classify;
    WalkMeets(s, top, Lines(text), 0, false, i, q);
  }

  /** A walk that fails at a later include fails. */
  lemma {:induction false} WalkMeets(s: Setting, stack: Stack, lines: seq<string>, i: nat, optional: bool, k: nat,
                                     path: string)
    requires i <= k < |lines| && stack.Desc? && Height(stack) <= s.limit
    requires Classify(lines[k], s.options) == IncludeText.Include(path) && s.Open(path).Some?
    requires s.Open(path).value.Text?
    requires s.Expand(stack, path, k + 1, s.Open(path).value.text).end.Failed?
    ensures s.Walk(stack, lines, i, optional).end.Failed?
    decreases k - i
  {
    hide Setting.Expand, Setting.Open, Lines, Classify;
    if i < k {
      WalkMeets(s, stack, lines, i + 1, false, k, path);
      WalkMeets(s, stack, lines, i + 1, true, k, path);
    }
  }

  /** A rank that goes down along every include. */
  ghost predicate Ranked(s: Setting, rank: string -> nat) {
    forall p, i: nat, q :: s.Open(p).Some? && s.Open(p).value.Text? && Includes(s, s.Open(p).value.text, i, q) ==>
        rank(q) < rank(p)
  }

  /** With room for its rank, a file never overflows. */
  lemma {:induction false} RankedFits(s: Setting, rank: string -> nat, stack: Stack, line: nat, p: string)
    requires Ranked(s, rank) && s.Open(p).Some? && s.Open(p).value.Text? && Height(stack) + rank(p) < s.limit
    ensures !Overflows(s.Expand(stack, p, line, s.Open(p).value.text))
    decreases rank(p), |Lines(s.Open(p).value.text)| + 1
  {
    RankedWalks(s, rank, Desc(p, stack, line), p, 0, false);
  }

  lemma {:induction false} RankedWalks(s: Setting, rank: string -> nat, stack: Stack, p: string, i: nat, optional: bool)
    requires Ranked(s, rank) && s.Open(p).Some? && s.Open(p).value.Text? && stack.Desc?
    requires Height(stack) + rank(p) <= s.limit
    requires i <= |Lines(s.Open(p).value.text)|
    ensures !Overflows(s.Walk(stack, Lines(s.Open(p).value.text), i, optional))
    decreases rank(p), |Lines(s.Open(p).value.text)| - i
  {
    var lines := Lines(s.Open(p).value.text);
    if i < |lines| {
      RankedWalks(s, rank, stack, p, i + 1, false);
      RankedWalks(s, rank, stack, p, i + 1, true);
      var kind := Classify(lines[i], s.options);
      if kind.Include? && s.Open(kind.path).Some? && s.Open(kind.path).value.Text? {
        assert Includes(s, s.Open(p).value.text, i, kind.path);
        RankedFits(s, rank, stack, i + 1, kind.path);
      }
    }
  }
}
