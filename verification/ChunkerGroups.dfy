/** How neighbouring chunks overlap: packed sentences carry their last characters over, and windows slide. */
module ChunkerGroups {
  import opened Whitespace
  import opened Chunker

  // ---- Windows slide ----

  /** Windows `size` long, or shorter at the end of the span, that start a step apart, from `at` to the end. */
  ghost predicate Slides(r: seq<Span>, p: Span, size: nat, step: nat, at: nat) {
    && r != [] && r[0].lo == at && r[|r| - 1].lo < p.hi <= r[|r| - 1].lo + step
    && (forall k :: 0 <= k < |r| ==> r[k].hi == if r[k].lo + size < p.hi then r[k].lo + size else p.hi)
    && (forall k :: 0 <= k < |r| - 1 ==> r[k + 1].lo == r[k].lo + step)
  }

  lemma SlidesCons(w: Span, rest: seq<Span>, p: Span, size: nat, step: nat)
    requires w.lo < p.hi && w.hi == if w.lo + size < p.hi then w.lo + size else p.hi
    requires if w.lo + step < p.hi then Slides(rest, p, size, step, w.lo + step) else rest == []
    ensures Slides([w] + rest, p, size, step, w.lo)
  {
    var r := [w] + rest;
    assert forall k :: 0 < k < |r| ==> r[k] == rest[k - 1];
  }

  lemma WindowsCons(p: Span, size: nat, overlap: nat, at: nat, step: nat)
    requires at < p.hi && step == if size > overlap then size - overlap else 1
    ensures AllWindows(p, size, overlap, at)
         == [Span(at, if at + size < p.hi then at + size else p.hi)] + AllWindows(p, size, overlap, at + step)
    ensures at + step >= p.hi ==> AllWindows(p, size, overlap, at + step) == []
  {
  }

  /** The step is `size - overlap`, or 1 when that is not positive. */
  lemma {:induction false} WindowsSlide(p: Span, size: nat, overlap: nat, at: nat, step: nat)
    requires at < p.hi && step == if size > overlap then size - overlap else 1
    ensures Slides(AllWindows(p, size, overlap, at), p, size, step, at)
    decreases p.hi - at
  {
    WindowsCons(p, size, overlap, at, step);
    if at + step < p.hi { WindowsSlide(p, size, overlap, at + step, step); }
    SlidesCons(Span(at, if at + size < p.hi then at + size else p.hi),
               AllWindows(p, size, overlap, at + step), p, size, step);
  }

  /** So the last `overlap` positions of a window that does not reach the end are the first ones of the next window. */
  lemma WindowsOverlap(p: Span, size: nat, overlap: nat, k: nat)
    requires size > overlap && p.lo < p.hi
    requires var r := AllWindows(p, size, overlap, p.lo); k < |r| && r[k].hi < p.hi
    ensures var r := AllWindows(p, size, overlap, p.lo);
      k + 1 < |r| && r[k + 1].lo == r[k].hi - overlap && r[k].hi <= r[k + 1].hi
  {
    WindowsSlide(p, size, overlap, p.lo, size - overlap);
  }

  lemma {:induction false} KeepsAll(s: string, spans: seq<Span>)
    requires forall k :: 0 <= k < |spans| ==> spans[k].lo <= spans[k].hi <= |s| && !Blank(s, spans[k])
    ensures WithoutBlanks(s, spans) == spans
  {
    if spans == [] {
    } else {
      KeepsAll(s, spans[1..]);
    }
  }

  /** In a collapsed text only windows of one character can be blank, so all others become chunks. */
  lemma NoWindowIsBlank(s: string, p: Span, size: nat, overlap: nat)
    requires Collapsed(s) && Block(s, p) && size >= 2
    ensures WindowSpans(s, p, size, overlap) == AllWindows(p, size, overlap, p.lo)
  {
    var r := AllWindows(p, size, overlap, p.lo);
    AllWindowsTile(s, p, size, overlap, p.lo);
    WindowsSlide(p, size, overlap, p.lo, if size > overlap then size - overlap else 1);
    forall k | 0 <= k < |r| ensures !Blank(s, r[k]) {
      if r[k].hi == p.hi {
        assert !IsSpace(s[p.hi - 1]);
      } else {
        assert r[k].hi == r[k].lo + size;
        assert IsSpace(s[r[k].lo]) ==> s[r[k].lo] == ' ';
        assert IsSpace(s[r[k].lo]) ==> !IsSpace(s[r[k].lo + 1]);
      }
    }
    KeepsAll(s, r);
  }

  // ---- Sentences are packed, or cut into windows ----

  /** Where a sentence ends: at a space after its end mark, or at the end of the text. */
  predicate Break(s: string, e: nat) {
    e == |s| || (0 < e < |s| && s[e] == ' ' && EndsSentence(s[e - 1]))
  }

  /** A stretch of the text that is one chunk, or one that is cut into windows. */
  datatype Group = Whole(span: Span) | Windowed(span: Span)

  function Flatten(s: string, groups: seq<Group>, size: nat, overlap: nat): seq<Span>
    requires forall k :: 0 <= k < |groups| ==> groups[k].span.lo < groups[k].span.hi <= |s|
  {
    if groups == [] then []
    else
      (if groups[0].Whole? then [groups[0].span] else WindowSpans(s, groups[0].span, size, overlap))
      + Flatten(s, groups[1..], size, overlap)
  }

  /** A single chunk is within size and a windowed stretch is not; both end where a sentence does. */
  ghost predicate GroupIn(s: string, g: Group, size: nat) {
    g.span.lo < g.span.hi <= |s| && Break(s, g.span.hi) && (g.Whole? <==> g.span.hi - g.span.lo <= size)
  }

  /**
   * After a single chunk comes a stretch that repeats its last `overlap` characters, or all of it when it has no more
   * or the overlap is 0, but for one leading space. The sentence after the chunk would not have fitted into it, and
   * when that does not fit with what is repeated either, it is windowed together with that and nothing else.
   * After a windowed stretch the text goes on with the next sentence and repeats nothing.
   */
  ghost predicate Follows(s: string, a: Group, b: Group, size: nat, overlap: nat)
    requires a.span.lo < a.span.hi <= |s|
  {
    && a.span.hi < b.span.hi
    && (a.Whole? ==>
          && (var from := if 0 < overlap < a.span.hi - a.span.lo then a.span.hi - overlap else a.span.lo;
              b.span.lo == if IsSpace(s[from]) then from + 1 else from)
          && (forall e :: a.span.hi < e && Break(s, e) ==> e - a.span.lo > size))
    && (a.Windowed? ==> b.span.lo == a.span.hi + 1)
    && (b.Windowed? ==> forall e :: b.span.lo <= e < b.span.hi && Break(s, e) ==> a.Whole? && e <= a.span.hi)
  }

  ghost predicate Grouped(s: string, groups: seq<Group>, size: nat, overlap: nat) {
    && (forall k :: 0 <= k < |groups| ==> GroupIn(s, groups[k], size))
    && (forall k :: 0 <= k < |groups| - 1 ==> Follows(s, groups[k], groups[k + 1], size, overlap))
    && (groups != [] ==> groups[|groups| - 1].span.hi == |s|)
  }

  lemma GroupedCons(s: string, g: Group, rest: seq<Group>, size: nat, overlap: nat)
    requires Grouped(s, rest, size, overlap) && GroupIn(s, g, size)
    requires if rest == [] then g.span.hi == |s| else Follows(s, g, rest[0], size, overlap)
    ensures Grouped(s, [g] + rest, size, overlap)
  {
    var all := [g] + rest;
    forall k | 0 <= k < |all| - 1 ensures Follows(s, all[k], all[k + 1], size, overlap) {
      if k > 0 { assert all[k] == rest[k - 1] && all[k + 1] == rest[k]; }
    }
  }

  /** Every paragraph ends at a break and holds no other. */
  ghost predicate Broken(s: string, parts: seq<Span>) {
    forall k :: 0 <= k < |parts| ==>
      && parts[k].hi <= |s| && Break(s, parts[k].hi)
      && forall e :: parts[k].lo <= e < parts[k].hi ==> !Break(s, e)
  }

  lemma {:induction false} ParagraphsAreBroken(s: string, start: nat, i: nat)
    requires start <= i <= |s| && forall e :: start <= e < i ==> !Break(s, e)
    ensures Broken(s, ParagraphSpans(s, start, i))
    decreases |s| - i
  {
    if i == |s| {
    } else if s[i] == ' ' && i > 0 && EndsSentence(s[i - 1]) {
      ParagraphsAreBroken(s, i + 1, i + 1);
    } else {
      ParagraphsAreBroken(s, start, i + 1);
    }
  }

  /** What the rest of the plan is made of, by what is being built. */
  ghost predicate Begins(
    s: string, groups: seq<Group>, current: Current, parts: seq<Span>, k: nat, size: nat, overlap: nat)
    requires k <= |parts|
  {
    && Grouped(s, groups, size, overlap)
    && match current
       case Building(c) =>
         groups != [] && groups[0].Whole? && groups[0].span.lo == c.lo && groups[0].span.hi >= c.hi
       case Nothing =>
         if k == |parts| then groups == []
         else
           groups != [] && groups[0].span.lo == parts[k].lo && groups[0].span.hi >= parts[k].hi
           && (groups[0].Windowed? ==> groups[0].span == parts[k])
  }

  /** A stretch too long for one chunk, ending with paragraph k. */
  lemma WindowedFirst(s: string, p: Span, parts: seq<Span>, k: nat, size: nat, overlap: nat, rest: seq<Group>)
    requires Chain(s, parts, 0) && Broken(s, parts) && k < |parts|
    requires p.lo < p.hi == parts[k].hi && p.hi - p.lo > size
    requires Begins(s, rest, Nothing, parts, k + 1, size, overlap)
    ensures Grouped(s, [Windowed(p)] + rest, size, overlap)
  {
    if k + 1 < |parts| { assert Block(s, parts[k + 1]); }
    GroupedCons(s, Windowed(p), rest, size, overlap);
  }

  /** A chunk that paragraph k did not fit into, and what takes over from it. */
  lemma WholeFirst(s: string, c: Span, parts: seq<Span>, k: nat, size: nat, overlap: nat, rest: seq<Group>)
    requires Collapsed(s) && Chain(s, parts, 0) && Broken(s, parts) && 0 < k < |parts| && Block(s, parts[k])
    requires Block(s, c) && c.hi == parts[k - 1].hi && parts[k].lo == c.hi + 1
    requires Width(c) <= size < parts[k].hi - c.lo
    requires Grouped(s, rest, size, overlap) && rest != []
    requires rest[0].span.lo == CarryFrom(s, c, overlap) && rest[0].span.hi >= parts[k].hi
    requires rest[0].Windowed? ==> rest[0].span.hi == parts[k].hi
    ensures Grouped(s, [Whole(c)] + rest, size, overlap)
  {
    assert forall e :: parts[k].lo <= e < parts[k].hi ==> !Break(s, e);
    GroupedCons(s, Whole(c), rest, size, overlap);
  }

  /** Paragraph k does not fit what is being built: that is a chunk, and the carried text goes on. */
  lemma CarriesOn(
    s: string, c: Span, parts: seq<Span>, k: nat, size: nat, overlap: nat, next: Current, rest: seq<Group>)
    returns (groups: seq<Group>)
    requires Collapsed(s) && Chain(s, parts, 0) && Broken(s, parts) && 0 < k < |parts| && Block(s, parts[k])
    requires Block(s, c) && c.hi == parts[k - 1].hi && parts[k].lo == c.hi + 1
    requires Width(c) <= size < parts[k].hi - c.lo
    requires c.lo <= CarryFrom(s, c, overlap) < c.hi
    requires var carried := Span(CarryFrom(s, c, overlap), parts[k].hi);
      next == if Width(carried) > size then Nothing else Building(carried)
    requires Begins(s, rest, next, parts, k + 1, size, overlap)
    ensures Begins(s, groups, Building(c), parts, k, size, overlap)
    ensures var carried := Span(CarryFrom(s, c, overlap), parts[k].hi);
      Flatten(s, groups, size, overlap)
      == (if Width(carried) > size then [c] + WindowSpans(s, carried, size, overlap) else [c])
         + Flatten(s, rest, size, overlap)
  {
    var carried := Span(CarryFrom(s, c, overlap), parts[k].hi);
    var after := rest;
    if next.Nothing? {
      WindowedFirst(s, carried, parts, k, size, overlap, rest);
      after := [Windowed(carried)] + rest;
      assert after[1..] == rest;
      assert [c] + (WindowSpans(s, carried, size, overlap) + Flatten(s, rest, size, overlap))
          == ([c] + WindowSpans(s, carried, size, overlap)) + Flatten(s, rest, size, overlap);
    }
    WholeFirst(s, c, parts, k, size, overlap, after);
    groups := [Whole(c)] + after;
    assert groups[1..] == after;
  }

  lemma GroupsGrow(
    s: string, current: Current, parts: seq<Span>, k: nat, size: nat, overlap: nat, to: Span, rest: seq<Group>)
    requires k < |parts| && to.hi == parts[k].hi
    requires to.lo == if current.Building? then current.span.lo else parts[k].lo
    requires current.Building? ==> current.span.hi <= to.hi
    requires Begins(s, rest, Building(to), parts, k + 1, size, overlap)
    ensures Begins(s, rest, current, parts, k, size, overlap)
  {
  }

  lemma WindowsBegin(s: string, parts: seq<Span>, k: nat, size: nat, overlap: nat, rest: seq<Group>)
    returns (groups: seq<Group>)
    requires Chain(s, parts, 0) && Broken(s, parts) && k < |parts| && Block(s, parts[k]) && Width(parts[k]) > size
    requires Begins(s, rest, Nothing, parts, k + 1, size, overlap)
    ensures Begins(s, groups, Nothing, parts, k, size, overlap)
    ensures Flatten(s, groups, size, overlap)
         == WindowSpans(s, parts[k], size, overlap) + Flatten(s, rest, size, overlap)
  {
    WindowedFirst(s, parts[k], parts, k, size, overlap, rest);
    groups := [Windowed(parts[k])] + rest;
    assert groups[1..] == rest;
  }

  /** One paragraph, before what the rest of the plan is made of. */
  lemma StepIsGrouped(
    s: string, current: Current, parts: seq<Span>, k: nat, size: nat, overlap: nat, rest: seq<Group>)
    returns (groups: seq<Group>)
    requires Collapsed(s) && Chain(s, parts, 0) && Broken(s, parts) && k < |parts|
    requires Block(s, parts[k]) && Ready(s, current, parts, k, size)
    requires current.Building? ==> parts[k].lo == current.span.hi + 1
    requires Begins(s, rest, Pack(s, current, parts[k], size, overlap).1, parts, k + 1, size, overlap)
    ensures Begins(s, groups, current, parts, k, size, overlap)
    ensures Flatten(s, groups, size, overlap)
         == Pack(s, current, parts[k], size, overlap).0 + Flatten(s, rest, size, overlap)
  {
    var packed := Pack(s, current, parts[k], size, overlap);
    var candidate := if current.Building? then Span(current.span.lo, parts[k].hi) else parts[k];
    if Width(candidate) <= size {
      groups := rest;
      GroupsGrow(s, current, parts, k, size, overlap, candidate, rest);
      assert [] + Flatten(s, rest, size, overlap) == Flatten(s, rest, size, overlap);
    } else if current.Nothing? {
      groups := WindowsBegin(s, parts, k, size, overlap, rest);
    } else {
      CarryIsInside(s, current.span, overlap);
      groups := CarriesOn(s, current.span, parts, k, size, overlap, packed.1, rest);
    }
  }

  lemma {:induction false} PlanIsGrouped(
    s: string, current: Current, parts: seq<Span>, k: nat, size: nat, overlap: nat) returns (groups: seq<Group>)
    requires Collapsed(s) && Chain(s, parts, 0) && Broken(s, parts) && Ready(s, current, parts, k, size)
    ensures Begins(s, groups, current, parts, k, size, overlap)
    ensures PlanFrom(s, current, parts, k, size, overlap) == Flatten(s, groups, size, overlap)
    decreases |parts| - k
  {
    if k == |parts| {
      groups := if current.Building? then [Whole(current.span)] else [];
    } else {
      PackKeepsReady(s, current, parts, k, size, overlap);
      CurrentEndsBeforePart(s, current, parts, k, size);
      var rest := PlanIsGrouped(s, Pack(s, current, parts[k], size, overlap).1, parts, k + 1, size, overlap);
      groups := StepIsGrouped(s, current, parts, k, size, overlap, rest);
    }
  }

  /**
   * For every text, size and overlap, the chunks are those of a sequence of stretches from the first character to the
   * last, each of them packed with as many sentences as fit or windowed, that follow each other with the overlap.
   */
  lemma ChunksAreGrouped(text: string, size: nat, overlap: nat) returns (groups: seq<Group>)
    ensures var s := CollapseWhitespace(text);
      && Collapsed(s) && Grouped(s, groups, size, overlap)
      && (if s == "" then groups == [] else groups != [] && groups[0].span.lo == 0)
      && (groups != [] && groups[0].Windowed? ==> forall e :: 0 <= e < groups[0].span.hi ==> !Break(s, e))
      && ChunkSpans(s, size, overlap) == Flatten(s, groups, size, overlap)
  {
    CollapseCollapses(text);
    var s := CollapseWhitespace(text);
    if s == "" {
      groups := [];
    } else if |s| <= size {
      groups := [Whole(Span(0, |s|))];
    } else {
      assert s[0] != ' ';
      ParagraphSpansChain(s, 0, 0);
      ParagraphsAreBroken(s, 0, 0);
      groups := PlanIsGrouped(s, Nothing, ParagraphSpans(s, 0, 0), 0, size, overlap);
    }
  }
}
