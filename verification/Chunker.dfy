/** The knowledge-base chunker. */
module Chunker {
  // Paragraphs are packed up to a size, with overlap carried over, and long ones are cut into windows.

  import opened Whitespace

  const CHUNK_SIZE := 800
  const CHUNK_OVERLAP := 120

  // ---- Collapsing whitespace ----

  /** Every run of whitespace becomes one space. */
  function Squeeze(s: string): string
    decreases |s|
  {
    if s == "" then ""
    else if IsSpace(s[0]) then " " + Squeeze(s[SpaceRun(s, 0)..])
    else [s[0]] + Squeeze(s[1..])
  }

  function CollapseWhitespace(text: string): string {
    Strip(Squeeze(text))
  }

  /** The only whitespace is single spaces strictly inside. */
  ghost predicate Collapsed(s: string) {
    && (forall i :: 0 <= i < |s| && IsSpace(s[i]) ==> s[i] == ' ')
    && (forall i :: 0 <= i < |s| && s[i] == ' ' ==> 0 < i < |s| - 1 && !IsSpace(s[i - 1]) && !IsSpace(s[i + 1]))
  }

  /** The characters that are not whitespace, in order. */
  function Letters(s: string): string {
    if s == "" then "" else (if IsSpace(s[0]) then "" else [s[0]]) + Letters(s[1..])
  }

  ghost predicate Squeezed(s: string) {
    && (forall i :: 0 <= i < |s| && IsSpace(s[i]) ==> s[i] == ' ')
    && (forall i :: 0 <= i < |s| - 1 ==> !(s[i] == ' ' && s[i + 1] == ' '))
  }

  lemma {:induction false} SqueezeSqueezes(s: string)
    ensures Squeezed(Squeeze(s))
    ensures s != "" ==> Squeeze(s) != "" && Squeeze(s)[0] == if IsSpace(s[0]) then ' ' else s[0]
    decreases |s|
  {
    if s == "" {
    } else {
      var rest := if IsSpace(s[0]) then s[SpaceRun(s, 0)..] else s[1..];
      SpaceRunIs(s, 0);
      SqueezeSqueezes(rest);
    }
  }

  lemma {:induction false} LettersConcat(s: string, t: string)
    ensures Letters(s + t) == Letters(s) + Letters(t)
  {
    if s == "" {
      assert s + t == t;
    } else {
      LettersConcat(s[1..], t);
      assert (s + t)[0] == s[0] && (s + t)[1..] == s[1..] + t;
      var first := if IsSpace(s[0]) then "" else [s[0]];
      assert Letters(s + t) == first + (Letters(s[1..]) + Letters(t)) == (first + Letters(s[1..])) + Letters(t);
    }
  }

  lemma {:induction false} LettersOfSpaces(s: string)
    requires forall k :: 0 <= k < |s| ==> IsSpace(s[k])
    ensures Letters(s) == ""
  {
    if s == "" {
    } else {
      LettersOfSpaces(s[1..]);
    }
  }

  lemma {:induction false} SqueezeKeepsLetters(s: string)
    ensures Letters(Squeeze(s)) == Letters(s)
    decreases |s|
  {
    if s == "" {
    } else {
      if IsSpace(s[0]) {
        var n := SpaceRun(s, 0);
        SpaceRunIs(s, 0);
        SqueezeKeepsLetters(s[n..]);
        LettersOfSpaces(s[..n]);
        LettersConcat(s[..n], s[n..]);
        assert s == s[..n] + s[n..];
        assert (" " + Squeeze(s[n..]))[1..] == Squeeze(s[n..]);
      } else {
        SqueezeKeepsLetters(s[1..]);
        assert ([s[0]] + Squeeze(s[1..]))[1..] == Squeeze(s[1..]);
      }
    }
  }

  lemma StripKeepsLetters(s: string)
    ensures Letters(Strip(s)) == Letters(s)
  {
    var lo, hi := StripCuts(s);
    LettersConcat(s[..lo] + s[lo..hi], s[hi..]);
    LettersConcat(s[..lo], s[lo..hi]);
    LettersOfSpaces(s[..lo]);
    LettersOfSpaces(s[hi..]);
    assert s == s[..lo] + s[lo..hi] + s[hi..];
  }

  /** Collapsing leaves single inner spaces only and loses no other character. */
  lemma CollapseCollapses(text: string)
    ensures Collapsed(CollapseWhitespace(text))
    ensures Letters(CollapseWhitespace(text)) == Letters(text)
  {
    var q := Squeeze(text);
    SqueezeSqueezes(text);
    SqueezeKeepsLetters(text);
    StripKeepsLetters(q);
    var lo, hi := StripCuts(q);
    SubspanCollapsed(q, lo, hi);
  }

  lemma SubspanCollapsed(q: string, lo: nat, hi: nat)
    requires Squeezed(q) && lo <= hi <= |q|
    requires lo < hi ==> !IsSpace(q[lo]) && !IsSpace(q[hi - 1])
    ensures Collapsed(q[lo..hi])
  {
    var c := q[lo..hi];
    forall i | 0 <= i < |c| && c[i] == ' '
      ensures 0 < i < |c| - 1 && !IsSpace(c[i - 1]) && !IsSpace(c[i + 1])
    {
      assert IsSpace(c[i]) && c[0] == q[lo] && c[|c| - 1] == q[hi - 1];
      assert c[i - 1] == q[lo + i - 1] && c[i + 1] == q[lo + i + 1];
    }
  }

  // ---- Splitting into paragraphs ----

  predicate EndsSentence(c: char) {
    c == '.' || c == '!' || c == '?'
  }

  function NewlineRun(s: string, i: nat): (n: nat)
    requires i <= |s|
    ensures i + n <= |s|
    decreases |s| - i
  {
    if i < |s| && s[i] == '\n' then 1 + NewlineRun(s, i + 1) else 0
  }

  /** Length of the separator at i: whitespace after a sentence end, or else two or more newlines; 0 for none. */
  function SeparatorAt(s: string, i: nat): (n: nat)
    requires i <= |s|
    ensures i + n <= |s|
  {
    if i > 0 && EndsSentence(s[i - 1]) && SpaceRun(s, i) > 0 then SpaceRun(s, i)
    else if NewlineRun(s, i) >= 2 then NewlineRun(s, i)
    else 0
  }

  /** The pieces between separators, scanning from i with the current piece begun at `start`. */
  function SplitFrom(s: string, start: nat, i: nat): seq<string>
    requires start <= i <= |s|
    decreases |s| - i
  {
    if i == |s| then [s[start..]]
    else if SeparatorAt(s, i) > 0 then
      var next := i + SeparatorAt(s, i);
      [s[start..i]] + SplitFrom(s, next, next)
    else SplitFrom(s, start, i + 1)
  }

  function StrippedNonEmpty(pieces: seq<string>): seq<string> {
    if pieces == [] then []
    else (if Strip(pieces[0]) != "" then [Strip(pieces[0])] else []) + StrippedNonEmpty(pieces[1..])
  }

  function Paragraphs(s: string): seq<string> {
    StrippedNonEmpty(SplitFrom(s, 0, 0))
  }

  // ---- Spans of the collapsed text ----

  datatype Span = Span(lo: nat, hi: nat)

  ghost predicate InText(s: string, p: Span) {
    p.lo < p.hi <= |s|
  }

  function TextOf(s: string, p: Span): string
    requires p.lo <= p.hi <= |s|
  {
    s[p.lo..p.hi]
  }

  function Texts(s: string, spans: seq<Span>): (r: seq<string>)
    requires forall k :: 0 <= k < |spans| ==> spans[k].lo <= spans[k].hi <= |s|
    ensures |r| == |spans|
  {
    if spans == [] then [] else [TextOf(s, spans[0])] + Texts(s, spans[1..])
  }

  lemma {:induction false} TextsAt(s: string, spans: seq<Span>, k: nat)
    requires forall k :: 0 <= k < |spans| ==> spans[k].lo <= spans[k].hi <= |s|
    requires k < |spans|
    ensures Texts(s, spans)[k] == TextOf(s, spans[k])
  {
    if k == 0 {
    } else {
      TextsAt(s, spans[1..], k - 1);
    }
  }

  lemma {:induction false} TextsConcat(s: string, a: seq<Span>, b: seq<Span>)
    requires forall k :: 0 <= k < |a| ==> a[k].lo <= a[k].hi <= |s|
    requires forall k :: 0 <= k < |b| ==> b[k].lo <= b[k].hi <= |s|
    ensures Texts(s, a + b) == Texts(s, a) + Texts(s, b)
  {
    if a == [] {
      assert a + b == b;
    } else {
      TextsConcat(s, a[1..], b);
      assert (a + b)[1..] == a[1..] + b;
    }
  }

  /** The paragraphs of a collapsed text, as spans: they break at each space that follows a sentence end. */
  function ParagraphSpans(s: string, start: nat, i: nat): (r: seq<Span>)
    requires start <= i <= |s|
    ensures forall k :: 0 <= k < |r| ==> r[k].lo <= r[k].hi <= |s|
    decreases |s| - i
  {
    if i == |s| then [Span(start, i)]
    else if s[i] == ' ' && i > 0 && EndsSentence(s[i - 1]) then [Span(start, i)] + ParagraphSpans(s, i + 1, i + 1)
    else ParagraphSpans(s, start, i + 1)
  }

  /** A trimmed, non-empty stretch of the text. */
  ghost predicate Block(s: string, p: Span) {
    InText(s, p) && !IsSpace(s[p.lo]) && !IsSpace(s[p.hi - 1])
  }

  /** Blocks that follow each other, one space apart, from `lo` to the end of the text. */
  ghost predicate Chain(s: string, parts: seq<Span>, lo: nat) {
    && parts != []
    && parts[0].lo == lo
    && parts[|parts| - 1].hi == |s|
    && (forall k :: 0 <= k < |parts| ==> Block(s, parts[k]))
    && (forall k :: 0 <= k < |parts| - 1 ==>
          parts[k].hi < |s| && s[parts[k].hi] == ' ' && parts[k + 1].lo == parts[k].hi + 1)
  }

  lemma ChainCons(s: string, p: Span, rest: seq<Span>)
    requires Block(s, p) && Chain(s, rest, p.hi + 1) && p.hi < |s| && s[p.hi] == ' '
    ensures Chain(s, [p] + rest, p.lo)
  {
    var parts := [p] + rest;
    assert parts[|parts| - 1] == rest[|rest| - 1];
    forall k | 0 <= k < |parts| - 1
      ensures parts[k].hi < |s| && s[parts[k].hi] == ' ' && parts[k + 1].lo == parts[k].hi + 1
    {
      assert parts[k + 1] == rest[k];
      if k > 0 { assert parts[k] == rest[k - 1]; }
    }
  }

  lemma {:induction false} ParagraphSpansChain(s: string, start: nat, i: nat)
    requires Collapsed(s) && start <= i <= |s| && start < |s| && !IsSpace(s[start])
    ensures Chain(s, ParagraphSpans(s, start, i), start)
    decreases |s| - i
  {
    if i == |s| {
      assert s[|s| - 1] != ' ';
      assert Block(s, Span(start, i));
    } else if s[i] == ' ' && i > 0 && EndsSentence(s[i - 1]) {
      assert start != i && i + 1 < |s| && !IsSpace(s[i + 1]);
      assert Block(s, Span(start, i));
      ParagraphSpansChain(s, i + 1, i + 1);
      ChainCons(s, Span(start, i), ParagraphSpans(s, i + 1, i + 1));
    } else {
      ParagraphSpansChain(s, start, i + 1);
    }
  }

  lemma {:induction false} SplitIsSpans(s: string, start: nat, i: nat)
    requires Collapsed(s) && start <= i <= |s|
    ensures SplitFrom(s, start, i) == Texts(s, ParagraphSpans(s, start, i))
    decreases |s| - i
  {
    if i == |s| {
      assert s[start..] == s[start..i];
    } else {
      SeparatorOfCollapsed(s, i);
      if SeparatorAt(s, i) > 0 {
        SplitIsSpans(s, i + 1, i + 1);
      } else {
        SplitIsSpans(s, start, i + 1);
      }
    }
  }

  lemma {:induction false} TrimmedPiecesStay(pieces: seq<string>)
    requires forall k :: 0 <= k < |pieces| ==> pieces[k] != "" && Strip(pieces[k]) == pieces[k]
    ensures StrippedNonEmpty(pieces) == pieces
  {
    if pieces == [] {
    } else {
      TrimmedPiecesStay(pieces[1..]);
    }
  }

  /** On a collapsed text the split produces exactly the paragraph spans. */
  lemma SplitIsParagraphs(s: string)
    requires Collapsed(s) && s != ""
    ensures Chain(s, ParagraphSpans(s, 0, 0), 0)
    ensures Paragraphs(s) == Texts(s, ParagraphSpans(s, 0, 0))
  {
    assert s[0] != ' ';
    ParagraphSpansChain(s, 0, 0);
    SplitIsSpans(s, 0, 0);
    var spans := ParagraphSpans(s, 0, 0);
    var texts := Texts(s, spans);
    forall k | 0 <= k < |texts| ensures texts[k] != "" && Strip(texts[k]) == texts[k] {
      TextsAt(s, spans, k);
    }
    TrimmedPiecesStay(texts);
  }

  lemma SeparatorOfCollapsed(s: string, i: nat)
    requires Collapsed(s) && i < |s|
    ensures SeparatorAt(s, i) == if s[i] == ' ' && i > 0 && EndsSentence(s[i - 1]) then 1 else 0
  {
    assert IsSpace('\n') && IsSpace(' ');
    if s[i] == ' ' {
      assert SpaceRun(s, i + 1) == 0;
    }
  }

  // ---- The plan: which spans become chunks ----

  datatype Current = Nothing | Building(span: Span)

  function WindowStep(size: nat, overlap: nat): nat {
    if size > overlap then size - overlap else 1
  }

  predicate Blank(s: string, w: Span)
    requires w.hi <= |s|
  {
    forall i :: w.lo <= i < w.hi ==> IsSpace(s[i])
  }

  /** The sliding windows of a span, from offset `at`. */
  function AllWindows(p: Span, size: nat, overlap: nat, at: nat): (r: seq<Span>)
    ensures forall k :: 0 <= k < |r| ==> r[k].lo <= r[k].hi <= p.hi
    decreases p.hi - at
  {
    if at >= p.hi then []
    else
      [Span(at, if at + size <= p.hi then at + size else p.hi)]
      + AllWindows(p, size, overlap, at + WindowStep(size, overlap))
  }

  function WithoutBlanks(s: string, spans: seq<Span>): (r: seq<Span>)
    requires forall k :: 0 <= k < |spans| ==> spans[k].lo <= spans[k].hi <= |s|
    ensures forall k :: 0 <= k < |r| ==> r[k].lo <= r[k].hi <= |s|
  {
    if spans == [] then []
    else (if Blank(s, spans[0]) then [] else [spans[0]]) + WithoutBlanks(s, spans[1..])
  }

  /** The sliding windows of a span that are not blank. */
  function WindowSpans(s: string, p: Span, size: nat, overlap: nat): (r: seq<Span>)
    requires p.hi <= |s|
    ensures forall k :: 0 <= k < |r| ==> r[k].lo <= r[k].hi <= |s|
  {
    WithoutBlanks(s, AllWindows(p, size, overlap, p.lo))
  }

  /** Where the text carried over from a finished chunk starts: its last `overlap` characters, or all of it. */
  function CarryStart(p: Span, overlap: nat): (lo: nat)
    requires p.lo < p.hi
    ensures p.lo <= lo < p.hi
  {
    if overlap > 0 && p.hi - p.lo > overlap then p.hi - overlap else p.lo
  }

  /** The same, past a leading space. */
  function CarryFrom(s: string, p: Span, overlap: nat): nat
    requires p.lo < p.hi <= |s|
  {
    var lo := CarryStart(p, overlap);
    if IsSpace(s[lo]) then lo + 1 else lo
  }

  function Width(p: Span): int {
    p.hi - p.lo
  }

  /** One paragraph: the chunks it completes and what is being built afterwards. */
  function Pack(s: string, current: Current, part: Span, size: nat, overlap: nat): (r: (seq<Span>, Current))
    requires part.lo <= part.hi <= |s|
    requires current.Building? ==> current.span.lo < current.span.hi <= part.hi
  {
    var candidate := if current.Building? then Span(current.span.lo, part.hi) else part;
    if Width(candidate) <= size then ([], Building(candidate))
    else if current.Building? then
      var carried := Span(CarryFrom(s, current.span, overlap), part.hi);
      if Width(carried) > size then
        ([current.span] + WindowSpans(s, carried, size, overlap), Nothing)
      else ([current.span], Building(carried))
    else (WindowSpans(s, part, size, overlap), Nothing)
  }

  /** What is being built ends where the previous paragraph ended, trimmed and within size. */
  ghost predicate Ready(s: string, current: Current, parts: seq<Span>, k: nat, size: nat) {
    && k <= |parts|
    && (current.Building? ==>
          k > 0 && Block(s, current.span) && current.span.hi == parts[k - 1].hi && Width(current.span) <= size)
  }

  lemma CarryIsInside(s: string, p: Span, overlap: nat)
    requires Collapsed(s) && Block(s, p)
    ensures p.lo <= CarryFrom(s, p, overlap) < p.hi && !IsSpace(s[CarryFrom(s, p, overlap)])
  {
    var lo := CarryStart(p, overlap);
    if IsSpace(s[lo]) { assert s[lo] == ' '; }
  }

  lemma PackKeepsReady(s: string, current: Current, parts: seq<Span>, k: nat, size: nat, overlap: nat)
    requires Collapsed(s) && Chain(s, parts, 0) && k < |parts| && Ready(s, current, parts, k, size)
    ensures current.Building? ==> current.span.lo < current.span.hi <= parts[k].hi
    ensures Ready(s, Pack(s, current, parts[k], size, overlap).1, parts, k + 1, size)
    ensures var r := Pack(s, current, parts[k], size, overlap).0; forall n :: 0 <= n < |r| ==> r[n].lo <= r[n].hi <= |s|
  {
    assert Block(s, parts[k]);
    if current.Building? { CarryIsInside(s, current.span, overlap); }
  }

  function PlanFrom(s: string, current: Current, parts: seq<Span>, k: nat, size: nat, overlap: nat): (r: seq<Span>)
    requires Collapsed(s) && Chain(s, parts, 0) && Ready(s, current, parts, k, size)
    ensures forall k :: 0 <= k < |r| ==> r[k].lo <= r[k].hi <= |s|
    decreases |parts| - k
  {
    if k == |parts| then (if current.Building? then [current.span] else [])
    else
      PackKeepsReady(s, current, parts, k, size, overlap);
      var packed := Pack(s, current, parts[k], size, overlap);
      packed.0 + PlanFrom(s, packed.1, parts, k + 1, size, overlap)
  }

  /** The spans of the collapsed text that become chunks. */
  function ChunkSpans(s: string, size: nat, overlap: nat): (r: seq<Span>)
    requires Collapsed(s)
    ensures forall k :: 0 <= k < |r| ==> r[k].lo <= r[k].hi <= |s|
  {
    if s == "" then []
    else if |s| <= size then [Span(0, |s|)]
    else
      assert !IsSpace(s[0]) by { assert s[0] != ' '; }
      ParagraphSpansChain(s, 0, 0);
      PlanFrom(s, Nothing, ParagraphSpans(s, 0, 0), 0, size, overlap)
  }

  // ---- Size, order, coverage ----

  /** The spans lie in [from, to), are no wider than size, start in order and cover every letter there. */
  ghost predicate Tiles(s: string, r: seq<Span>, from: nat, to: nat, size: nat) {
    && from <= to <= |s|
    && (forall k :: 0 <= k < |r| ==> from <= r[k].lo < r[k].hi <= to && Width(r[k]) <= size)
    && (forall j, k :: 0 <= j < k < |r| ==> r[j].lo <= r[k].lo)
    && (forall i :: from <= i < to && !IsSpace(s[i]) ==> Covered(r, i))
  }

  ghost predicate Covered(r: seq<Span>, i: nat) {
    exists k :: 0 <= k < |r| && r[k].lo <= i < r[k].hi
  }

  lemma TilesJoin(s: string, a: seq<Span>, f: nat, m: nat, b: seq<Span>, g: nat, t: nat, size: nat)
    requires Tiles(s, a, f, m, size) && Tiles(s, b, g, t, size)
    requires f <= g && m <= t
    requires forall k :: 0 <= k < |a| ==> a[k].lo <= g
    requires forall i :: m <= i < g ==> IsSpace(s[i])
    ensures Tiles(s, a + b, f, t, size)
  {
    var r := a + b;
    forall i | f <= i < t && !IsSpace(s[i]) ensures Covered(r, i) {
      if i < m {
        var k :| 0 <= k < |a| && a[k].lo <= i < a[k].hi;
        assert r[k] == a[k];
      } else {
        var k :| 0 <= k < |b| && b[k].lo <= i < b[k].hi;
        assert r[|a| + k] == b[k];
      }
    }
  }

  lemma {:induction false} AllWindowsTile(s: string, p: Span, size: nat, overlap: nat, at: nat)
    requires 1 <= size && p.lo <= at <= p.hi <= |s|
    ensures Tiles(s, AllWindows(p, size, overlap, at), at, p.hi, size)
    decreases p.hi - at
  {
    if at < p.hi {
      var w := Span(at, if at + size <= p.hi then at + size else p.hi);
      var next := at + WindowStep(size, overlap);
      assert AllWindows(p, size, overlap, at) == [w] + AllWindows(p, size, overlap, next);
      SpanTiles(s, w, size);
      if next <= p.hi {
        assert at < next <= w.hi;
        AllWindowsTile(s, p, size, overlap, next);
        TilesJoin(s, [w], at, w.hi, AllWindows(p, size, overlap, next), next, p.hi, size);
      } else {
        assert AllWindows(p, size, overlap, next) == [];
        assert [w] + [] == [w];
      }
    }
  }

  ghost predicate InOrder(spans: seq<Span>, from: nat, to: nat, size: nat) {
    && (forall k :: 0 <= k < |spans| ==> from <= spans[k].lo < spans[k].hi <= to && Width(spans[k]) <= size)
    && (forall j, k :: 0 <= j < k < |spans| ==> spans[j].lo <= spans[k].lo)
  }

  lemma ConsInOrder(p: Span, rest: seq<Span>, to: nat, size: nat)
    requires p.lo < p.hi <= to && Width(p) <= size && InOrder(rest, p.lo, to, size)
    ensures InOrder([p] + rest, p.lo, to, size)
  {
  }

  lemma TailInOrder(spans: seq<Span>, from: nat, to: nat, size: nat)
    requires spans != [] && InOrder(spans, from, to, size)
    ensures InOrder(spans[1..], spans[0].lo, to, size)
  {
  }

  lemma {:induction false} WithoutBlanksInOrder(s: string, spans: seq<Span>, from: nat, to: nat, size: nat)
    requires to <= |s| && InOrder(spans, from, to, size)
    ensures InOrder(WithoutBlanks(s, spans), from, to, size)
  {
    if spans == [] {
    } else {
      TailInOrder(spans, from, to, size);
      WithoutBlanksInOrder(s, spans[1..], spans[0].lo, to, size);
      ConsInOrder(spans[0], WithoutBlanks(s, spans[1..]), to, size);
    }
  }

  lemma CoveredRight(a: seq<Span>, b: seq<Span>, i: nat)
    requires Covered(b, i)
    ensures Covered(a + b, i)
  {
    var k :| 0 <= k < |b| && b[k].lo <= i < b[k].hi;
    assert (a + b)[|a| + k] == b[k];
  }

  lemma {:induction false} WithoutBlanksCovers(s: string, spans: seq<Span>, i: nat)
    requires forall k :: 0 <= k < |spans| ==> spans[k].lo <= spans[k].hi <= |s|
    requires i < |s| && !IsSpace(s[i]) && Covered(spans, i)
    ensures Covered(WithoutBlanks(s, spans), i)
  {
    var k :| 0 <= k < |spans| && spans[k].lo <= i < spans[k].hi;
    var first := if Blank(s, spans[0]) then [] else [spans[0]];
    if k == 0 {
      assert (first + WithoutBlanks(s, spans[1..]))[0] == spans[0];
    } else {
      assert spans[1..][k - 1] == spans[k];
      WithoutBlanksCovers(s, spans[1..], i);
      CoveredRight(first, WithoutBlanks(s, spans[1..]), i);
    }
  }

  lemma WindowsTile(s: string, p: Span, size: nat, overlap: nat)
    requires 1 <= size && p.lo <= p.hi <= |s|
    ensures Tiles(s, WindowSpans(s, p, size, overlap), p.lo, p.hi, size)
  {
    var all := AllWindows(p, size, overlap, p.lo);
    AllWindowsTile(s, p, size, overlap, p.lo);
    assert InOrder(all, p.lo, p.hi, size);
    WithoutBlanksInOrder(s, all, p.lo, p.hi, size);
    forall i | p.lo <= i < p.hi && !IsSpace(s[i]) ensures Covered(WithoutBlanks(s, all), i) {
      WithoutBlanksCovers(s, all, i);
    }
  }

  /** Where the text not yet in a chunk begins. */
  function Pending(s: string, current: Current, parts: seq<Span>, k: nat): nat
    requires k <= |parts|
  {
    if current.Building? then current.span.lo else if k < |parts| then parts[k].lo else |s|
  }

  lemma SpanTiles(s: string, p: Span, size: nat)
    requires InText(s, p) && Width(p) <= size
    ensures Tiles(s, [p], p.lo, p.hi, size)
  {
    forall i | p.lo <= i < p.hi ensures Covered([p], i) {
      assert [p][0].lo <= i < [p][0].hi;
    }
  }

  /** What a paragraph completes, `done`, tiles the text from `from` up to where `next` takes over. */
  ghost predicate Advances(s: string, from: nat, current: Current, part: Span, done: seq<Span>, next: Current,
                           size: nat) {
    match next
    case Nothing => Tiles(s, done, from, part.hi, size)
    case Building(b) =>
      if done == [] then b.lo == from
      else
        && current.Building? && done == [current.span] && Tiles(s, done, from, current.span.hi, size)
        && current.span.lo <= b.lo < current.span.hi
  }

  lemma PackAdvances(s: string, current: Current, part: Span, from: nat, size: nat, overlap: nat)
    requires 1 <= size && Collapsed(s) && Block(s, part)
    requires current.Building? ==> Block(s, current.span) && current.span.hi < part.lo && Width(current.span) <= size
    requires from == if current.Building? then current.span.lo else part.lo
    ensures var packed := Pack(s, current, part, size, overlap);
            Advances(s, from, current, part, packed.0, packed.1, size)
  {
    if current.Nothing? {
      WindowsTile(s, part, size, overlap);
    } else {
      CarryIsInside(s, current.span, overlap);
      SpanTiles(s, current.span, size);
      var carried := Span(CarryFrom(s, current.span, overlap), part.hi);
      if Width(Span(current.span.lo, part.hi)) > size && Width(carried) > size {
        WindowsTile(s, carried, size, overlap);
        TilesJoin(s, [current.span], current.span.lo, current.span.hi,
                  WindowSpans(s, carried, size, overlap), carried.lo, part.hi, size);
      }
    }
  }

  lemma AdvanceThenRestTiles(
    s: string, from: nat, current: Current, parts: seq<Span>, k: nat, done: seq<Span>, next: Current, rest: seq<Span>,
    size: nat)
    requires Chain(s, parts, 0) && k < |parts| && Advances(s, from, current, parts[k], done, next, size)
    requires Tiles(s, rest, Pending(s, next, parts, k + 1), |s|, size)
    requires current.Building? ==> current.span.hi <= |s|
    ensures Tiles(s, done + rest, from, |s|, size)
  {
    if next.Nothing? {
      TilesJoin(s, done, from, parts[k].hi, rest, Pending(s, next, parts, k + 1), |s|, size);
    } else if done == [] {
      assert done + rest == rest;
    } else {
      assert done[0].lo == current.span.lo;
      TilesJoin(s, done, from, current.span.hi, rest, next.span.lo, |s|, size);
    }
  }

  lemma CurrentEndsBeforePart(s: string, current: Current, parts: seq<Span>, k: nat, size: nat)
    requires Chain(s, parts, 0) && k < |parts| && Ready(s, current, parts, k, size)
    ensures Block(s, parts[k])
    ensures current.Building? ==> parts[k].lo == current.span.hi + 1 && s[current.span.hi] == ' '
  {
    if current.Building? {
      var j := k - 1;
      assert parts[j + 1].lo == parts[j].hi + 1;
    }
  }

  lemma {:induction false} PlanTiles(s: string, current: Current, parts: seq<Span>, k: nat, size: nat, overlap: nat)
    requires 1 <= size && Collapsed(s) && Chain(s, parts, 0) && Ready(s, current, parts, k, size)
    ensures Tiles(s, PlanFrom(s, current, parts, k, size, overlap), Pending(s, current, parts, k), |s|, size)
    decreases |parts| - k
  {
    if k == |parts| {
      if current.Building? { SpanTiles(s, current.span, size); }
    } else {
      PackKeepsReady(s, current, parts, k, size, overlap);
      var next := Pack(s, current, parts[k], size, overlap).1;
      PlanTiles(s, next, parts, k + 1, size, overlap);
      CurrentEndsBeforePart(s, current, parts, k, size);
      PackAdvances(s, current, parts[k], Pending(s, current, parts, k), size, overlap);
      AdvanceThenRestTiles(s, Pending(s, current, parts, k), current, parts, k,
                           Pack(s, current, parts[k], size, overlap).0, next,
                           PlanFrom(s, next, parts, k + 1, size, overlap), size);
    }
  }

  /**
   * For every text, every size of at least 1 and every overlap: the chunks are no longer than size, are contiguous
   * stretches of the collapsed text that start in order, and together cover each of its letters.
   */
  lemma ChunksTileTheText(text: string, size: nat, overlap: nat)
    requires 1 <= size
    ensures var s := CollapseWhitespace(text); Collapsed(s) && Tiles(s, ChunkSpans(s, size, overlap), 0, |s|, size)
  {
    CollapseCollapses(text);
    var s := CollapseWhitespace(text);
    if s != "" {
      assert s[0] != ' ' && s[|s| - 1] != ' ';
      if |s| <= size {
        SpanTiles(s, Span(0, |s|), size);
      } else {
        ParagraphSpansChain(s, 0, 0);
        PlanTiles(s, Nothing, ParagraphSpans(s, 0, 0), 0, size, overlap);
      }
    }
  }

  // ---- The chunker as written ----

  /** The slices of a string a window wide, one step apart, from `at`. */
  function Slices(text: string, size: nat, overlap: nat, at: nat): seq<string>
    decreases |text| - at
  {
    if at >= |text| then []
    else
      [text[at..if at + size <= |text| then at + size else |text|]]
      + Slices(text, size, overlap, at + WindowStep(size, overlap))
  }

  function NonBlank(texts: seq<string>): seq<string> {
    if texts == [] then [] else (if Strip(texts[0]) == "" then [] else [texts[0]]) + NonBlank(texts[1..])
  }

  /** The sliding windows of a string that are not blank. */
  function Window(text: string, size: nat, overlap: nat): seq<string> {
    NonBlank(Slices(text, size, overlap, 0))
  }

  lemma BlankIsStrippedAway(s: string, w: Span)
    requires w.lo <= w.hi <= |s|
    ensures Strip(TextOf(s, w)) == "" <==> Blank(s, w)
  {
    var t := TextOf(s, w);
    StripEmptyIff(t);
    assert forall i :: w.lo <= i < w.hi ==> s[i] == t[i - w.lo];
  }

  lemma {:induction false} NonBlankTexts(s: string, spans: seq<Span>)
    requires forall k :: 0 <= k < |spans| ==> spans[k].lo <= spans[k].hi <= |s|
    ensures NonBlank(Texts(s, spans)) == Texts(s, WithoutBlanks(s, spans))
  {
    if spans == [] {
    } else {
      BlankIsStrippedAway(s, spans[0]);
      NonBlankTexts(s, spans[1..]);
      assert Texts(s, spans)[1..] == Texts(s, spans[1..]);
      TextsConcat(s, if Blank(s, spans[0]) then [] else [spans[0]], WithoutBlanks(s, spans[1..]));
    }
  }

  lemma {:induction false} SlicesAreAllWindows(
    s: string, p: Span, t: string, size: nat, overlap: nat, at: nat, offset: nat)
    requires p.lo <= p.hi <= |s| && |t| == p.hi - p.lo && at == p.lo + offset
    requires forall i :: 0 <= i < |t| ==> t[i] == s[p.lo + i]
    ensures Slices(t, size, overlap, offset) == Texts(s, AllWindows(p, size, overlap, at))
    decreases p.hi - at
  {
    if offset >= |t| {
      assert Slices(t, size, overlap, offset) == [] && AllWindows(p, size, overlap, at) == [];
    } else {
      var step := WindowStep(size, overlap);
      var end := if offset + size <= |t| then offset + size else |t|;
      var w := Span(at, p.lo + end);
      assert t[offset..end] == TextOf(s, w);
      assert AllWindows(p, size, overlap, at) == [w] + AllWindows(p, size, overlap, at + step);
      assert Slices(t, size, overlap, offset) == [t[offset..end]] + Slices(t, size, overlap, offset + step);
      SlicesAreAllWindows(s, p, t, size, overlap, at + step, offset + step);
      TextsConcat(s, [w], AllWindows(p, size, overlap, at + step));
    }
  }

  lemma WindowIsWindowSpans(s: string, p: Span, t: string, size: nat, overlap: nat)
    requires p.lo <= p.hi <= |s| && |t| == p.hi - p.lo
    requires forall i :: 0 <= i < |t| ==> t[i] == s[p.lo + i]
    ensures Window(t, size, overlap) == Texts(s, WindowSpans(s, p, size, overlap))
  {
    SlicesAreAllWindows(s, p, t, size, overlap, p.lo, 0);
    NonBlankTexts(s, AllWindows(p, size, overlap, p.lo));
  }

  function CurrentText(s: string, current: Current): string
    requires current.Building? ==> current.span.lo <= current.span.hi <= |s|
  {
    if current.Building? then TextOf(s, current.span) else ""
  }

  lemma StripSpan(s: string, lo: nat, hi: nat)
    requires lo + 1 < hi <= |s| && !IsSpace(s[hi - 1]) && (IsSpace(s[lo]) ==> !IsSpace(s[lo + 1]))
    ensures Strip(s[lo..hi]) == s[if IsSpace(s[lo]) then lo + 1 else lo..hi]
  {
    var t := s[lo..hi];
    var a, b := StripCuts(t);
    assert t[0] == s[lo] && t[1] == s[lo + 1] && t[|t| - 1] == s[hi - 1];
    assert b == |t|;
    assert a == if IsSpace(s[lo]) then 1 else 0;
    assert t[a..b] == s[lo + a..hi];
  }

  /** The candidate: what is being built, a space, and the paragraph. */
  function Joined(current: string, part: string): string {
    Strip(current + " " + part)
  }

  lemma JoinedSpan(s: string, lo: nat, mid: nat, hi: nat, a: string, b: string)
    requires Collapsed(s) && lo < mid && mid + 1 < hi <= |s| && s[mid] == ' ' && !IsSpace(s[hi - 1])
    requires a == s[lo..mid] && b == s[mid + 1..hi]
    ensures Joined(a, b) == s[if IsSpace(s[lo]) then lo + 1 else lo..hi]
  {
    assert a + " " + b == s[lo..hi];
    assert IsSpace(s[lo]) ==> s[lo] == ' ';
    StripSpan(s, lo, hi);
  }

  /** The text carried into the next chunk. */
  function Tail(current: string, overlap: nat): string {
    if overlap != 0 && |current| > overlap then current[|current| - overlap..] else current
  }

  /** One turn of the loop, given its two candidate strings: the chunks it appends and the new `current`. */
  function Turn(candidate: string, carried: string, current: string, part: string, size: nat, overlap: nat)
    : (seq<string>, string)
  {
    if |candidate| <= size then ([], candidate)
    else if current != "" then
      if |carried| > size then ([current] + Window(carried, size, overlap), "") else ([current], carried)
    else (Window(part, size, overlap), "")
  }

  function Candidate(current: string, part: string): string {
    if current != "" then Joined(current, part) else part
  }

  /** What the loop still appends from paragraph k on. */
  function LoopFrom(paragraphs: seq<string>, k: nat, current: string, size: nat, overlap: nat): seq<string>
    requires k <= |paragraphs|
    decreases |paragraphs| - k
  {
    if k == |paragraphs| then (if current != "" then [current] else [])
    else
      var turn := TurnOf(current, paragraphs[k], size, overlap);
      turn.0 + LoopFrom(paragraphs, k + 1, turn.1, size, overlap)
  }

  lemma TailSpan(s: string, c: Span, current: string, overlap: nat)
    requires c.lo < c.hi <= |s| && current == TextOf(s, c)
    ensures Tail(current, overlap) == s[CarryStart(c, overlap)..c.hi]
  {
  }

  lemma TurnWhileBuilding(s: string, c: Span, part: Span, candidate: string, carried: string, size: nat, overlap: nat)
    requires c.lo < c.hi < part.lo < part.hi <= |s|
    requires c.lo <= CarryFrom(s, c, overlap) < c.hi
    requires candidate == s[c.lo..part.hi] && carried == s[CarryFrom(s, c, overlap)..part.hi]
    ensures var packed := Pack(s, Building(c), part, size, overlap);
            && (forall n :: 0 <= n < |packed.0| ==> packed.0[n].lo <= packed.0[n].hi <= |s|)
            && (packed.1.Building? ==> packed.1.span.lo <= packed.1.span.hi <= |s|)
            && Turn(candidate, carried, TextOf(s, c), TextOf(s, part), size, overlap)
               == (Texts(s, packed.0), CurrentText(s, packed.1))
  {
    var from := Span(CarryFrom(s, c, overlap), part.hi);
    assert Texts(s, [c]) == [TextOf(s, c)];
    if |candidate| <= size {
      assert Pack(s, Building(c), part, size, overlap) == ([], Building(Span(c.lo, part.hi)));
    } else if |carried| <= size {
      assert Pack(s, Building(c), part, size, overlap) == ([c], Building(from));
    } else {
      assert Pack(s, Building(c), part, size, overlap) == ([c] + WindowSpans(s, from, size, overlap), Nothing);
      WindowIsWindowSpans(s, from, carried, size, overlap);
      TextsConcat(s, [c], WindowSpans(s, from, size, overlap));
    }
  }

  /** The paragraph's turn when something is being built: both texts a turn can go on with are stretches of the text. */
  lemma CandidatesAreSpans(s: string, c: Span, part: Span, overlap: nat)
    requires Collapsed(s) && Block(s, c) && Block(s, part) && part.lo == c.hi + 1 && s[c.hi] == ' '
    ensures c.lo <= CarryFrom(s, c, overlap) < c.hi
    ensures var current := TextOf(s, c);
            && Joined(current, TextOf(s, part)) == s[c.lo..part.hi]
            && Joined(Tail(current, overlap), TextOf(s, part)) == s[CarryFrom(s, c, overlap)..part.hi]
  {
    var current := TextOf(s, c);
    CarryIsInside(s, c, overlap);
    TailSpan(s, c, current, overlap);
    JoinedSpan(s, c.lo, c.hi, part.hi, current, TextOf(s, part));
    JoinedSpan(s, CarryStart(c, overlap), c.hi, part.hi, Tail(current, overlap), TextOf(s, part));
  }

  lemma TurnIsPack(s: string, state: Current, parts: seq<Span>, k: nat, size: nat, overlap: nat)
    requires Collapsed(s) && Chain(s, parts, 0) && k < |parts| && Ready(s, state, parts, k, size)
    requires state.Building? ==> state.span.hi <= parts[k].hi
    ensures var current, part := CurrentText(s, state), TextOf(s, parts[k]);
            var packed := Pack(s, state, parts[k], size, overlap);
            && (forall n :: 0 <= n < |packed.0| ==> packed.0[n].lo <= packed.0[n].hi <= |s|)
            && (packed.1.Building? ==> packed.1.span.lo <= packed.1.span.hi <= |s|)
            && Turn(Candidate(current, part), Joined(Tail(current, overlap), part), current, part, size, overlap)
               == (Texts(s, packed.0), CurrentText(s, packed.1))
  {
    var part := parts[k];
    CurrentEndsBeforePart(s, state, parts, k, size);
    if state.Nothing? {
      WindowIsWindowSpans(s, part, TextOf(s, part), size, overlap);
    } else {
      var current := TextOf(s, state.span);
      CandidatesAreSpans(s, state.span, part, overlap);
      TurnWhileBuilding(s, state.span, part, Joined(current, TextOf(s, part)),
                        Joined(Tail(current, overlap), TextOf(s, part)), size, overlap);
    }
  }

  /** On strings or on spans, the loop appends the same chunks. */
  lemma {:induction false} LoopIsPlan(s: string, state: Current, parts: seq<Span>, k: nat, size: nat, overlap: nat)
    requires Collapsed(s) && Chain(s, parts, 0) && Ready(s, state, parts, k, size)
    ensures LoopFrom(Texts(s, parts), k, CurrentText(s, state), size, overlap)
            == Texts(s, PlanFrom(s, state, parts, k, size, overlap))
    decreases |parts| - k
  {
    if k < |parts| {
      PackKeepsReady(s, state, parts, k, size, overlap);
      TurnIsPack(s, state, parts, k, size, overlap);
      TextsAt(s, parts, k);
      var packed := Pack(s, state, parts[k], size, overlap);
      LoopIsPlan(s, packed.1, parts, k + 1, size, overlap);
      TextsConcat(s, packed.0, PlanFrom(s, packed.1, parts, k + 1, size, overlap));
    }
  }

  /** The loop over paragraphs, on strings as the source has it, computes the planned chunks. */
  method ChunkText(text: string, size: nat := CHUNK_SIZE, overlap: nat := CHUNK_OVERLAP) returns (chunks: seq<string>)
    ensures var s := CollapseWhitespace(text); Collapsed(s) && chunks == Texts(s, ChunkSpans(s, size, overlap))
  {
    var cleaned := CollapseWhitespace(text);
    CollapseCollapses(text);
    if cleaned == "" {
      return [];
    }
    if |cleaned| <= size {
      assert TextOf(cleaned, Span(0, |cleaned|)) == cleaned;
      return [cleaned];
    }
    var paragraphs := Paragraphs(cleaned);
    SplitIsParagraphs(cleaned);
    LoopIsPlan(cleaned, Nothing, ParagraphSpans(cleaned, 0, 0), 0, size, overlap);
    if paragraphs == [] {
      paragraphs := [cleaned];
    }
    chunks := PackParagraphs(paragraphs, size, overlap);
  }

  function TurnOf(current: string, part: string, size: nat, overlap: nat): (seq<string>, string) {
    Turn(Candidate(current, part), Joined(Tail(current, overlap), part), current, part, size, overlap)
  }

  method PackParagraphs(paragraphs: seq<string>, size: nat, overlap: nat) returns (chunks: seq<string>)
    ensures chunks == LoopFrom(paragraphs, 0, "", size, overlap)
  {
    chunks := [];
    var current := "";
    for k := 0 to |paragraphs|
      invariant chunks + LoopFrom(paragraphs, k, current, size, overlap) == LoopFrom(paragraphs, 0, "", size, overlap)
    {
      ghost var turn := TurnOf(current, paragraphs[k], size, overlap);
      ghost var rest := LoopFrom(paragraphs, k + 1, turn.1, size, overlap);
      assert chunks + (turn.0 + rest) == (chunks + turn.0) + rest;
      chunks, current := AddParagraph(chunks, current, paragraphs[k], size, overlap);
    }
    if current != "" {
      chunks := chunks + [current];
    }
  }

  /** The body of the loop. */
  method AddParagraph(before: seq<string>, held: string, part: string, size: nat, overlap: nat)
    returns (chunks: seq<string>, current: string)
    ensures chunks == before + TurnOf(held, part, size, overlap).0
    ensures current == TurnOf(held, part, size, overlap).1
  {
    chunks, current := before, held;
    var candidate := if current != "" then Joined(current, part) else part;
    if |candidate| <= size {
      current := candidate;
    } else if current != "" {
      chunks := chunks + [current];
      current := Joined(Tail(current, overlap), part);
      if |current| > size {
        assert TurnOf(held, part, size, overlap) == ([held] + Window(current, size, overlap), "");
        chunks := chunks + Window(current, size, overlap);
        current := "";
      }
    } else {
      chunks := chunks + Window(part, size, overlap);
      current := "";
    }
  }
}
