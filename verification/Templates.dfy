/**
 * Placeholders in tool templates: finding the names, and filling them in one pass.
 *
 * Matching is a function on the text from one position on, and a template is read into tokens: the placeholders that
 * match and the other characters one by one. A template printed from its parts is filled in part by part.
 */
module Templates {
  import opened Options
  import opened Ordering
  import opened Whitespace

  // ---- One placeholder: `{{`, whitespace, a name, whitespace, `}}` ----

  predicate IsNameStart(c: char) {
    'a' <= c <= 'z' || 'A' <= c <= 'Z' || c == '_'
  }

  predicate IsNameChar(c: char) {
    IsNameStart(c) || '0' <= c <= '9'
  }

  /** The ASCII letters and the underscore, and after the first character the digits, by code point. */
  lemma NamesAreAscii(c: char)
    ensures IsNameStart(c) <==> c as int == 95 || 65 <= c as int < 91 || 97 <= c as int < 123
    ensures IsNameChar(c) <==> IsNameStart(c) || 48 <= c as int < 58
  {
  }

  /** How many name characters start at i. */
  function NameRun(t: string, i: nat): (n: nat)
    requires i <= |t|
    ensures i + n <= |t|
    decreases |t| - i
  {
    if i < |t| && IsNameChar(t[i]) then 1 + NameRun(t, i + 1) else 0
  }

  datatype Match = Match(name: string, length: nat)

  /** The placeholder a text starts with. Runs are maximal, so the expression matches in one way or not at all. */
  function MatchAtStart(t: string): (m: Option<Match>)
    ensures m.Some? ==> 0 < m.value.length <= |t| && t[0] == '{'
  {
    if |t| < 2 || t[0] != '{' || t[1] != '{' then None
    else
      var nameAt := 2 + SpaceRun(t, 2);
      if nameAt == |t| || !IsNameStart(t[nameAt]) then None
      else
        var nameEnd := nameAt + NameRun(t, nameAt);
        var close := nameEnd + SpaceRun(t, nameEnd);
        if close + 2 <= |t| && t[close] == '}' && t[close + 1] == '}' then Some(Match(t[nameAt..nameEnd], close + 2))
        else None
  }

  datatype Token = Plain(c: char) | Hole(text: string, name: string)

  /** The leftmost matches that do not overlap, and the characters between them. */
  function Tokens(t: string): seq<Token>
    decreases |t|
  {
    if t == "" then []
    else
      var m := MatchAtStart(t);
      if m.Some? then [Hole(t[..m.value.length], m.value.name)] + Tokens(t[m.value.length..])
      else [Plain(t[0])] + Tokens(t[1..])
  }

  function Source(tokens: seq<Token>): string {
    if tokens == [] then ""
    else (if tokens[0].Plain? then [tokens[0].c] else tokens[0].text) + Source(tokens[1..])
  }

  /** Reading a template loses nothing of it. */
  lemma {:induction false} TokensKeepTheText(t: string)
    ensures Source(Tokens(t)) == t
    decreases |t|
  {
    if t == "" {
    } else {
      var m := MatchAtStart(t);
      var n := if m.Some? then m.value.length else 1;
      TokensKeepTheText(t[n..]);
      assert Tokens(t)[1..] == Tokens(t[n..]);
      assert t == t[..n] + t[n..] && t[..1] == [t[0]];
    }
  }

  /** The names of the placeholders, left to right. */
  function Names(tokens: seq<Token>): seq<string> {
    if tokens == [] then []
    else (if tokens[0].Hole? then [tokens[0].name] else []) + Names(tokens[1..])
  }

  // ---- Filling in ----

  datatype Result = Ok(text: string) | Unresolved(name: string)

  predicate Resolved(values: map<string, Option<string>>, name: string) {
    name in values && values[name].Some?
  }

  function Filled(tokens: seq<Token>, values: map<string, Option<string>>): Result {
    if tokens == [] then Ok("")
    else if tokens[0].Hole? && !Resolved(values, tokens[0].name) then Unresolved(tokens[0].name)
    else
      match Filled(tokens[1..], values)
      case Unresolved(name) => Unresolved(name)
      case Ok(rest) => Ok((if tokens[0].Plain? then [tokens[0].c] else values[tokens[0].name].value) + rest)
  }

  function Substitute(template: string, values: map<string, Option<string>>): Result {
    Filled(Tokens(template), values)
  }

  /** It succeeds exactly when every name has a value, and otherwise names the first that has none. */
  lemma {:induction false} FilledIff(tokens: seq<Token>, values: map<string, Option<string>>)
    ensures var names, r := Names(tokens), Filled(tokens, values);
      && (r.Ok? <==> forall n :: n in names ==> Resolved(values, n))
      && (r.Unresolved? ==> exists i :: 0 <= i < |names| && names[i] == r.name && !Resolved(values, names[i])
                                    && forall j :: 0 <= j < i ==> Resolved(values, names[j]))
  {
    if tokens == [] {
    } else {
      var rest := Names(tokens[1..]);
      FilledIff(tokens[1..], values);
      var names, r := Names(tokens), Filled(tokens, values);
      if tokens[0].Plain? { assert names == rest; }
      else {
        assert names == [tokens[0].name] + rest;
        assert forall n :: n in names <==> n == tokens[0].name || n in rest;
        if !Resolved(values, tokens[0].name) { assert names[0] == r.name; }
        else if r.Unresolved? {
          var i :| 0 <= i < |rest| && rest[i] == r.name && !Resolved(values, rest[i])
                && forall j :: 0 <= j < i ==> Resolved(values, rest[j]);
          assert names[i + 1] == r.name;
          forall j | 0 <= j < i + 1 ensures Resolved(values, names[j]) { if j > 0 { assert names[j] == rest[j - 1]; } }
        }
      }
    }
  }

  // ---- Extracting ----

  function Members(names: seq<string>): set<string> {
    set n | n in names
  }

  method ExtractVariables(texts: seq<string>) returns (names: seq<string>)
    ensures Ordered(LexLt, names)
    ensures forall n :: n in names <==> exists i :: 0 <= i < |texts| && n in Names(Tokens(texts[i]))
  {
    var found: set<string> := {};
    for k := 0 to |texts|
      invariant forall n :: n in found <==> exists i :: 0 <= i < k && n in Names(Tokens(texts[i]))
    {
      found := found + Members(Names(Tokens(texts[k])));
    }
    names := Sorted(found);
  }

  method Sorted(found: set<string>) returns (names: seq<string>)
    ensures Ordered(LexLt, names)
    ensures forall n :: n in names <==> n in found
  {
    names := [];
    var rest := found;
    while rest != {}
      invariant rest <= found
      invariant forall n :: n in names <==> n in found && n !in rest
      invariant forall i, j :: 0 <= i < j < |names| ==> names[i] != names[j]
      decreases |rest|
    {
      var n :| n in rest;
      names := names + [n];
      rest := rest - {n};
    }
    SortedIsStrict(names);
    SameMultisetSameMembers(StableSort(LexLe, names), names);
    names := StableSort(LexLe, names);
  }

  lemma CountAtMostOne(s: seq<string>)
    requires forall i, j :: 0 <= i < j < |s| ==> s[i] != s[j]
    ensures forall x :: multiset(s)[x] <= 1
  {
    if s != [] {
      var n := |s| - 1;
      CountAtMostOne(s[..n]);
      assert s == s[..n] + [s[n]];
    }
  }

  lemma CountTwice(s: seq<string>, i: nat, j: nat)
    requires i < j < |s| && s[i] == s[j]
    ensures multiset(s)[s[i]] >= 2
  {
    assert s == s[..j] + [s[j]] + s[j + 1..];
    assert s[i] in s[..j];
  }

  lemma SortedIsStrict(names: seq<string>)
    requires forall i, j :: 0 <= i < j < |names| ==> names[i] != names[j]
    ensures Ordered(LexLt, StableSort(LexLe, names))
  {
    var r := StableSort(LexLe, names);
    LexIsTotalPreorder();
    StableSortOrdered(LexLe, names);
    CountAtMostOne(names);
    forall i, j | 0 <= i < j < |r| ensures LexLt(r[i], r[j]) {
      if r[i] == r[j] { CountTwice(r, i, j); }
    }
  }

  /** There is only one such list, so the order the texts are given in does not matter. */
  lemma ExtractionIsUnique(a: seq<string>, b: seq<string>)
    requires Ordered(LexLt, a) && Ordered(LexLt, b) && forall n :: n in a <==> n in b
    ensures a == b
  {
    forall x, y, z | LexLt(x, y) && LexLt(y, z) ensures LexLt(x, z) {
      LexTransitive(x, y, z);
      if x == z { LexAntisymmetric(x, y); }
    }
    StrictlyOrderedUnique(LexLt, a, b);
  }

  /** A template can be filled exactly when each of its extracted variables has a value. */
  lemma SubstituteSucceedsIff(template: string, values: map<string, Option<string>>, extracted: seq<string>)
    requires forall n :: n in extracted <==> n in Names(Tokens(template))
    ensures Substitute(template, values).Ok? <==> forall n :: n in extracted ==> Resolved(values, n)
    ensures Substitute(template, values).Unresolved? ==>
              var n := Substitute(template, values).name; n in extracted && !Resolved(values, n)
  {
    FilledIff(Tokens(template), values);
  }

  // ---- Templates printed from their parts ----

  datatype Part = Literal(text: string) | Placeholder(lead: string, name: string, trail: string)

  predicate AllSpace(s: string) {
    forall k :: 0 <= k < |s| ==> IsSpace(s[k])
  }

  predicate IsName(s: string) {
    s != "" && IsNameStart(s[0]) && forall k :: 0 <= k < |s| ==> IsNameChar(s[k])
  }

  /** Braces may appear in a literal, but every opening one is followed by something else than another. */
  predicate IsLiteral(s: string) {
    forall k :: 0 <= k < |s| && s[k] == '{' ==> k + 1 < |s| && s[k + 1] != '{'
  }

  predicate WellFormed(parts: seq<Part>) {
    forall p :: p in parts ==> match p
      case Literal(text) => IsLiteral(text)
      case Placeholder(lead, name, trail) => AllSpace(lead) && IsName(name) && AllSpace(trail)
  }

  function PrintPart(p: Part): string {
    match p
    case Literal(text) => text
    case Placeholder(lead, name, trail) => "{{" + lead + name + trail + "}}"
  }

  function Print(parts: seq<Part>): string {
    if parts == [] then "" else PrintPart(parts[0]) + Print(parts[1..])
  }

  function Plains(text: string): seq<Token> {
    seq(|text|, i requires 0 <= i < |text| => Plain(text[i]))
  }

  /** The tokens the parts stand for. */
  function PartTokens(p: Part): seq<Token> {
    match p
    case Literal(text) => Plains(text)
    case Placeholder(_, name, _) => [Hole(PrintPart(p), name)]
  }

  lemma {:induction false} SpaceRunExact(t: string, i: nat, n: nat)
    requires i + n <= |t| && (forall k :: i <= k < i + n ==> IsSpace(t[k])) && (i + n < |t| ==> !IsSpace(t[i + n]))
    ensures SpaceRun(t, i) == n
    decreases n
  {
    if n == 0 {
    } else {
      SpaceRunExact(t, i + 1, n - 1);
    }
  }

  lemma {:induction false} NameRunExact(t: string, i: nat, n: nat)
    requires i + n <= |t| && (forall k :: i <= k < i + n ==> IsNameChar(t[k]))
      && (i + n < |t| ==> !IsNameChar(t[i + n]))
    ensures NameRun(t, i) == n
    decreases n
  {
    if n == 0 {
    } else {
      NameRunExact(t, i + 1, n - 1);
    }
  }

  /** A printed placeholder is matched whole, whatever follows it. */
  lemma PlaceholderMatches(lead: string, name: string, trail: string, rest: string)
    requires AllSpace(lead) && IsName(name) && AllSpace(trail)
    ensures MatchAtStart("{{" + lead + name + trail + "}}" + rest) == Some(Match(name, |lead| + |name| + |trail| + 4))
  {
    var t := "{{" + lead + name + trail + "}}" + rest;
    var a, b, d := 2 + |lead|, 2 + |lead| + |name|, 2 + |lead| + |name| + |trail|;
    PlacesOf(lead, name, trail, rest, t);
    SpaceRunExact(t, 2, |lead|);
    NameRunExact(t, a, |name|);
    SpaceRunExact(t, b, |trail|);
    assert t[a..b] == name;
  }

  lemma {:induction false} NameRunIs(t: string, i: nat)
    requires i <= |t|
    ensures forall k :: i <= k < i + NameRun(t, i) ==> IsNameChar(t[k])
    ensures i < |t| && IsNameStart(t[i]) ==> NameRun(t, i) > 0
    decreases |t| - i
  {
    if i < |t| && IsNameChar(t[i]) { NameRunIs(t, i + 1); }
  }

  /** Where the pieces of a match lie. */
  lemma MatchParts(t: string) returns (a: nat, b: nat, d: nat)
    requires MatchAtStart(t).Some?
    ensures 2 <= a < b <= d && d + 2 <= |t| && MatchAtStart(t).value == Match(t[a..b], d + 2)
    ensures t[0] == '{' && t[1] == '{' && t[d] == '}' && t[d + 1] == '}' && IsNameStart(t[a])
    ensures forall k :: 2 <= k < a || b <= k < d ==> IsSpace(t[k])
    ensures forall k :: a <= k < b ==> IsNameChar(t[k])
  {
    a := 2 + SpaceRun(t, 2);
    b := a + NameRun(t, a);
    d := b + SpaceRun(t, b);
    SpaceRunIs(t, 2);
    NameRunIs(t, a);
    SpaceRunIs(t, b);
  }

  /** And nothing else is: whatever matches is a printed placeholder followed by the rest. */
  lemma MatchIsPlaceholder(t: string) returns (lead: string, trail: string)
    requires MatchAtStart(t).Some?
    ensures var m := MatchAtStart(t).value;
      && AllSpace(lead) && IsName(m.name) && AllSpace(trail)
      && t == "{{" + lead + m.name + trail + "}}" + t[m.length..]
  {
    var a, b, d := MatchParts(t);
    lead, trail := t[2..a], t[b..d];
    Reassembled(t, a, b, d);
  }

  lemma Reassembled(t: string, a: nat, b: nat, d: nat)
    requires 2 <= a <= b <= d && d + 2 <= |t|
    requires t[0] == '{' && t[1] == '{' && t[d] == '}' && t[d + 1] == '}'
    ensures t == "{{" + t[2..a] + t[a..b] + t[b..d] + "}}" + t[d + 2..]
  {
    assert t[..2] == "{{" && t[d..d + 2] == "}}";
    assert t == t[..2] + t[2..a] + t[a..b] + t[b..d] + t[d..d + 2] + t[d + 2..];
  }

  /** Where the pieces of a printed placeholder lie. */
  lemma PlacesOf(lead: string, name: string, trail: string, rest: string, t: string)
    requires t == "{{" + lead + name + trail + "}}" + rest && AllSpace(lead) && IsName(name) && AllSpace(trail)
    ensures var a, b, d := 2 + |lead|, 2 + |lead| + |name|, 2 + |lead| + |name| + |trail|;
      && |t| >= d + 2 && t[0] == '{' && t[1] == '{' && t[d] == '}' && t[d + 1] == '}'
      && (forall k :: 2 <= k < a ==> IsSpace(t[k])) && !IsSpace(t[a]) && IsNameStart(t[a])
      && (forall k :: a <= k < b ==> t[k] == name[k - a]) && !IsNameChar(t[b])
      && (forall k :: b <= k < d ==> IsSpace(t[k])) && !IsSpace(t[d])
  {
    var a, b, d := 2 + |lead|, 2 + |lead| + |name|, 2 + |lead| + |name| + |trail|;
    assert forall k :: 2 <= k < a ==> t[k] == lead[k - 2];
    assert t[a] == name[0];
    assert forall k :: b <= k < d ==> t[k] == trail[k - b];
    assert if trail == "" then t[b] == '}' else t[b] == trail[0];
  }

  lemma PlainFirst(text: string, rest: string)
    requires text != "" && MatchAtStart(text + rest).None?
    ensures Tokens(text + rest) == [Plain(text[0])] + Tokens(text[1..] + rest)
  {
    assert (text + rest)[0] == text[0] && (text + rest)[1..] == text[1..] + rest;
  }

  /** No placeholder starts inside a literal. */
  lemma {:induction false} LiteralIsPlain(text: string, rest: string)
    requires IsLiteral(text)
    ensures Tokens(text + rest) == Plains(text) + Tokens(rest)
    decreases |text|
  {
    if text == "" {
      assert text + rest == rest;
      assert Plains(text) == [];
    } else {
      PlainFirst(text, rest);
      LiteralIsPlain(text[1..], rest);
    }
  }

  lemma PartTokenises(p: Part, rest: string)
    requires WellFormed([p])
    ensures Tokens(PrintPart(p) + rest) == PartTokens(p) + Tokens(rest)
  {
    assert p in [p];
    match p
    case Literal(text) => LiteralIsPlain(text, rest);
    case Placeholder(lead, name, trail) =>
      PlaceholderMatches(lead, name, trail, rest);
      var t := PrintPart(p) + rest;
      assert t == "{{" + lead + name + trail + "}}" + rest;
      assert t[..|PrintPart(p)|] == PrintPart(p) && t[|PrintPart(p)|..] == rest;
  }

  ghost predicate AllResolved(parts: seq<Part>, values: map<string, Option<string>>) {
    forall i :: 0 <= i < |parts| && parts[i].Placeholder? ==> Resolved(values, parts[i].name)
  }

  /** What the parts come to with the values in place of the names. */
  ghost function Expanded(parts: seq<Part>, values: map<string, Option<string>>): string
    requires AllResolved(parts, values)
  {
    if parts == [] then ""
    else
      (if parts[0].Literal? then parts[0].text else values[parts[0].name].value)
      + Expanded(parts[1..], values)
  }

  lemma {:induction false} FilledPlains(text: string, rest: seq<Token>, values: map<string, Option<string>>)
    requires Filled(rest, values).Ok?
    ensures Filled(Plains(text) + rest, values) == Ok(text + Filled(rest, values).text)
  {
    var tokens := Plains(text) + rest;
    if text == "" {
      assert tokens == rest;
      assert text + Filled(rest, values).text == Filled(rest, values).text;
    } else {
      assert tokens[0] == Plain(text[0]) && tokens[1..] == Plains(text[1..]) + rest;
      FilledPlains(text[1..], rest, values);
      assert [text[0]] + (text[1..] + Filled(rest, values).text) == text + Filled(rest, values).text;
    }
  }

  /**
   * On a template printed from literals and placeholders, substitution is the concatenation of the literals and the
   * values: single braces are left alone, and a value that looks like a placeholder is not expanded again.
   */
  lemma {:induction false} PrintedTemplatesFillIn(parts: seq<Part>, values: map<string, Option<string>>)
    requires WellFormed(parts) && AllResolved(parts, values)
    ensures Substitute(Print(parts), values) == Ok(Expanded(parts, values))
  {
    if parts == [] {
    } else {
      var p, rest := parts[0], parts[1..];
      assert p in parts && forall q :: q in rest ==> q in parts;
      PrintedTemplatesFillIn(rest, values);
      PartTokenises(p, Print(rest));
      if p.Literal? { FilledPlains(p.text, Tokens(Print(rest)), values); }
      else {
        var tokens := PartTokens(p) + Tokens(Print(rest));
        assert tokens[0] == Hole(PrintPart(p), p.name) && tokens[1..] == Tokens(Print(rest));
      }
    }
  }

  lemma {:induction false} NamesAppend(a: seq<Token>, b: seq<Token>)
    ensures Names(a + b) == Names(a) + Names(b)
  {
    if a == [] { assert a + b == b; }
    else {
      assert (a + b)[0] == a[0] && (a + b)[1..] == a[1..] + b;
      NamesAppend(a[1..], b);
    }
  }

  lemma {:induction false} PlainsHaveNoNames(text: string)
    ensures Names(Plains(text)) == []
  {
    if text == "" {
    } else {
      assert Plains(text)[1..] == Plains(text[1..]);
      PlainsHaveNoNames(text[1..]);
    }
  }

  function PartNames(parts: seq<Part>): seq<string> {
    if parts == [] then [] else (if parts[0].Placeholder? then [parts[0].name] else []) + PartNames(parts[1..])
  }

  /** The names found in a printed template are those of its placeholders, in order. */
  lemma {:induction false} PrintedTemplatesNameTheirHoles(parts: seq<Part>)
    requires WellFormed(parts)
    ensures Names(Tokens(Print(parts))) == PartNames(parts)
  {
    if parts == [] {
    } else {
      var p, rest := parts[0], parts[1..];
      assert p in parts && forall q :: q in rest ==> q in parts;
      PrintedTemplatesNameTheirHoles(rest);
      PartTokenises(p, Print(rest));
      NamesAppend(PartTokens(p), Tokens(Print(rest)));
      if p.Literal? { PlainsHaveNoNames(p.text); }
      else { assert Names([Hole(PrintPart(p), p.name)]) == [p.name] + Names([]); }
    }
  }
}
