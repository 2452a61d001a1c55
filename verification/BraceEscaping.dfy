/** `{name}` DataFrame references and `:name` markers of a %%sparksql statement,
    and the brace escaping that protects everything else from str.format. */
module BraceEscaping {
  import opened Prelude
  import opened FormatString
  import opened SqlTokens

  // ----- references ----------------------------------------------------------

  predicate IsBrace(tok: Token) {
    tok.value == "{" || tok.value == "}"
  }

  /** The first brace token from `j` on, or the end. */
  function NextBrace(toks: seq<Token>, j: nat): (k: nat)
    requires j <= |toks|
    ensures j <= k <= |toks|
    ensures forall m :: j <= m < k ==> !IsBrace(toks[m])
    ensures k < |toks| ==> IsBrace(toks[k])
    decreases |toks| - j
  {
    if j == |toks| || IsBrace(toks[j]) then j else NextBrace(toks, j + 1)
  }

  /** Tokens i..close make up one reference `{name}`. */
  ghost predicate IsReference(toks: seq<Token>, i: nat, close: nat, name: string) {
    && i < close < |toks|
    && toks[i].value == "{" && toks[close].value == "}"
    && (forall m :: i < m < close ==> !IsBrace(toks[m]))
    && name == Text(toks[i + 1..close]) && IsIdent(name)
  }

  /** What `_brace_ident` answers: the index of the closing brace and the name. */
  datatype Brace = NoName | Name(close: nat, name: string)

  /** `_brace_ident`, as a function. */
  function BraceIdent(toks: seq<Token>, i: nat): (r: Brace)
    requires i < |toks|
    ensures r.Name? ==> IsReference(toks, i, r.close, r.name)
    ensures r.NoName? ==> forall close, name :: !IsReference(toks, i, close, name)
  {
    if toks[i].value != "{" then NoName
    else
      var j := NextBrace(toks, i + 1);
      if j < |toks| && toks[j].value == "}" && IsIdent(Text(toks[i + 1..j])) then Name(j, Text(toks[i + 1..j]))
      else NoName
  }

  method FindBraceIdent(toks: seq<Token>, i: nat) returns (r: Brace)
    requires i < |toks|
    ensures r == BraceIdent(toks, i)
  {
    if toks[i].value != "{" {
      return NoName;
    }
    var j := i + 1;
    while j < |toks| && !IsBrace(toks[j])
      invariant i < j <= |toks|
      invariant NextBrace(toks, i + 1) == NextBrace(toks, j)
    {
      j := j + 1;
    }
    if j < |toks| && toks[j].value == "}" {
      var inner := Text(toks[i + 1..j]);
      if IsIdent(inner) {
        return Name(j, inner);
      }
    }
    r := NoName;
  }

  // ----- the two scans -------------------------------------------------------

  /** The escaped template of the tokens from `i` on. */
  function Template(toks: seq<Token>, i: nat): string
    requires i <= |toks|
    decreases |toks| - i
  {
    if i == |toks| then []
    else match BraceIdent(toks, i)
         case Name(close, name) => Field(name) + Template(toks, close + 1)
         case NoName => Escaped(toks[i].value) + Template(toks, i + 1)
  }

  /** The same tokens with every reference replaced and nothing else changed. */
  function Substituted(toks: seq<Token>, i: nat, binding: map<string, string>): string
    requires i <= |toks|
    decreases |toks| - i
  {
    if i == |toks| then []
    else match BraceIdent(toks, i)
         case Name(close, name) =>
           (if name in binding then binding[name] else []) + Substituted(toks, close + 1, binding)
         case NoName => toks[i].value + Substituted(toks, i + 1, binding)
  }

  /** The names of the references, in order. */
  function References(toks: seq<Token>, i: nat): seq<string>
    requires i <= |toks|
    decreases |toks| - i
  {
    if i == |toks| then []
    else match BraceIdent(toks, i)
         case Name(close, name) => [name] + References(toks, close + 1)
         case NoName => References(toks, i + 1)
  }

  /** The names of the references whose opening brace is typed as a placeholder,
      which the parameter scan takes for a marker instead. */
  function Mistyped(toks: seq<Token>, i: nat): seq<string>
    requires i <= |toks|
    decreases |toks| - i
  {
    if i == |toks| then []
    else match BraceIdent(toks, i)
         case Name(close, name) =>
           (if toks[i].ttype.Placeholder? then [name] else []) + Mistyped(toks, close + 1)
         case NoName => Mistyped(toks, i + 1)
  }

  function MarkerName(value: string): Option<string> {
    if value != [] && value[0] == ':' && IsIdent(value[1..]) then Some(value[1..]) else None
  }

  /** The parameter scan from `i` on: the markers and fields met, with repeats. */
  function Scan(toks: seq<Token>, i: nat): (seq<string>, seq<string>)
    requires i <= |toks|
    decreases |toks| - i
  {
    if i == |toks| then ([], [])
    else if toks[i].ttype.Placeholder? then
      var (markers, fields) := Scan(toks, i + 1);
      (match MarkerName(toks[i].value) case Some(m) => [m] + markers case None => markers, fields)
    else match BraceIdent(toks, i)
         case Name(close, name) => var (markers, fields) := Scan(toks, close + 1); (markers, [name] + fields)
         case NoName => Scan(toks, i + 1)
  }

  /** `s` then the elements of `more` it does not have yet, in order. */
  function Joined(s: seq<string>, more: seq<string>): seq<string>
    decreases |more|
  {
    if more == [] then s
    else Joined(if more[0] in s then s else s + [more[0]], more[1..])
  }

  lemma {:induction false} JoinedIsUnion(s: seq<string>, more: seq<string>)
    ensures forall n :: n in Joined(s, more) <==> n in s || n in more
    decreases |more|
  {
    if more != [] {
      JoinedIsUnion(if more[0] in s then s else s + [more[0]], more[1..]);
      assert more == [more[0]] + more[1..];
    }
  }

  method EscapeBraces(toks: seq<Token>) returns (out: string)
    ensures out == Template(toks, 0)
  {
    hide BraceIdent, NextBrace, Escaped, Field, Text, IsReference;
    out := [];
    var i := 0;
    while i < |toks|
      invariant 0 <= i <= |toks|
      invariant out + Template(toks, i) == Template(toks, 0)
    {
      var brace := FindBraceIdent(toks, i);
      var piece;
      if brace.Name? {
        AtReference(toks, i, brace.close, brace.name, map[]);
        piece := Field(brace.name);
        i := brace.close + 1;
      } else {
        AtPlain(toks, i, map[]);
        piece := Escaped(toks[i].value);
        i := i + 1;
      }
      Associates(out, piece, Template(toks, i));
      out := out + piece;
    }
    assert out + [] == out;
  }

  /** Whether token `k` is a marker, or begins a field, of this name. */
  ghost predicate Meets(toks: seq<Token>, k: nat, name: string, marker: bool)
    requires k < |toks|
  {
    if marker then IsMarker(toks[k], name) else IsField(toks, k, name)
  }

  /** The names met before token `i`, each once, in the order they are first met. */
  ghost predicate FirstsInOrder(names: seq<string>, toks: seq<Token>, i: nat, marker: bool)
    requires i <= |toks|
  {
    && (forall n :: n in names <==> exists k :: 0 <= k < i && Meets(toks, k, n, marker))
    && (forall a, b :: 0 <= a < b < |names| ==> MetBefore(toks, i, names[a], names[b], marker))
  }

  ghost predicate MetBefore(toks: seq<Token>, i: nat, one: string, other: string, marker: bool)
    requires i <= |toks|
  {
    exists k :: 0 <= k < i && Meets(toks, k, one, marker) && forall j :: 0 <= j <= k ==> !Meets(toks, j, other, marker)
  }

  lemma FirstsNext(names: seq<string>, toks: seq<Token>, i: nat, j: nat, met: Option<string>, marker: bool)
    requires i < j <= |toks| && FirstsInOrder(names, toks, i, marker)
    requires forall k, n :: i <= k < j ==> (Meets(toks, k, n, marker) <==> k == i && met == Some(n))
    ensures FirstsInOrder(if met.Some? && met.value !in names then names + [met.value] else names, toks, j, marker)
  {
    hide Meets;
    var more := if met.Some? && met.value !in names then names + [met.value] else names;
    forall n
      ensures n in more <==> exists k :: 0 <= k < j && Meets(toks, k, n, marker)
    {
      if met == Some(n) {
        assert Meets(toks, i, n, marker);
      }
    }
    forall a, b | 0 <= a < b < |more|
      ensures MetBefore(toks, j, more[a], more[b], marker)
    {
      if b < |names| {
        assert MetBefore(toks, i, names[a], names[b], marker);
      } else {
        assert more[a] == names[a] && names[a] in names;
        var k :| 0 <= k < i && Meets(toks, k, names[a], marker);
        assert forall m :: 0 <= m < i ==> !Meets(toks, m, more[b], marker);
      }
    }
  }

  /** What the scan meets at token `i` and passes over until it goes on. */
  lemma MeetsNext(toks: seq<Token>, i: nat)
    requires i < |toks|
    ensures
      var t := toks[i];
      var marker := if t.ttype.Placeholder? then MarkerName(t.value) else None;
      var field := if !t.ttype.Placeholder? && BraceIdent(toks, i).Name? then Some(BraceIdent(toks, i).name) else None;
      forall k, n :: i <= k < AfterToken(toks, i) ==>
        && (Meets(toks, k, n, true) <==> k == i && marker == Some(n))
        && (Meets(toks, k, n, false) <==> k == i && field == Some(n))
  {
    hide BraceIdent, MarkerName;
    forall k, n | i <= k < AfterToken(toks, i)
      ensures k == i ==>
                (Meets(toks, k, n, true) <==> toks[i].ttype.Placeholder? && MarkerName(toks[i].value) == Some(n))
      ensures k > i ==> !Meets(toks, k, n, true) && !Meets(toks, k, n, false)
    {
      MarkerIs(toks[k].value, n);
      NoFieldInside(toks, i, n);
      if k > i {
        NoMarkerInside(toks, i, BraceIdent(toks, i).close, BraceIdent(toks, i).name, n);
      }
    }
  }

  lemma NothingMet(toks: seq<Token>)
    ensures FirstsInOrder([], toks, 0, true) && FirstsInOrder([], toks, 0, false)
    ensures Scan(toks, |toks|) == ([], [])
  {
  }

  method FindParameters(toks: seq<Token>) returns (markers: seq<string>, fields: seq<string>)
    ensures markers == Joined([], Scan(toks, 0).0)
    ensures fields == Joined([], Scan(toks, 0).1)
    ensures FirstsInOrder(markers, toks, |toks|, true) && FirstsInOrder(fields, toks, |toks|, false)
  {
    hide Meets, BraceIdent, MarkerName, FirstsInOrder, Scan;
    markers, fields := [], [];
    var i := 0;
    NothingMet(toks);
    while i < |toks|
      invariant 0 <= i <= |toks|
      invariant FirstsInOrder(markers, toks, i, true) && FirstsInOrder(fields, toks, i, false)
      invariant Joined(markers, Scan(toks, i).0) == Joined([], Scan(toks, 0).0)
      invariant Joined(fields, Scan(toks, i).1) == Joined([], Scan(toks, 0).1)
    {
      MeetsNext(toks, i);
      ScanNext(toks, i);
      var next := AfterToken(toks, i);
      if toks[i].ttype.Placeholder? {
        FirstsNext(markers, toks, i, next, MarkerName(toks[i].value), true);
        FirstsNext(fields, toks, i, next, None, false);
        var m := MarkerName(toks[i].value);
        if m.Some? && m.value !in markers {
          markers := markers + [m.value];
        }
      } else {
        var brace := FindBraceIdent(toks, i);
        FirstsNext(markers, toks, i, next, None, true);
        FirstsNext(fields, toks, i, next, if brace.Name? then Some(brace.name) else None, false);
        if brace.Name? {
          if brace.name !in fields {
            fields := fields + [brace.name];
          }
          i := brace.close;
        }
      }
      i := i + 1;
    }
  }

  // ----- main results --------------------------------------------------------

  ghost predicate AllBound(names: seq<string>, binding: map<string, string>) {
    forall n :: n in names ==> n in binding
  }

  /** The scans from a reference on, unfolded once. */
  lemma AtReference(toks: seq<Token>, i: nat, close: nat, name: string, binding: map<string, string>)
    requires i < |toks| && BraceIdent(toks, i) == Name(close, name)
    ensures i < close < |toks| && IsIdent(name)
    ensures Template(toks, i) == Field(name) + Template(toks, close + 1)
    ensures References(toks, i) == [name] + References(toks, close + 1) && name in References(toks, i)
    ensures name in binding ==> Substituted(toks, i, binding) == binding[name] + Substituted(toks, close + 1, binding)
  {
    hide BraceIdent, NextBrace, Field;
  }

  lemma AtPlain(toks: seq<Token>, i: nat, binding: map<string, string>)
    requires i < |toks| && BraceIdent(toks, i).NoName?
    ensures Template(toks, i) == Escaped(toks[i].value) + Template(toks, i + 1)
    ensures References(toks, i) == References(toks, i + 1)
    ensures Substituted(toks, i, binding) == toks[i].value + Substituted(toks, i + 1, binding)
  {
    hide BraceIdent, NextBrace, Escaped;
  }

  lemma AllBoundCons(name: string, names: seq<string>, binding: map<string, string>)
    ensures AllBound([name] + names, binding) <==> name in binding && AllBound(names, binding)
  {
    assert ([name] + names)[0] == name;
    assert forall n :: n in names ==> n in [name] + names;
  }

  /** What formatting a template does, given the names it refers to and the text
      it stands for. */
  ghost predicate FormatsTo(template: string, names: seq<string>, text: string, binding: map<string, string>) {
    if AllBound(names, binding) then Format(template, binding) == Ok(text)
    else exists n :: n in names && n !in binding && Format(template, binding) == Err(MissingKey(n))
  }

  lemma FormatsReference(name: string, rest: string, names: seq<string>, text: string, binding: map<string, string>)
    requires IsIdent(name) && FormatsTo(rest, names, text, binding)
    ensures FormatsTo(Field(name) + rest, [name] + names, if name in binding then binding[name] + text else [], binding)
  {
    hide Format, IsIdent, Field, AllBound;
    FormatField(name, rest, binding);
    AllBoundCons(name, names, binding);
    if name !in binding {
      assert name in [name] + names;
    } else if !AllBound(names, binding) {
      var n :| n in names && n !in binding && Format(rest, binding) == Err(MissingKey(n));
      assert n in [name] + names;
    }
  }

  lemma FormatsPlain(value: string, rest: string, names: seq<string>, text: string, binding: map<string, string>)
    requires FormatsTo(rest, names, text, binding)
    ensures FormatsTo(Escaped(value) + rest, names, value + text, binding)
  {
    hide Format, Escaped, AllBound;
    FormatEscaped(value, rest, binding);
  }

  /** Formatting the escaped statement succeeds exactly when every reference is
      bound; it yields the tokens verbatim with the references replaced, and
      otherwise misses a referenced name. */
  lemma {:induction false} FormatUndoesEscaping(toks: seq<Token>, i: nat, binding: map<string, string>)
    requires i <= |toks|
    ensures FormatsTo(Template(toks, i), References(toks, i), Substituted(toks, i, binding), binding)
    decreases |toks| - i
  {
    hide *;
    if i == |toks| {
      FormatsNothing(toks, binding);
    } else {
      var brace := BraceIdent(toks, i);
      if brace.Name? {
        AtReference(toks, i, brace.close, brace.name, binding);
        FormatUndoesEscaping(toks, brace.close + 1, binding);
        FormatsReference(brace.name, Template(toks, brace.close + 1), References(toks, brace.close + 1),
                         Substituted(toks, brace.close + 1, binding), binding);
        UnboundTextIsFree(Template(toks, i), References(toks, i), brace.name, binding);
      } else {
        AtPlain(toks, i, binding);
        FormatUndoesEscaping(toks, i + 1, binding);
        FormatsPlain(toks[i].value, Template(toks, i + 1), References(toks, i + 1),
                     Substituted(toks, i + 1, binding), binding);
      }
    }
  }

  lemma FormatsNothing(toks: seq<Token>, binding: map<string, string>)
    ensures FormatsTo(Template(toks, |toks|), References(toks, |toks|), Substituted(toks, |toks|, binding), binding)
  {
  }

  lemma UnboundTextIsFree(template: string, names: seq<string>, name: string, binding: map<string, string>)
    requires name in names
    ensures name !in binding ==> forall text, text' ::
              FormatsTo(template, names, text, binding) <==> FormatsTo(template, names, text', binding)
  {
  }

  lemma ReferenceText(toks: seq<Token>, i: nat, close: nat, name: string)
    requires IsReference(toks, i, close, name)
    ensures Text(toks[i..]) == Field(name) + Text(toks[close + 1..])
  {
    TextSplits(toks, i + 1, close);
    assert toks[i..][1..] == toks[i + 1..];
    assert toks[close..][1..] == toks[close + 1..];
  }

  /** Round trip: replacing every reference by itself gives back the statement. */
  lemma {:induction false} SelfSubstitution(toks: seq<Token>, i: nat, binding: map<string, string>)
    requires i <= |toks|
    requires AllBound(References(toks, i), binding)
    requires forall n :: n in binding ==> binding[n] == Field(n)
    ensures Substituted(toks, i, binding) == Text(toks[i..])
    decreases |toks| - i
  {
    hide *;
    if i == |toks| {
      SubstitutedNothing(toks, binding);
    } else {
      var brace := BraceIdent(toks, i);
      if brace.Name? {
        AtReference(toks, i, brace.close, brace.name, binding);
        AllBoundCons(brace.name, References(toks, brace.close + 1), binding);
        ReferenceText(toks, i, brace.close, brace.name);
        SelfSubstitution(toks, brace.close + 1, binding);
      } else {
        AtPlain(toks, i, binding);
        TextHead(toks, i);
        SelfSubstitution(toks, i + 1, binding);
      }
    }
  }

  lemma SubstitutedNothing(toks: seq<Token>, binding: map<string, string>)
    ensures Substituted(toks, |toks|, binding) == Text(toks[|toks|..])
  {
    assert toks[|toks|..] == [];
  }

  lemma {:induction false} ScanSkipsPlain(toks: seq<Token>, k: nat, close: nat)
    requires k <= close < |toks| && toks[close].value == "}"
    requires forall m :: k <= m < close ==> !IsBrace(toks[m])
    ensures Scan(toks, k).1 == Scan(toks, close + 1).1
    decreases close - k
  {
    if k < close {
      ScanSkipsPlain(toks, k + 1, close);
    }
  }

  /** The references are the fields the scan finds and those it mistakes for
      placeholders. */
  lemma {:induction false} ReferencesAreFieldsOrMistyped(toks: seq<Token>, i: nat)
    requires i <= |toks|
    ensures forall n :: n in References(toks, i) <==> n in Scan(toks, i).1 || n in Mistyped(toks, i)
    decreases |toks| - i
  {
    if i < |toks| {
      match BraceIdent(toks, i) {
        case Name(close, name) =>
          ReferencesAreFieldsOrMistyped(toks, close + 1);
          if toks[i].ttype.Placeholder? {
            ScanSkipsPlain(toks, i + 1, close);
          }
        case NoName =>
          ReferencesAreFieldsOrMistyped(toks, i + 1);
      }
    }
  }

  /** With exactly the reported fields bound, formatting succeeds if and only if
      every reference opened by a token typed as a placeholder names a reported
      field; in particular when no such token is typed so. */
  lemma FormatSucceedsOnReportedFields(toks: seq<Token>, binding: map<string, string>)
    requires binding.Keys == (set n | n in Scan(toks, 0).1)
    ensures Format(Template(toks, 0), binding).Ok? <==> (forall n :: n in Mistyped(toks, 0) ==> n in Scan(toks, 0).1)
    ensures Mistyped(toks, 0) == [] ==>
              Format(Template(toks, 0), binding) == Ok(Substituted(toks, 0, binding))
              && forall n :: n in References(toks, 0) <==> n in Scan(toks, 0).1
  {
    ReferencesAreFieldsOrMistyped(toks, 0);
    FormatUndoesEscaping(toks, 0, binding);
  }

  lemma {:induction false} NoTypedBraceNoMistyped(toks: seq<Token>, i: nat)
    requires i <= |toks|
    requires forall k :: 0 <= k < |toks| && toks[k].value == "{" ==> !toks[k].ttype.Placeholder?
    ensures Mistyped(toks, i) == []
    decreases |toks| - i
  {
    hide BraceIdent, IsReference;
    if i < |toks| {
      OpensWithBrace(toks, i);
      match BraceIdent(toks, i) {
        case Name(close, _) => NoTypedBraceNoMistyped(toks, close + 1);
        case NoName => NoTypedBraceNoMistyped(toks, i + 1);
      }
    }
  }

  lemma OpensWithBrace(toks: seq<Token>, i: nat)
    requires i < |toks|
    ensures BraceIdent(toks, i).Name? ==> toks[i].value == "{" && i < BraceIdent(toks, i).close < |toks|
  {
    hide BraceIdent;
  }

  const MISTYPED := [Token(Other, "{"), Token(Other, "a"), Token(Other, "}"),
                     Token(Placeholder, "{"), Token(Other, "b"), Token(Other, "}")]

  /** One typed so: `{a}{b}` with the second brace typed as a placeholder reports the
      field `a` only, and formatting with `a` bound misses `b`. */
  lemma MistypedBraceFails()
    ensures Scan(MISTYPED, 0).1 == ["a"]
    ensures !Format(Template(MISTYPED, 0), map["a" := "view"]).Ok?
  {
    hide BraceIdent, Template, Format, Substituted, References, FormatsTo;
    MistypedReferences();
    assert Scan(MISTYPED, 5) == ([], []);
    assert Scan(MISTYPED, 4) == ([], []);
    assert Scan(MISTYPED, 3) == ([], []);
    assert Mistyped(MISTYPED, 3) == ["b"] + Mistyped(MISTYPED, 6);
    assert Mistyped(MISTYPED, 0) == [] + Mistyped(MISTYPED, 3);
    assert "b" in Mistyped(MISTYPED, 0);
    assert "a"[0] != "b"[0] && "b" !in Scan(MISTYPED, 0).1;
    FormatSucceedsOnReportedFields(MISTYPED, map["a" := "view"]);
  }

  lemma MistypedReferences()
    ensures BraceIdent(MISTYPED, 0) == Name(2, "a") && BraceIdent(MISTYPED, 3) == Name(5, "b")
    ensures BraceIdent(MISTYPED, 4).NoName? && BraceIdent(MISTYPED, 5).NoName?
  {
    OneName(MISTYPED, 0, "a");
    OneName(MISTYPED, 3, "b");
  }

  lemma OneName(toks: seq<Token>, i: nat, name: string)
    requires i + 2 < |toks| && |name| == 1 && IsIdentStart(name[0])
    requires toks[i].value == "{" && toks[i + 1].value == name && toks[i + 2].value == "}"
    ensures BraceIdent(toks, i) == Name(i + 2, name)
  {
    assert toks[i + 1..i + 2] == [toks[i + 1]];
    assert Text([toks[i + 1]]) == name + Text([]);
    assert IsReference(toks, i, i + 2, name);
  }

  /** The markers reported are the placeholder tokens that read `:name`, wherever
      they are; none hides inside a reference. */
  lemma {:induction false} MarkersAre(toks: seq<Token>, i: nat, name: string)
    requires i <= |toks|
    ensures name in Scan(toks, i).0 <==> exists k :: i <= k < |toks| && IsMarker(toks[k], name)
    decreases |toks| - i
  {
    hide BraceIdent, MarkerName;
    if i < |toks| {
      ScanNext(toks, i);
      MarkerIs(toks[i].value, name);
      var next := AfterToken(toks, i);
      MarkersAre(toks, next, name);
      if !toks[i].ttype.Placeholder? && BraceIdent(toks, i).Name? {
        NoMarkerInside(toks, i, BraceIdent(toks, i).close, BraceIdent(toks, i).name, name);
      }
    }
  }

  /** A token typed as a placeholder that reads `:name`. */
  predicate IsMarker(tok: Token, name: string) {
    tok.ttype.Placeholder? && IsIdent(name) && tok.value == ":" + name
  }

  lemma MarkerIs(value: string, name: string)
    ensures MarkerName(value) == Some(name) <==> IsIdent(name) && value == ":" + name
  {
    if value != [] {
      assert value == [value[0]] + value[1..];
    }
    assert (":" + name)[1..] == name;
  }

  /** Where the parameter scan goes on after token `i`. */
  function AfterToken(toks: seq<Token>, i: nat): (j: nat)
    requires i < |toks|
    ensures i < j <= |toks|
  {
    if !toks[i].ttype.Placeholder? && BraceIdent(toks, i).Name? then BraceIdent(toks, i).close + 1 else i + 1
  }

  lemma ScanNext(toks: seq<Token>, i: nat)
    requires i < |toks|
    ensures
      var next := Scan(toks, AfterToken(toks, i));
      Scan(toks, i)
      == if toks[i].ttype.Placeholder? then
           ((match MarkerName(toks[i].value) case Some(m) => [m] + next.0 case None => next.0), next.1)
         else if BraceIdent(toks, i).Name? then (next.0, [BraceIdent(toks, i).name] + next.1)
         else next
  {
    hide BraceIdent, MarkerName;
  }

  lemma NoMarkerInside(toks: seq<Token>, i: nat, close: nat, inner: string, name: string)
    requires IsReference(toks, i, close, inner)
    ensures forall k :: i <= k <= close ==> !IsMarker(toks[k], name)
  {
    forall k | i <= k <= close
      ensures !IsMarker(toks[k], name)
    {
      if i < k < close {
        ValueInText(toks[i + 1..close], k - i - 1);
        assert toks[i + 1..close][k - i - 1] == toks[k];
        if toks[k].value != [] {
          assert toks[k].value[0] in inner;
        }
      }
    }
  }

  lemma {:induction false} ValueInText(toks: seq<Token>, k: nat)
    requires k < |toks|
    ensures forall c :: c in toks[k].value ==> c in Text(toks)
  {
    if k > 0 {
      ValueInText(toks[1..], k - 1);
    }
  }

  /** The fields reported are the names of the references whose opening brace is not
      typed as a placeholder. */
  lemma {:induction false} FieldsAre(toks: seq<Token>, i: nat, name: string)
    requires i <= |toks|
    ensures name in Scan(toks, i).1 <==> exists k :: i <= k < |toks| && IsField(toks, k, name)
    decreases |toks| - i
  {
    hide MarkerName, BraceIdent;
    if i < |toks| {
      ScanNext(toks, i);
      FieldsAre(toks, AfterToken(toks, i), name);
      NoFieldInside(toks, i, name);
      assert name in Scan(toks, i).1 <==> IsField(toks, i, name) || name in Scan(toks, AfterToken(toks, i)).1;
    }
  }

  lemma NoFieldInside(toks: seq<Token>, i: nat, name: string)
    requires i < |toks|
    ensures forall k :: i < k < AfterToken(toks, i) ==> !IsField(toks, k, name)
  {
    hide BraceIdent;
    forall k | i < k < AfterToken(toks, i)
      ensures !IsField(toks, k, name)
    {
      OpensWithBrace(toks, k);
    }
  }

  predicate IsField(toks: seq<Token>, k: nat, name: string)
    requires k < |toks|
  {
    !toks[k].ttype.Placeholder? && BraceIdent(toks, k).Name? && BraceIdent(toks, k).name == name
  }

  // ----- binding -------------------------------------------------------------

  datatype Value = DataFrame(view: string) | Scalar(value: int)

  datatype Binding =
    | Bound(sql: string, args: map<string, Value>, kwargs: map<string, Value>)
    | NotDefined(names: seq<string>)
    | WrongKind(name: string)

  function Views(kwargs: map<string, Value>): map<string, string> {
    map n | n in kwargs && kwargs[n].DataFrame? :: kwargs[n].view
  }

  /** What Spark runs: it formats the query only when given keyword arguments. */
  function Executed(b: Binding): Formatted
    requires b.Bound?
  {
    if b.kwargs == map[] then Ok(b.sql) else Format(b.sql, Views(b.kwargs))
  }

  predicate BadMarker(n: string, ns: map<string, Value>) {
    n in ns && ns[n].DataFrame?
  }

  predicate BadField(n: string, ns: map<string, Value>) {
    n in ns && !ns[n].DataFrame?
  }

  method BindParameters(toks: seq<Token>, ns: map<string, Value>) returns (b: Binding)
    ensures b.NotDefined? <==> exists n :: n in Scan(toks, 0).0 + Scan(toks, 0).1 && n !in ns
    ensures b.NotDefined? ==> forall n :: n in b.names <==> n in Scan(toks, 0).0 + Scan(toks, 0).1 && n !in ns
    ensures b.WrongKind? ==> if exists n :: n in Scan(toks, 0).0 && BadMarker(n, ns)
                             then b.name in Scan(toks, 0).0 && BadMarker(b.name, ns)
                             else b.name in Scan(toks, 0).1 && BadField(b.name, ns)
    ensures b.WrongKind? <==> !b.NotDefined? && ((exists n :: n in Scan(toks, 0).0 && BadMarker(n, ns))
                                                  || exists n :: n in Scan(toks, 0).1 && BadField(n, ns))
    ensures b.Bound? ==> b.args.Keys == (set n | n in Scan(toks, 0).0)
    ensures b.Bound? ==> b.kwargs.Keys == (set n | n in Scan(toks, 0).1)
    ensures b.Bound? ==> forall n :: n in b.args ==> n in ns && b.args[n] == ns[n] && !b.args[n].DataFrame?
    ensures b.Bound? ==> forall n :: n in b.kwargs ==> n in ns && b.kwargs[n] == ns[n] && b.kwargs[n].DataFrame?
    ensures b.Bound? && Mistyped(toks, 0) == [] ==>
              Executed(b) == Ok(Substituted(toks, 0, Views(b.kwargs)))
    ensures b.Bound? && Scan(toks, 0).1 == [] ==> Executed(b) == Ok(Text(toks))
  {
    hide FirstsInOrder;
    var markers, fields := FindParameters(toks);
    JoinedIsUnion([], Scan(toks, 0).0);
    JoinedIsUnion([], Scan(toks, 0).1);
    var missing := Undefined(markers + fields, ns);
    if missing != [] {
      assert missing[0] in missing;
      return NotDefined(missing);
    }
    var bad := FirstBad(markers, ns, true);
    if bad.Some? {
      return WrongKind(bad.value);
    }
    bad := FirstBad(fields, ns, false);
    if bad.Some? {
      return WrongKind(bad.value);
    }
    var args := map n | n in markers :: ns[n];
    var kwargs := map n | n in fields :: ns[n];
    var template := EscapeBraces(toks);
    b := Bound(if kwargs != map[] then template else Text(toks), args, kwargs);
    BoundQuery(toks, b);
  }

  lemma BoundQuery(toks: seq<Token>, b: Binding)
    requires b.Bound? && b.kwargs.Keys == (set n | n in Scan(toks, 0).1)
    requires forall n :: n in b.kwargs ==> b.kwargs[n].DataFrame?
    requires b.sql == if b.kwargs != map[] then Template(toks, 0) else Text(toks)
    ensures Mistyped(toks, 0) == [] ==> Executed(b) == Ok(Substituted(toks, 0, Views(b.kwargs)))
    ensures Scan(toks, 0).1 == [] ==> Executed(b) == Ok(Text(toks))
  {
    assert Views(b.kwargs).Keys == b.kwargs.Keys;
    if b.kwargs != map[] {
      assert b.kwargs.Keys != {};
      FormatSucceedsOnReportedFields(toks, Views(b.kwargs));
    } else if Mistyped(toks, 0) == [] {
      ReferencesAreFieldsOrMistyped(toks, 0);
      assert forall n :: n in Scan(toks, 0).1 ==> n in b.kwargs.Keys;
      SelfSubstitution(toks, 0, map[]);
      assert toks[0..] == toks;
      assert Views(b.kwargs) == map[];
    }
  }

  method Undefined(names: seq<string>, ns: map<string, Value>) returns (missing: seq<string>)
    ensures forall n :: n in missing <==> n in names && n !in ns
  {
    missing := [];
    for i := 0 to |names|
      invariant forall n :: n in missing <==> n in names[..i] && n !in ns
    {
      if names[i] !in ns {
        missing := missing + [names[i]];
      }
    }
    assert names[..|names|] == names;
  }

  method FirstBad(names: seq<string>, ns: map<string, Value>, marker: bool) returns (bad: Option<string>)
    ensures bad.Some? ==> bad.value in names && if marker then BadMarker(bad.value, ns) else BadField(bad.value, ns)
    ensures bad.None? ==> forall n :: n in names ==> !(if marker then BadMarker(n, ns) else BadField(n, ns))
  {
    for i := 0 to |names|
      invariant forall k :: 0 <= k < i ==> !(if marker then BadMarker(names[k], ns) else BadField(names[k], ns))
    {
      if if marker then BadMarker(names[i], ns) else BadField(names[i], ns) {
        return Some(names[i]);
      }
    }
    bad := None;
  }
}
