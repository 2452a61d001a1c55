/** The part of Python's str.format that a query goes through: literal text with
    doubled braces, and replacement fields that are plain names. */
module FormatString {
  import opened Prelude

  datatype FormatError =
    | SingleOpen
    | SingleClose
    | UnclosedField
    | NotAPlainName         // conversions, specs, attributes, positions, nesting
    | MissingKey(name: string)

  datatype Formatted = Ok(text: string) | Err(error: FormatError)

  predicate IsIdentStart(c: char) {
    'A' <= c <= 'Z' || 'a' <= c <= 'z' || c == '_'
  }

  predicate IsIdentChar(c: char) {
    IsIdentStart(c) || '0' <= c <= '9'
  }

  predicate IsIdent(s: string) {
    s != [] && IsIdentStart(s[0]) && forall i :: 0 <= i < |s| ==> IsIdentChar(s[i])
  }

  /** Names are letters, underscores and, from the second character on, digits. */
  lemma IdentIs(s: string, c: char)
    ensures
      var letter := 'A' <= c <= 'Z' || 'a' <= c <= 'z' || c == '_';
      (IsIdent([c]) <==> letter) && (IsIdent(s) ==> (IsIdent(s + [c]) <==> letter || '0' <= c <= '9'))
    ensures IsIdent(s + [c]) ==> s == [] || IsIdent(s)
  {
    assert (s + [c])[|s|] == c;
    if IsIdent(s + [c]) && s != [] {
      assert forall i :: 0 <= i < |s| ==> (s + [c])[i] == s[i];
    }
  }

  /** Length of the field name at the start of `t`: up to a brace, bracket,
      conversion or format spec. */
  function NameLength(t: string): (n: nat)
    ensures n <= |t|
  {
    if t == [] || t[0] in {'{', '}', '[', ':', '!'} then 0 else 1 + NameLength(t[1..])
  }

  function Prepend(s: string, r: Formatted): Formatted {
    if r.Ok? then Ok(s + r.text) else r
  }

  function Format(t: string, binding: map<string, string>): Formatted
    decreases |t|
  {
    if t == [] then Ok([])
    else if t[0] == '}' then
      if |t| > 1 && t[1] == '}' then Prepend("}", Format(t[2..], binding)) else Err(SingleClose)
    else if t[0] != '{' then Prepend([t[0]], Format(t[1..], binding))
    else if |t| == 1 then Err(SingleOpen)
    else if t[1] == '{' then Prepend("{", Format(t[2..], binding))
    else
      var n := NameLength(t[1..]);
      if n == |t| - 1 then Err(UnclosedField)
      else if t[n + 1] != '}' || !IsIdent(t[1..n + 1]) then Err(NotAPlainName)
      else if t[1..n + 1] !in binding then Err(MissingKey(t[1..n + 1]))
      else Prepend(binding[t[1..n + 1]], Format(t[n + 2..], binding))
  }

  /** `s` with every `c` doubled. */
  function Doubled(s: string, c: char): string {
    if s == [] then [] else (if s[0] == c then [c, c] else [s[0]]) + Doubled(s[1..], c)
  }

  /** What makes any text literal in a template. */
  function Escaped(s: string): string {
    Doubled(Doubled(s, '{'), '}')
  }

  function Field(name: string): string {
    "{" + name + "}"
  }

  lemma {:induction false} DoubledAppends(s: string, t: string, c: char)
    ensures Doubled(s + t, c) == Doubled(s, c) + Doubled(t, c)
  {
    if s == [] {
      assert s + t == t;
    } else {
      DoubledAppends(s[1..], t, c);
      assert (s + t)[1..] == s[1..] + t;
      Associates(if s[0] == c then [c, c] else [s[0]], Doubled(s[1..], c), Doubled(t, c));
    }
  }

  function Unit(c: char): string {
    if c == '{' then "{{" else if c == '}' then "}}" else [c]
  }

  lemma EscapedHead(s: string)
    requires s != []
    ensures Escaped(s) == Unit(s[0]) + Escaped(s[1..])
  {
    var head := if s[0] == '{' then "{{" else [s[0]];
    DoubledAppends(head, Doubled(s[1..], '{'), '}');
    if s[0] == '{' {
      assert head == ['{', '{'] && head[1..] == ['{'] && head[1..][1..] == [];
    } else {
      assert head[1..] == [];
    }
  }

  lemma FormatUnit(c: char, rest: string, binding: map<string, string>)
    ensures Format(Unit(c) + rest, binding) == Prepend([c], Format(rest, binding))
  {
    var t := Unit(c) + rest;
    assert t[|Unit(c)|..] == rest;
    assert "{" == ['{'] && "}" == ['}'];
  }

  /** What escaping is for: a brace that is not doubled and not part of a field makes
      formatting fail, wherever the text before it is literal. */
  lemma StrayBraceFails(before: string, after: string, binding: map<string, string>)
    ensures after == "" || after[0] != '}' ==>
              Format(Escaped(before) + "}" + after, binding) == Err(SingleClose)
    ensures Format(Escaped(before) + "{", binding) == Err(SingleOpen)
    ensures Format(Escaped(before) + "{}" + after, binding) == Err(NotAPlainName)
  {
    Associates(Escaped(before), "}", after);
    Associates(Escaped(before), "{}", after);
    FormatEscaped(before, "}" + after, binding);
    FormatEscaped(before, "{", binding);
    FormatEscaped(before, "{}" + after, binding);
    hide Escaped, NameLength;
    assert NameLength(("{}" + after)[1..]) == 0 by { EmptyName(after); }
  }

  lemma EmptyName(after: string)
    ensures NameLength(("{}" + after)[1..]) == 0
  {
  }

  lemma PrependTwice(s: string, r: Formatted)
    requires s != []
    ensures Prepend([s[0]], Prepend(s[1..], r)) == Prepend(s, r)
  {
    if r.Ok? {
      assert [s[0]] + (s[1..] + r.text) == s + r.text;
    }
  }

  lemma {:induction false} FormatEscaped(s: string, rest: string, binding: map<string, string>)
    ensures Format(Escaped(s) + rest, binding) == Prepend(s, Format(rest, binding))
  {
    assert Escaped([]) == [];
    hide Format, Escaped;
    if s == [] {
      assert Escaped(s) + rest == rest;
    } else {
      EscapedHead(s);
      Associates(Unit(s[0]), Escaped(s[1..]), rest);
      FormatUnit(s[0], Escaped(s[1..]) + rest, binding);
      FormatEscaped(s[1..], rest, binding);
      PrependTwice(s, Format(rest, binding));
    }
  }

  lemma {:induction false} NameLengthOfIdent(name: string, rest: string)
    requires forall i :: 0 <= i < |name| ==> IsIdentChar(name[i])
    requires rest != [] && rest[0] == '}'
    ensures NameLength(name + rest) == |name|
  {
    if name == [] {
      assert name + rest == rest;
    } else {
      assert (name + rest)[1..] == name[1..] + rest;
      NameLengthOfIdent(name[1..], rest);
      assert IsIdentChar(name[0]);
    }
  }

  lemma FormatField(name: string, rest: string, binding: map<string, string>)
    requires IsIdent(name)
    ensures Format(Field(name) + rest, binding) ==
            if name in binding then Prepend(binding[name], Format(rest, binding)) else Err(MissingKey(name))
  {
    var t := Field(name) + rest;
    NameLengthOfIdent(name, "}" + rest);
    assert t[1..] == name + ("}" + rest);
    assert t[1] == name[0] && IsIdentStart(name[0]);
    assert t[1..|name| + 1] == name;
    assert t[|name| + 2..] == rest;
  }
}
