/** Splitting a cell into statements that know where they came from. */
module Statements {
  import opened Prelude
  import opened SqlTokens

  /** Python's whitespace, as str.strip sees it. */
  predicate IsSpace(c: char) {
    || '\t' <= c <= '\r' || '\U{1c}' <= c <= ' ' || c == '\U{85}' || c == '\U{a0}' || c == '\U{1680}'
    || '\U{2000}' <= c <= '\U{200a}' || c in {'\U{2028}', '\U{2029}', '\U{202f}', '\U{205f}', '\U{3000}'}
  }

  function StripLeft(s: string): string {
    if s != [] && IsSpace(s[0]) then StripLeft(s[1..]) else s
  }

  function Strip(s: string): string {
    var left := StripLeft(s);
    StripRight(left)
  }

  function StripRight(s: string): string {
    if s != [] && IsSpace(Last(s)) then StripRight(s[..|s| - 1]) else s
  }

  /** Stripping takes off the whitespace at both ends and nothing else. */
  lemma StripTakesSpaces(s: string) returns (i: nat, j: nat)
    ensures i <= j <= |s| && Strip(s) == s[i..j]
    ensures forall k :: 0 <= k < i || j <= k < |s| ==> IsSpace(s[k])
    ensures i < j ==> !IsSpace(s[i]) && !IsSpace(s[j - 1])
  {
    i := StripLeftTakes(s);
    var n := StripRightTakes(s[i..]);
    j := i + n;
    forall k | j <= k < |s|
      ensures IsSpace(s[k])
    {
      assert s[i..][k - i] == s[k];
    }
    if i < j {
      assert s[i..][n - 1] == s[j - 1] && s[i..][0] == s[i];
    }
  }

  lemma {:induction false} StripLeftTakes(s: string) returns (i: nat)
    ensures i <= |s| && StripLeft(s) == s[i..]
    ensures (forall k :: 0 <= k < i ==> IsSpace(s[k])) && (i < |s| ==> !IsSpace(s[i]))
  {
    i := 0;
    if s != [] && IsSpace(s[0]) {
      i := StripLeftTakes(s[1..]);
      i := i + 1;
      assert forall k :: 1 <= k < |s| ==> s[k] == s[1..][k - 1];
    }
  }

  lemma {:induction false} StripRightTakes(s: string) returns (j: nat)
    ensures j <= |s| && StripRight(s) == s[..j]
    ensures (forall k :: j <= k < |s| ==> IsSpace(s[k])) && (j > 0 ==> !IsSpace(s[j - 1]))
  {
    j := |s|;
    if s != [] && IsSpace(Last(s)) {
      j := StripRightTakes(s[..|s| - 1]);
    }
  }

  /** Comments, and tokens of nothing but whitespace and at most one `;`. */
  predicate Negligible(tok: Token) {
    || tok.ttype == Comment || tok.ttype == Whitespace
    || (forall c :: c in tok.value ==> IsSpace(c))
    || exists i :: 0 <= i < |tok.value| && OnlyAt(tok.value, i)
  }

  predicate OnlyAt(s: string, i: int)
    requires 0 <= i < |s|
  {
    s[i] == ';' && forall k :: 0 <= k < |s| && k != i ==> IsSpace(s[k])
  }

  lemma OneSemicolon(s: string, i: nat, j: nat, k: nat)
    requires k < |s| && OnlyAt(s, k) && i <= j <= |s|
    requires forall m :: 0 <= m < i || j <= m < |s| ==> IsSpace(s[m])
    requires i < j ==> !IsSpace(s[i]) && !IsSpace(s[j - 1])
    ensures s[i..j] == ";"
  {
    assert !IsSpace(';');
    assert i == k && j == k + 1;
  }

  /** Code is every other token. */
  lemma CodeIs(tok: Token)
    ensures IsCode(tok) <==> !Negligible(tok)
  {
    var s := tok.value;
    var i, j := StripTakesSpaces(s);
    if Strip(s) == "" {
      assert i == j;
      forall c | c in s
        ensures IsSpace(c)
      {
        var k :| 0 <= k < |s| && s[k] == c;
      }
    } else if Strip(s) == ";" {
      assert s[i..j][0] == s[i] && OnlyAt(s, i);
    } else {
      assert s[i] in s;
      forall k | 0 <= k < |s|
        ensures !OnlyAt(s, k)
      {
        if OnlyAt(s, k) {
          OneSemicolon(s, i, j, k);
        }
      }
    }
  }

  /** Not whitespace, a comment or `;`. */
  predicate IsCode(tok: Token) {
    Strip(tok.value) !in {"", ";"} && !tok.ttype.Comment? && !tok.ttype.Whitespace?
  }

  /** The code tokens, in order. */
  function CodeOf(toks: seq<Token>): seq<Token> {
    if toks == [] then []
    else CodeOf(toks[..|toks| - 1]) + if IsCode(Last(toks)) then [Last(toks)] else []
  }

  lemma {:induction false} CodeAppends(a: seq<Token>, b: seq<Token>)
    ensures CodeOf(a + b) == CodeOf(a) + CodeOf(b)
  {
    if b == [] {
      assert a + b == a;
    } else {
      CodeAppends(a, b[..|b| - 1]);
      assert (a + b)[..|a + b| - 1] == a + b[..|b| - 1];
    }
  }

  lemma {:induction false} NoCode(toks: seq<Token>)
    ensures CodeOf(toks) == [] <==> forall i :: 0 <= i < |toks| ==> !IsCode(toks[i])
  {
    if toks != [] {
      NoCode(toks[..|toks| - 1]);
      assert toks == toks[..|toks| - 1] + [Last(toks)];
      if CodeOf(toks) == [] {
        assert !IsCode(Last(toks)) && CodeOf(toks[..|toks| - 1]) == [];
      }
    }
  }

  // ----- one statement -------------------------------------------------------

  datatype Statement = Statement(text: string, offset: nat, tokens: seq<Token>)

  /** The first token that is not blank, or the end. */
  function FirstNonBlank(toks: seq<Token>): (i: nat)
    ensures i <= |toks|
    ensures forall k :: 0 <= k < i ==> Strip(toks[k].value) == ""
    ensures i < |toks| ==> Strip(toks[i].value) != ""
  {
    if toks == [] || Strip(toks[0].value) != "" then 0 else 1 + FirstNonBlank(toks[1..])
  }

  /** Just after the last code token, or 0. */
  function CodeEnd(toks: seq<Token>): (i: nat)
    ensures i <= |toks|
    ensures forall k :: i <= k < |toks| ==> !IsCode(toks[k])
    ensures i > 0 ==> IsCode(toks[i - 1])
  {
    if toks == [] then 0
    else if IsCode(Last(toks)) then |toks| else CodeEnd(toks[..|toks| - 1])
  }

  /** Trims leading blank tokens and everything after the last code token. */
  function MakeStatement(flat: seq<Token>, start: nat): Option<Statement> {
    var end := CodeEnd(flat);
    var first := FirstNonBlank(flat);
    if end == 0 then None
    else
      var kept := flat[first..end];
      Some(Statement(Text(kept), start + |Text(flat[..first])|, kept))
  }

  lemma TrimKeepsCode(flat: seq<Token>, first: nat, end: nat)
    requires first <= end <= |flat|
    requires forall k :: 0 <= k < first ==> !IsCode(flat[k])
    requires forall k :: end <= k < |flat| ==> !IsCode(flat[k])
    ensures CodeOf(flat[first..end]) == CodeOf(flat)
  {
    hide IsCode, CodeOf;
    var head, kept, tail := flat[..first], flat[first..end], flat[end..];
    NoCode(head);
    NoCode(tail);
    assert flat == head + (kept + tail);
    CodeAppends(head, kept + tail);
    CodeAppends(kept, tail);
  }

  lemma TextOfSlice(flat: seq<Token>, first: nat, end: nat)
    requires first <= end <= |flat|
    ensures |Text(flat[..first])| + |Text(flat[first..end])| <= |Text(flat)|
    ensures Text(flat)[|Text(flat[..first])|..|Text(flat[..first])| + |Text(flat[first..end])|]
            == Text(flat[first..end])
  {
    hide *;
    var head, kept, tail := flat[..first], flat[first..end], flat[end..];
    assert flat == head + (kept + tail);
    TextAppends(head, kept + tail);
    TextAppends(kept, tail);
  }

  lemma MadeFrom(flat: seq<Token>, start: nat)
    ensures CodeEnd(flat) == 0 <==> CodeOf(flat) == []
    ensures
      var first, end := FirstNonBlank(flat), CodeEnd(flat);
      if end == 0 then MakeStatement(flat, start).None?
      else
        && first < end && IsCode(flat[end - 1])
        && MakeStatement(flat, start)
           == Some(Statement(Text(flat[first..end]), start + |Text(flat[..first])|, flat[first..end]))
  {
    hide CodeOf, Strip, Text;
    NoCode(flat);
  }

  /** A statement is the slice of its piece of the cell at its offset, holds all
      of its code tokens, and exists when there are any. */
  lemma {:induction false} MakeStatementKeepsCode(flat: seq<Token>, start: nat)
    ensures MakeStatement(flat, start).None? <==> CodeOf(flat) == []
    ensures MakeStatement(flat, start).Some? ==> IsTrimmed(flat, start, MakeStatement(flat, start).value)
  {
    MadeFrom(flat, start);
    hide CodeOf, Strip, Text, IsCode, FirstNonBlank, CodeEnd;
    var first, end := FirstNonBlank(flat), CodeEnd(flat);
    if end > 0 {
      BlankIsNotCode(flat, first);
      TrimKeepsCode(flat, first, end);
      TextOfSlice(flat, first, end);
      BlankText(flat, first);
      TextAppends(flat[..first], flat[first..]);
      assert flat == flat[..first] + flat[first..];
    }
  }

  lemma BlankIsNotCode(flat: seq<Token>, first: nat)
    requires first <= |flat| && forall k :: 0 <= k < first ==> Strip(flat[k].value) == ""
    ensures forall k :: 0 <= k < first ==> !IsCode(flat[k])
  {
    hide Strip;
  }

  /** Only whitespace is cut off in front: a comment there stays. */
  lemma {:induction false} BlankText(flat: seq<Token>, first: nat)
    requires first <= |flat| && forall k :: 0 <= k < first ==> Strip(flat[k].value) == ""
    ensures forall c :: c in Text(flat[..first]) ==> IsSpace(c)
  {
    hide Strip, IsSpace;
    if first > 0 {
      BlankText(flat, first - 1);
      TextAppends(flat[..first - 1], [flat[first - 1]]);
      assert flat[..first] == flat[..first - 1] + [flat[first - 1]];
      assert Text([flat[first - 1]]) == flat[first - 1].value + Text([]);
      var i, j := StripTakesSpaces(flat[first - 1].value);
      assert i == j;
    }
  }

  ghost predicate IsTrimmed(flat: seq<Token>, start: nat, s: Statement) {
    && (forall k :: 0 <= k < s.offset - start <= |Text(flat)| ==> IsSpace(Text(flat)[k]))
    && CodeOf(s.tokens) == CodeOf(flat) && s.text == Text(s.tokens)
    && s.tokens != [] && Strip(s.tokens[0].value) != "" && IsCode(Last(s.tokens))
    && start <= s.offset && s.offset - start + |s.text| <= |Text(flat)|
    && Text(flat)[s.offset - start..s.offset - start + |s.text|] == s.text
  }

  // ----- the whole cell ------------------------------------------------------

  function Flatten(parsed: seq<seq<Token>>): seq<Token> {
    if parsed == [] then [] else Flatten(parsed[..|parsed| - 1]) + Last(parsed)
  }

  function TokensOf(statements: seq<Statement>): seq<Token> {
    if statements == [] then [] else TokensOf(statements[..|statements| - 1]) + Last(statements).tokens
  }

  /** The code of each statement, and of each of the lexer's pieces that has any. */
  function StatementCodes(statements: seq<Statement>): seq<seq<Token>> {
    if statements == [] then []
    else StatementCodes(statements[..|statements| - 1]) + [CodeOf(Last(statements).tokens)]
  }

  function PieceCodes(parsed: seq<seq<Token>>): seq<seq<Token>> {
    if parsed == [] then []
    else PieceCodes(parsed[..|parsed| - 1]) + if CodeOf(Last(parsed)) == [] then [] else [CodeOf(Last(parsed))]
  }

  /** str.upper() gives "BEGIN" (the dotless i also becomes I). */
  predicate IsBegin(s: string) {
    |s| == 5 && s[0] in "Bb" && s[1] in "Ee" && s[2] in "Gg" && s[3] in {'I', 'i', '\U{131}'} && s[4] in "Nn"
  }

  function Upper(c: char): char {
    if 'a' <= c <= 'z' then c - 'a' + 'A' else c
  }

  /** BEGIN in ASCII letters of either case. */
  predicate IsAsciiBegin(s: string) {
    |s| == 5 && forall i :: 0 <= i < 5 ==> Upper(s[i]) == "BEGIN"[i]
  }

  /** Only a dotless i in the place of the I makes a difference. */
  lemma BeginOrDotless(s: string)
    ensures IsBegin(s) <==> IsAsciiBegin(s) || (|s| == 5 && s[3] == '\U{131}' && IsAsciiBegin(s[3 := 'i']))
    ensures IsAsciiBegin(s) ==> s[3] != '\U{131}'
  {
    if |s| == 5 {
      var t := s[3 := 'i'];
      assert t[0] == s[0] && t[1] == s[1] && t[2] == s[2] && t[4] == s[4];
      forall r | r == s || r == t
        ensures IsAsciiBegin(r) <==> r[0] in "Bb" && r[1] in "Ee" && r[2] in "Gg" && r[3] in "Ii" && r[4] in "Nn"
      {
        AsciiBegin(r);
      }
    }
  }

  lemma AsciiBegin(r: string)
    requires |r| == 5
    ensures IsAsciiBegin(r) <==> r[0] in "Bb" && r[1] in "Ee" && r[2] in "Gg" && r[3] in "Ii" && r[4] in "Nn"
  {
    assert IsAsciiBegin(r) <==>
             Upper(r[0]) == 'B' && Upper(r[1]) == 'E' && Upper(r[2]) == 'G' && Upper(r[3]) == 'I' && Upper(r[4]) == 'N';
  }

  predicate IsScript(parsed: seq<seq<Token>>) {
    CodeOf(Flatten(parsed)) != [] && IsBegin(CodeOf(Flatten(parsed))[0].value)
  }

  /** Statements cut out of `cell` before `end`, in order and disjoint. */
  ghost predicate CutFrom(cell: string, statements: seq<Statement>, end: nat) {
    && (forall k :: 0 <= k < |statements| ==>
          SliceAt(cell, statements[k]) && statements[k].offset + |statements[k].text| <= end)
    && (forall k, l :: 0 <= k < l < |statements| ==>
          statements[k].offset + |statements[k].text| <= statements[l].offset)
  }

  ghost predicate SliceAt(cell: string, s: Statement) {
    && s.offset + |s.text| <= |cell| && cell[s.offset..s.offset + |s.text|] == s.text
    && s.text == Text(s.tokens) && CodeOf(s.tokens) != []
  }

  /** The next statement of a piece, if it has any code. */
  function Made(piece: seq<Token>, start: nat): seq<Statement> {
    match MakeStatement(piece, start)
    case None => []
    case Some(s) => [s]
  }

  lemma FlattenNext(parsed: seq<seq<Token>>, i: nat)
    requires i < |parsed|
    ensures Flatten(parsed[..i + 1]) == Flatten(parsed[..i]) + parsed[i]
    ensures Text(Flatten(parsed[..i + 1])) == Text(Flatten(parsed[..i])) + Text(parsed[i])
    ensures CodeOf(Flatten(parsed[..i + 1])) == CodeOf(Flatten(parsed[..i])) + CodeOf(parsed[i])
  {
    assert parsed[..i + 1][..i] == parsed[..i];
    hide CodeOf, Text;
    TextAppends(Flatten(parsed[..i]), parsed[i]);
    CodeAppends(Flatten(parsed[..i]), parsed[i]);
  }

  lemma {:induction false} FlattenPrefix(parsed: seq<seq<Token>>, i: nat)
    requires i <= |parsed|
    ensures Text(Flatten(parsed[..i])) <= Text(Flatten(parsed))
    decreases |parsed| - i
  {
    if i < |parsed| {
      FlattenNext(parsed, i);
      FlattenPrefix(parsed, i + 1);
    } else {
      assert parsed[..i] == parsed;
    }
  }

  lemma PieceCodesNext(parsed: seq<seq<Token>>, i: nat)
    requires i < |parsed|
    ensures PieceCodes(parsed[..i + 1])
            == PieceCodes(parsed[..i]) + if CodeOf(parsed[i]) == [] then [] else [CodeOf(parsed[i])]
  {
    hide CodeOf;
    assert parsed[..i + 1][..i] == parsed[..i];
  }

  lemma StatementCodesNext(statements: seq<Statement>, s: Statement)
    ensures StatementCodes(statements + [s]) == StatementCodes(statements) + [CodeOf(s.tokens)]
  {
    hide CodeOf;
    assert (statements + [s])[..|statements|] == statements;
  }

  lemma CodesNext(statements: seq<Statement>, parsed: seq<seq<Token>>, i: nat, more: seq<Statement>)
    requires i < |parsed| && |more| <= 1 && StatementCodes(statements) == PieceCodes(parsed[..i])
    requires more == [] <==> CodeOf(parsed[i]) == []
    requires more != [] ==> CodeOf(more[0].tokens) == CodeOf(parsed[i])
    ensures StatementCodes(statements + more) == PieceCodes(parsed[..i + 1])
  {
    hide *;
    PieceCodesNext(parsed, i);
    if more == [] {
      assert statements + more == statements;
    } else {
      assert more == [more[0]];
      StatementCodesNext(statements, more[0]);
    }
  }

  lemma TokensNext(statements: seq<Statement>, more: seq<Statement>)
    requires |more| <= 1
    ensures CodeOf(TokensOf(statements + more)) ==
            CodeOf(TokensOf(statements)) + if more == [] then [] else CodeOf(more[0].tokens)
  {
    if more == [] {
      assert statements + more == statements;
    } else {
      assert (statements + more)[..|statements|] == statements;
      CodeAppends(TokensOf(statements), more[0].tokens);
    }
  }

  lemma PieceOfCell(cell: string, parsed: seq<seq<Token>>, i: nat, start: nat)
    requires cell == Text(Flatten(parsed)) && i < |parsed| && start == |Text(Flatten(parsed[..i]))|
    ensures start + |Text(parsed[i])| <= |cell| && cell[start..start + |Text(parsed[i])|] == Text(parsed[i])
  {
    hide *;
    FlattenNext(parsed, i);
    FlattenPrefix(parsed, i + 1);
  }

  lemma TrimmedIsSlice(cell: string, flat: seq<Token>, start: nat, s: Statement)
    requires start + |Text(flat)| <= |cell| && cell[start..start + |Text(flat)|] == Text(flat)
    requires CodeOf(flat) != [] && IsTrimmed(flat, start, s)
    ensures SliceAt(cell, s) && start <= s.offset && s.offset + |s.text| <= start + |Text(flat)|
  {
    hide Text, CodeOf, Strip, IsCode;
    SliceSlice(cell, start, start + |Text(flat)|, s.offset - start, s.offset - start + |s.text|);
  }

  /** The statement of the next piece lies within that piece of the cell. */
  lemma MadeIsSlice(cell: string, parsed: seq<seq<Token>>, i: nat, start: nat)
    requires cell == Text(Flatten(parsed)) && i < |parsed| && start == |Text(Flatten(parsed[..i]))|
    ensures Made(parsed[i], start) == [] <==> CodeOf(parsed[i]) == []
    ensures CodeOf(parsed[i]) == if Made(parsed[i], start) == [] then [] else CodeOf(Made(parsed[i], start)[0].tokens)
    ensures forall s :: s in Made(parsed[i], start) ==>
              SliceAt(cell, s) && start <= s.offset && s.offset + |s.text| <= start + |Text(parsed[i])|
  {
    hide CodeOf, Text, Flatten, MakeStatement, IsCode, Strip, SliceAt;
    MakeStatementKeepsCode(parsed[i], start);
    PieceOfCell(cell, parsed, i, start);
    if Made(parsed[i], start) != [] {
      TrimmedIsSlice(cell, parsed[i], start, Made(parsed[i], start)[0]);
    }
  }

  lemma CutNext(cell: string, statements: seq<Statement>, more: seq<Statement>, start: nat, end: nat)
    requires CutFrom(cell, statements, start) && |more| <= 1 && start <= end
    requires forall s :: s in more ==> SliceAt(cell, s) && start <= s.offset && s.offset + |s.text| <= end
    ensures CutFrom(cell, statements + more, end)
  {
    hide SliceAt;
  }

  lemma {:induction false} CodeOfCut(cell: string, statements: seq<Statement>, end: nat)
    requires CutFrom(cell, statements, end)
    ensures statements == [] <==> CodeOf(TokensOf(statements)) == []
  {
    if statements != [] {
      assert SliceAt(cell, Last(statements));
      CodeAppends(TokensOf(statements[..|statements| - 1]), Last(statements).tokens);
    }
  }

  /** Splits a cell, given the lexer's statements. Every code token of the cell is
      in exactly one statement, in order; there is one statement per lexer piece
      with code, except that a cell starting with BEGIN is one statement. */
  method SplitStatements(cell: string, parsed: seq<seq<Token>>) returns (statements: seq<Statement>)
    requires cell == Text(Flatten(parsed))
    ensures CutFrom(cell, statements, |cell|)
    ensures CodeOf(TokensOf(statements)) == CodeOf(Flatten(parsed))
    ensures IsScript(parsed) ==> |statements| == 1
    ensures !IsScript(parsed) ==> StatementCodes(statements) == PieceCodes(parsed)
    ensures statements == [] <==> CodeOf(Flatten(parsed)) == []
    ensures statements == [] <==> forall tok :: tok in Flatten(parsed) ==> Negligible(tok)
  {
    NoCodeIs(Flatten(parsed));
    hide Negligible;
    var all := Flatten(parsed);
    var code := CodeOf(all);
    if code == [] {
      NoPieces(parsed);
      return [];
    }
    if IsBegin(code[0].value) {
      statements := WholeCell(cell, all);
      return;
    }
    statements := SplitPieces(cell, parsed);
    CodeOfCut(cell, statements, |cell|);
  }

  lemma NoCodeIs(toks: seq<Token>)
    ensures CodeOf(toks) == [] <==> forall tok :: tok in toks ==> Negligible(tok)
  {
    hide Negligible, IsCode, CodeOf;
    NoCode(toks);
    forall tok | tok in toks
      ensures IsCode(tok) <==> !Negligible(tok)
    {
      CodeIs(tok);
    }
  }

  lemma {:induction false} NoPieces(parsed: seq<seq<Token>>)
    requires CodeOf(Flatten(parsed)) == []
    ensures PieceCodes(parsed) == []
  {
    if parsed != [] {
      CodeAppends(Flatten(parsed[..|parsed| - 1]), Last(parsed));
      NoPieces(parsed[..|parsed| - 1]);
    }
  }

  method WholeCell(cell: string, all: seq<Token>) returns (statements: seq<Statement>)
    requires cell == Text(all) && CodeOf(all) != []
    ensures CutFrom(cell, statements, |cell|) && |statements| == 1
    ensures CodeOf(TokensOf(statements)) == CodeOf(all)
  {
    hide *;
    var script := MakeStatement(all, 0);
    MakeStatementKeepsCode(all, 0);
    assert cell[0..0 + |Text(all)|] == cell;
    TrimmedIsSlice(cell, all, 0, script.value);
    OneStatement(cell, script.value);
    statements := [script.value];
    TrimmedCode(all, 0, script.value);
  }

  lemma OneStatement(cell: string, s: Statement)
    requires SliceAt(cell, s)
    ensures CutFrom(cell, [s], |cell|) && CodeOf(TokensOf([s])) == CodeOf(s.tokens)
  {
    hide Text, CodeOf;
    assert [s][..0] == [] && [] + s.tokens == s.tokens;
  }

  lemma TrimmedCode(flat: seq<Token>, start: nat, s: Statement)
    requires IsTrimmed(flat, start, s)
    ensures CodeOf(s.tokens) == CodeOf(flat)
  {
  }

  lemma NothingYet(cell: string, parsed: seq<seq<Token>>)
    ensures |Text(Flatten(parsed[..0]))| == 0 && CodeOf(TokensOf([])) == CodeOf(Flatten(parsed[..0]))
    ensures CutFrom(cell, [], 0) && StatementCodes([]) == PieceCodes(parsed[..0])
  {
  }

  method SplitPieces(cell: string, parsed: seq<seq<Token>>) returns (statements: seq<Statement>)
    requires cell == Text(Flatten(parsed))
    ensures CutFrom(cell, statements, |cell|)
    ensures CodeOf(TokensOf(statements)) == CodeOf(Flatten(parsed))
    ensures StatementCodes(statements) == PieceCodes(parsed)
  {
    hide *;
    NothingYet(cell, parsed);
    statements := [];
    var offset := 0;
    var i := 0;
    while i < |parsed|
      invariant 0 <= i <= |parsed|
      invariant offset == |Text(Flatten(parsed[..i]))| && CutFrom(cell, statements, offset)
      invariant CodeOf(TokensOf(statements)) == CodeOf(Flatten(parsed[..i]))
      invariant StatementCodes(statements) == PieceCodes(parsed[..i])
    {
      var more, end := Made(parsed[i], offset), offset + |Text(parsed[i])|;
      FlattenNext(parsed, i);
      MadeIsSlice(cell, parsed, i, offset);
      MadeAtMostOne(parsed[i], offset);
      TokensNext(statements, more);
      CodesNext(statements, parsed, i, more);
      CutNext(cell, statements, more, offset, end);
      statements := statements + more;
      offset := end;
      i := i + 1;
    }
    assert parsed[..i] == parsed;
  }

  lemma MadeAtMostOne(piece: seq<Token>, start: nat)
    ensures |Made(piece, start)| <= 1
  {
  }

  const DOTLESS := [[Token(Other, "beg\U{131}n"), Token(Other, ";")], [Token(Other, "x")]]

  /** Two statements of which the first is the word with a dotless i: the cell is
      returned as one, although it does not start with BEGIN. */
  method DotlessIsAScript() returns (statements: seq<Statement>)
    ensures |statements| == 1 && |PieceCodes(DOTLESS)| == 2
    ensures !IsAsciiBegin(DOTLESS[0][0].value)
  {
    DotlessCode();
    statements := SplitStatements(Text(Flatten(DOTLESS)), DOTLESS);
  }

  lemma DotlessTokens()
    ensures IsCode(DOTLESS[0][0]) && !IsCode(DOTLESS[0][1]) && IsCode(DOTLESS[1][0])
    ensures IsBegin(DOTLESS[0][0].value) && !IsAsciiBegin(DOTLESS[0][0].value)
  {
    BeginOrDotless(DOTLESS[0][0].value);
  }

  lemma DotlessPieces()
    ensures CodeOf(DOTLESS[0]) == [DOTLESS[0][0]] && CodeOf(DOTLESS[1]) == [DOTLESS[1][0]]
  {
    hide IsCode, CodeOf;
    DotlessTokens();
    CodeAppends([DOTLESS[0][0]], [DOTLESS[0][1]]);
    OneToken(DOTLESS[0][0]);
    OneToken(DOTLESS[0][1]);
    OneToken(DOTLESS[1][0]);
    assert DOTLESS[0] == [DOTLESS[0][0]] + [DOTLESS[0][1]] && DOTLESS[1] == [DOTLESS[1][0]];
  }

  lemma DotlessCode()
    ensures IsScript(DOTLESS) && |PieceCodes(DOTLESS)| == 2
    ensures !IsAsciiBegin(DOTLESS[0][0].value)
  {
    hide IsCode, CodeOf, IsBegin, IsAsciiBegin;
    DotlessTokens();
    DotlessPieces();
    PieceCodesNext(DOTLESS, 0);
    PieceCodesNext(DOTLESS, 1);
    FlattenNext(DOTLESS, 0);
    FlattenNext(DOTLESS, 1);
    assert DOTLESS[..2] == DOTLESS && DOTLESS[..0] == [];
    assert CodeOf(Flatten([])) == [] by { NoCodeInNothing(); }
  }

  lemma NoCodeInNothing()
    ensures CodeOf(Flatten([])) == []
  {
  }

  lemma OneToken(tok: Token)
    ensures CodeOf([tok]) == if IsCode(tok) then [tok] else []
  {
    assert [tok][..0] == [];
  }
}
