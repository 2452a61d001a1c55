/** From the position in an error to a line of the cell with a caret under it. */
module ErrorPositions {
  import opened Prelude

  // ----- lines ---------------------------------------------------------------

  function Newlines(s: string): nat {
    if s == [] then 0 else Newlines(s[..|s| - 1]) + if Last(s) == '\n' then 1 else 0
  }

  /** The first newline at or after `from`, or the end. */
  function NextNewline(s: string, from: nat): (i: nat)
    requires from <= |s|
    ensures from <= i <= |s|
    ensures forall k :: from <= k < i ==> s[k] != '\n'
    ensures i < |s| ==> s[i] == '\n'
    decreases |s| - from
  {
    if from == |s| || s[from] == '\n' then from else NextNewline(s, from + 1)
  }

  /** Where the line that `p` is in starts. */
  function LineStart(s: string, p: nat): (i: nat)
    requires p <= |s|
    ensures i <= p
    ensures forall k :: i <= k < p ==> s[k] != '\n'
    ensures i > 0 ==> s[i - 1] == '\n'
  {
    if p == 0 || s[p - 1] == '\n' then p else LineStart(s, p - 1)
  }

  function Column(s: string, p: nat): nat
    requires p <= |s|
  {
    p - LineStart(s, p)
  }

  lemma {:induction false} NewlinesAppend(a: string, b: string)
    ensures Newlines(a + b) == Newlines(a) + Newlines(b)
  {
    if b == [] {
      assert a + b == a;
    } else {
      NewlinesAppend(a, b[..|b| - 1]);
      assert (a + b)[..|a + b| - 1] == a + b[..|b| - 1];
    }
  }

  lemma NewlinesSplit(s: string, i: nat, j: nat)
    requires i <= j <= |s|
    ensures Newlines(s[..j]) == Newlines(s[..i]) + Newlines(s[i..j])
    ensures Newlines(s[i..j]) == 0 <==> forall k :: i <= k < j ==> s[k] != '\n'
  {
    hide Newlines;
    assert s[..i] + s[i..j] == s[..j];
    NewlinesAppend(s[..i], s[i..j]);
    NoNewlines(s[i..j]);
    assert forall k :: i <= k < j ==> s[k] == s[i..j][k - i];
  }

  lemma {:induction false} NoNewlines(s: string)
    ensures Newlines(s) == 0 <==> forall k :: 0 <= k < |s| ==> s[k] != '\n'
  {
    if s != [] {
      NoNewlines(s[..|s| - 1]);
    }
  }

  /** The start of a line is where the last newline before it ends: there is only
      one such place. */
  lemma LineStartIsUnique(s: string, p: nat, i: nat)
    requires i <= p <= |s|
    requires forall k :: i <= k < p ==> s[k] != '\n'
    requires i > 0 ==> s[i - 1] == '\n'
    ensures LineStart(s, p) == i
  {
  }

  // ----- parse errors --------------------------------------------------------

  datatype Span = Span(start: nat, stop: nat)

  /** The offset of the n-th line (from 0), if there is one. */
  function LineOffset(s: string, n: nat): (o: Option<nat>)
    ensures o.Some? ==> o.value <= |s|
  {
    if n == 0 then Some(0)
    else match LineOffset(s, n - 1)
         case None => None
         case Some(o) =>
           var i := NextNewline(s, o);
           if i == |s| then None else Some(i + 1)
  }

  lemma AfterLine(s: string, o: nat)
    requires o <= |s|
    ensures
      var i := NextNewline(s, o);
      if i == |s| then Newlines(s) == Newlines(s[..o]) else Newlines(s[..i + 1]) == Newlines(s[..o]) + 1
  {
    var i := NextNewline(s, o);
    NewlinesSplit(s, o, i);
    if i < |s| {
      assert s[..i + 1][..i] == s[..i];
    } else {
      assert s[..i] == s;
    }
  }

  /** A line's offset has exactly that many newlines before it, the last of them
      just before it; without one there are not enough newlines. */
  lemma {:induction false} LineOffsetCounts(s: string, n: nat)
    ensures
      match LineOffset(s, n)
      case Some(o) => Newlines(s[..o]) == n && (o > 0 ==> s[o - 1] == '\n')
      case None => Newlines(s) < n
  {
    if n > 0 {
      LineOffsetCounts(s, n - 1);
      match LineOffset(s, n - 1) {
        case None =>
        case Some(o) => AfterLine(s, o);
      }
    }
  }

  /** Length of the token at the start of `s`: a word, or one character. */
  function TokenLength(s: string, isWord: char -> bool): (n: nat)
    ensures n > 0
    ensures s != [] && isWord(s[0]) ==>
              n <= |s| && (forall k :: 0 <= k < n ==> isWord(s[k])) && (n < |s| ==> !isWord(s[n]))
    ensures s == [] || !isWord(s[0]) ==> n == 1
  {
    if s == [] || !isWord(s[0]) then 1
    else if |s| == 1 || !isWord(s[1]) then 1
    else 1 + TokenLength(s[1..], isWord)
  }

  /** "(line L, pos P)" in the text of an error; lines count from 1. */
  datatype Position = Position(line: nat, pos: nat)

  /** The span of the token at a position. */
  function TokenAt(sql: string, p: Position, isWord: char -> bool): Option<Span> {
    match LineOffset(sql, Max(p.line, 1) - 1)
    case None => None
    case Some(o) =>
      if o + p.pos >= |sql| then None
      else Some(Span(o + p.pos, o + p.pos + TokenLength(sql[o + p.pos..], isWord) - 1))
  }

  method ParsePosition(sql: string, p: Position, isWord: char -> bool) returns (span: Option<Span>)
    ensures span == TokenAt(sql, p, isWord)
  {
    hide TokenLength, NextNewline;
    var line := p.line;
    var start := 0;
    var i := 0;
    while i < line - 1
      invariant 0 <= i <= Max(line, 1) - 1
      invariant start <= |sql| && LineOffset(sql, i) == Some(start)
      decreases line - 1 - i
    {
      var newline := NextNewline(sql, start);
      if newline == |sql| {
        NoMoreLines(sql, i + 1, Max(line, 1) - 1);
        return None;
      }
      start := newline + 1;
      i := i + 1;
    }
    start := start + p.pos;
    if start >= |sql| {
      return None;
    }
    span := Some(Span(start, start + TokenLength(sql[start..], isWord) - 1));
  }

  lemma {:induction false} NoMoreLines(s: string, n: nat, m: nat)
    requires n <= m && LineOffset(s, n).None?
    ensures LineOffset(s, m).None?
  {
    if n < m {
      NoMoreLines(s, n, m - 1);
    }
  }

  /** The token found starts at the position asked for, L - 1 newlines before it and at
      column P, exactly when P is inside the line (its newline included). */
  lemma {:induction false} ParsePositionIsExact(sql: string, line: nat, pos: nat, isWord: char -> bool, o: nat)
    requires LineOffset(sql, Max(line, 1) - 1) == Some(o)
    ensures TokenAt(sql, Position(line, pos), isWord).Some? <==> o + pos < |sql|
    ensures
      match TokenAt(sql, Position(line, pos), isWord)
      case None => true
      case Some(span) =>
        && span.start <= span.stop && span.start < |sql|
        && (&& Newlines(sql[..span.start]) == Max(line, 1) - 1 && Column(sql, span.start) == pos
            <==> o + pos <= NextNewline(sql, o))
  {
    hide Newlines, LineOffset;
    if o + pos < |sql| {
      PositionIsExact(sql, line, pos, o);
    }
  }

  lemma PositionIsExact(sql: string, line: nat, pos: nat, o: nat)
    requires LineOffset(sql, Max(line, 1) - 1) == Some(o) && o + pos < |sql|
    ensures Newlines(sql[..o + pos]) == Max(line, 1) - 1 && Column(sql, o + pos) == pos
            <==> o + pos <= NextNewline(sql, o)
  {
    hide Newlines, LineOffset;
    LineOffsetCounts(sql, Max(line, 1) - 1);
    NewlinesSplit(sql, o, o + pos);
    if o + pos <= NextNewline(sql, o) {
      LineStartIsUnique(sql, o + pos, o);
    }
  }

  /** Past its line: "(line 1, pos 2)" of a text whose first line is one character
      long is found on the second line. */
  lemma PastItsLine()
    ensures
      var sql := "a\nbc";
      && TokenAt(sql, Position(1, 2), c => c != '\n') == Some(Span(2, 3))
      && Newlines(sql[..2]) == 1 && Column(sql, 2) == 0
  {
    var sql := "a\nbc";
    NoNewlines(['a']);
    assert sql[..2] == ['a', '\n'] && ['a', '\n'][..1] == ['a'];
    assert Newlines(['a', '\n']) == 1;
    assert sql[2..] == ['b', 'c'] && sql[2..][1..] == ['c'];
    var isWord := (c: char) => c != '\n';
    assert TokenLength(['c'], isWord) == 1;
    assert TokenLength(sql[2..], isWord) == 2;
  }

  // ----- query contexts ------------------------------------------------------

  /** One query context of an error: whether it is SQL text, its offsets, and the
      fragment Spark quotes, if any. */
  datatype Context = Context(isSql: bool, start: Option<int>, stop: Option<int>, fragment: string)

  /** `sql[from : to]` in Python, for `0 <= from`. */
  function PySlice(sql: string, from: nat, to: nat): string {
    if from >= |sql| || to <= from then [] else sql[from..Min(to, |sql|)]
  }

  predicate Blames(ctx: Context, sql: string) {
    && ctx.isSql && ctx.start.Some? && ctx.stop.Some? && 0 <= ctx.start.value <= ctx.stop.value
    && (ctx.fragment != [] ==> PySlice(sql, ctx.start.value, ctx.stop.value + 1) == ctx.fragment)
  }

  /** A context counts exactly when it is SQL, its offsets are in order and not
      negative, and what it quotes, if anything, is the text from the one to the other,
      as far as there is text. */
  lemma BlamesIs(ctx: Context, sql: string)
    ensures Blames(ctx, sql) <==> exists a: nat, b: nat :: BlamesFromTo(ctx, sql, a, b)
  {
    if Blames(ctx, sql) {
      assert BlamesFromTo(ctx, sql, ctx.start.value, ctx.stop.value);
    }
  }

  ghost predicate BlamesFromTo(ctx: Context, sql: string, a: nat, b: nat) {
    && a <= b && ctx == Context(true, Some(a), Some(b), ctx.fragment)
    && (ctx.fragment != "" ==>
          && a + |ctx.fragment| == Min(b + 1, |sql|)
          && forall k :: 0 <= k < |ctx.fragment| ==> ctx.fragment[k] == sql[a + k])
  }

  /** The i-th context is the first that blames `sql`, and `span` is what it blames. */
  ghost predicate FirstToBlame(contexts: seq<Context>, i: nat, sql: string, span: Span) {
    && i < |contexts| && Blames(contexts[i], sql)
    && (forall k :: 0 <= k < i ==> !Blames(contexts[k], sql))
    && span.start == contexts[i].start.value && span.stop == contexts[i].stop.value
  }

  method SqlContext(contexts: seq<Context>, sql: string) returns (span: Option<Span>)
    ensures span.None? <==> forall i :: 0 <= i < |contexts| ==> !Blames(contexts[i], sql)
    ensures span.Some? ==> exists i :: FirstToBlame(contexts, i, sql, span.value)
  {
    for i := 0 to |contexts|
      invariant forall k :: 0 <= k < i ==> !Blames(contexts[k], sql)
    {
      if Blames(contexts[i], sql) {
        span := Some(Span(contexts[i].start.value, contexts[i].stop.value));
        assert FirstToBlame(contexts, i, sql, span.value);
        return;
      }
    }
    span := None;
  }

  // ----- the excerpt ---------------------------------------------------------

  /** What is printed: the line number, the line, and where the caret run goes. */
  datatype Excerpt = Excerpt(line: nat, source: string, caret: nat, width: nat)

  /** `text` is the statement at `offset` in the cell. */
  function Locate(cell: string, offset: nat, text: string, span: Span): Excerpt
    requires offset + |text| <= |cell| && span.start < |text|
  {
    var start := offset + span.start;
    var stop := offset + Min(span.stop, |text| - 1);
    var lineEnd := NextNewline(cell, start);
    Excerpt(Newlines(cell[..start]) + 1, cell[LineStart(cell, start)..lineEnd], Column(cell, start),
            Max(1, Min(stop, lineEnd - 1) - start + 1))
  }

  /** The excerpt printed for an error: at what its query contexts blame, else at
      the position in its text, if the offsets are those of the cell. */
  method ErrorExcerpt(cell: string, offset: nat, text: string, offsetsMatch: bool, contexts: seq<Context>,
                      position: Option<Position>, isWord: char -> bool) returns (e: Option<Excerpt>)
    requires offset + |text| <= |cell|
    ensures !offsetsMatch ==> e.None?
    ensures offsetsMatch ==> forall i, s :: FirstToBlame(contexts, i, text, s) ==>
              e == if s.start < |text| then Some(Locate(cell, offset, text, s)) else None
    ensures offsetsMatch && (forall i :: 0 <= i < |contexts| ==> !Blames(contexts[i], text)) ==>
              e == if position.None? then None
                   else match TokenAt(text, position.value, isWord)
                        case None => None
                        case Some(s) => Some(Locate(cell, offset, text, s))
  {
    hide Blames, Locate, LineOffset, TokenLength;
    var span: Option<Span> := None;
    if offsetsMatch {
      span := SqlContext(contexts, text);
      if span.None? && position.Some? {
        span := ParsePosition(text, position.value, isWord);
      }
    }
    e := if span.Some? && span.value.start < |text| then Some(Locate(cell, offset, text, span.value)) else None;
  }

  /** The carets are under the characters of the span, from its first one on, up to the
      end of the span, of the statement or of the line, whichever comes first; a newline
      has one caret, after the line. */
  lemma CaretIsUnderTheCharacter(cell: string, offset: nat, text: string, span: Span)
    requires offset + |text| <= |cell| && cell[offset..offset + |text|] == text && span.start < |text|
    ensures
      var e, end := Locate(cell, offset, text, span), Max(span.start, span.stop) + 1;
      if text[span.start] == '\n' then e.caret == |e.source| && e.width == 1
      else
        && 1 <= e.width <= end - span.start && span.start + e.width <= |text|
        && e.caret + e.width <= |e.source|
        && e.source[e.caret..e.caret + e.width] == text[span.start..span.start + e.width]
        && (|| span.start + e.width == end || span.start + e.width == |text|
            || text[span.start + e.width] == '\n')
  {
    hide Newlines;
    forall k | 0 <= k < |text|
      ensures cell[offset + k] == text[k]
    {
      assert cell[offset..offset + |text|][k] == cell[offset + k];
    }
  }

  /** What is printed is the whole line of the cell that the span starts in. */
  lemma PrintsTheLine(cell: string, offset: nat, text: string, span: Span)
    requires offset + |text| <= |cell| && span.start < |text|
    ensures
      var source := Locate(cell, offset, text, span).source;
      && '\n' !in source
      && exists a: nat :: a <= offset + span.start <= a + |source| && IsLine(cell, a, source)
  {
    hide Newlines;
    var a, b := LineStart(cell, offset + span.start), NextNewline(cell, offset + span.start);
    LineBetween(cell, a, offset + span.start, b);
    assert Locate(cell, offset, text, span).source == cell[a..b];
    assert IsLine(cell, a, cell[a..b]);
  }

  lemma LineBetween(cell: string, a: nat, p: nat, b: nat)
    requires a <= p <= b <= |cell| && a == LineStart(cell, p) && b == NextNewline(cell, p)
    ensures '\n' !in cell[a..b] && IsLine(cell, a, cell[a..b])
  {
    hide LineStart, NextNewline;
    forall k | a <= k < b
      ensures cell[k] != '\n'
    {
    }
  }

  ghost predicate IsLine(cell: string, a: nat, line: string) {
    && a + |line| <= |cell| && cell[a..a + |line|] == line
    && (a > 0 ==> cell[a - 1] == '\n') && (a + |line| < |cell| ==> cell[a + |line|] == '\n')
  }

  lemma LineAcrossStatement(cell: string, offset: nat, text: string, p: nat)
    requires offset + |text| <= |cell| && cell[offset..offset + |text|] == text && p <= |text|
    ensures Newlines(cell[..offset + p]) == Newlines(cell[..offset]) + Newlines(text[..p])
    ensures Column(cell, offset + p) == if LineStart(text, p) > 0 then Column(text, p) else p + Column(cell, offset)
  {
    hide Newlines, LineStart;
    NewlinesSplit(cell, offset, offset + p);
    SliceSlice(cell, offset, offset + |text|, 0, p);
    assert text[0..p] == text[..p];
    forall k | 0 <= k < |text|
      ensures cell[offset + k] == text[k]
    {
      assert cell[offset..offset + |text|][k] == cell[offset + k];
    }
    var start := if LineStart(text, p) > 0 then offset + LineStart(text, p) else LineStart(cell, offset);
    forall k | start <= k < offset + p
      ensures cell[k] != '\n'
    {
      if k >= offset {
        assert cell[offset + (k - offset)] == text[k - offset];
      }
    }
    if LineStart(text, p) > 0 {
      assert cell[offset + (LineStart(text, p) - 1)] == text[LineStart(text, p) - 1];
    }
    LineStartIsUnique(cell, offset + p, start);
  }

  /** A parse error inside line L at position P is printed on the L-th line of its
      statement, at column P from the second line on, and shifted by the
      statement's own column on the first. */
  lemma ParseErrorRoundTrip(cell: string, offset: nat, text: string, line: nat, pos: nat, o: nat,
                            isWord: char -> bool)
    requires offset + |text| <= |cell| && cell[offset..offset + |text|] == text
    requires line > 0 && LineOffset(text, line - 1) == Some(o)
    requires o + pos < |text| && o + pos <= NextNewline(text, o)
    ensures
      var span := TokenAt(text, Position(line, pos), isWord);
      && span.Some? && span.value.start < |text|
      && var e := Locate(cell, offset, text, span.value);
      && e.line == Newlines(cell[..offset]) + line
      && e.caret == if line >= 2 then pos else pos + Column(cell, offset)
  {
    hide Newlines, LineOffset, LineStart, NextNewline, Locate, TokenLength, Column;
    PositionIsPrinted(cell, offset, text, line, pos, o, TokenAt(text, Position(line, pos), isWord).value.stop);
  }

  lemma PositionIsPrinted(cell: string, offset: nat, text: string, line: nat, pos: nat, o: nat, stop: nat)
    requires offset + |text| <= |cell| && cell[offset..offset + |text|] == text
    requires line > 0 && LineOffset(text, line - 1) == Some(o)
    requires o + pos < |text| && o + pos <= NextNewline(text, o)
    ensures
      var e := Locate(cell, offset, text, Span(o + pos, stop));
      && e.line == Newlines(cell[..offset]) + line
      && e.caret == if line >= 2 then pos else pos + Column(cell, offset)
  {
    hide Newlines, LineOffset, LineStart, NextNewline;
    PositionIsExact(text, line, pos, o);
    LineAcrossStatement(cell, offset, text, o + pos);
    LineOffsetCounts(text, line - 1);
    NewlinesSplit(text, 0, o);
    LineStartIsUnique(text, o + pos, o);
    FirstLineIsZero(text);
  }

  lemma FirstLineIsZero(s: string)
    ensures LineOffset(s, 0) == Some(0) && Newlines(s[..0]) == 0
  {
  }
}
