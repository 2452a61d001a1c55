/** The lexer's tokens: their values concatenate to the text they come from. */
module SqlTokens {

  datatype TokenType = Placeholder | Comment | Whitespace | Other

  datatype Token = Token(ttype: TokenType, value: string)

  function Text(toks: seq<Token>): string {
    if toks == [] then [] else toks[0].value + Text(toks[1..])
  }

  lemma {:induction false} TextSplits(toks: seq<Token>, i: nat, j: nat)
    requires i <= j <= |toks|
    ensures Text(toks[i..]) == Text(toks[i..j]) + Text(toks[j..])
    decreases j - i
  {
    if i < j {
      TextSplits(toks, i + 1, j);
      assert toks[i..][1..] == toks[i + 1..] && toks[i..j][1..] == toks[i + 1..j];
    } else {
      assert toks[i..j] == [];
    }
  }

  lemma TextHead(toks: seq<Token>, i: nat)
    requires i < |toks|
    ensures Text(toks[i..]) == toks[i].value + Text(toks[i + 1..])
  {
    assert toks[i..][1..] == toks[i + 1..];
  }

  lemma {:induction false} TextAppends(a: seq<Token>, b: seq<Token>)
    ensures Text(a + b) == Text(a) + Text(b)
  {
    TextSplits(a + b, 0, |a|);
    assert (a + b)[0..] == a + b && (a + b)[0..|a|] == a && (a + b)[|a|..] == b;
  }
}
