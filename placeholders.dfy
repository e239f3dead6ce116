/**
 * Substitution tokens.
 *
 * The generated task file cross-references its own environment entries with
 * `${NAME}` tokens, which the external task runner resolves; the generator only
 * emits them. A `Template` makes the token structure of such a text explicit:
 * `Render` writes it the way the task file carries it, `Tokens` reads the
 * token names back out of any text, and `Fill` substitutes values for the
 * names, which is how the embedded `generate-all` program text is produced.
 */
module Placeholders {

  datatype Piece = Lit(text: string) | Ref(name: string)

  type Template = seq<Piece>

  /** A literal carries no `$` and a name carries no `}`, so rendering is unambiguous. */
  predicate PieceWellFormed(p: Piece) {
    match p
    case Lit(s) => '$' !in s
    case Ref(n) => '}' !in n
  }

  predicate WellFormed(t: Template) {
    forall i :: 0 <= i < |t| ==> PieceWellFormed(t[i])
  }

  /** The `${NAME}` token for `name`. */
  function Token(name: string): string {
    "${" + name + "}"
  }

  function RenderPiece(p: Piece): string {
    match p
    case Lit(s) => s
    case Ref(n) => Token(n)
  }

  /** The text of a template with every reference left as a token. */
  function Render(t: Template): string {
    if t == [] then [] else RenderPiece(t[0]) + Render(t[1..])
  }

  /** The names a template references, left to right. */
  function Refs(t: Template): seq<string> {
    if t == [] then []
    else (match t[0] case Lit(_) => [] case Ref(n) => [n]) + Refs(t[1..])
  }

  /** Every referenced name has a value in `b`. */
  predicate Bound(t: Template, b: map<string, string>) {
    forall i :: 0 <= i < |t| && t[i].Ref? ==> t[i].name in b
  }

  /** The text of a template with every reference replaced by its value. */
  function Fill(t: Template, b: map<string, string>): string
    requires Bound(t, b)
  {
    if t == [] then []
    else (match t[0] case Lit(s) => s case Ref(n) => b[n]) + Fill(t[1..], b)
  }

  /** First index at or after `i` that holds `}`, or `|s|` when there is none. */
  function CloseIndex(s: string, i: nat): (k: nat)
    requires i <= |s|
    ensures i <= k <= |s|
    ensures forall j :: i <= j < k ==> s[j] != '}'
    ensures k < |s| ==> s[k] == '}'
    decreases |s| - i
  {
    if i == |s| || s[i] == '}' then i else CloseIndex(s, i + 1)
  }

  /**
   * The names of the `${NAME}` tokens in `s`, left to right. A `${` that is
   * never closed is not a token and ends the scan.
   */
  function Tokens(s: string): seq<string>
    decreases |s|
  {
    if |s| < 2 then []
    else if s[0] == '$' && s[1] == '{' then
      var k := CloseIndex(s, 2);
      if k < |s| then [s[2..k]] + Tokens(s[k + 1..]) else []
    else Tokens(s[1..])
  }

  /** `s` occurs in `text` starting at index `i`. */
  predicate OccursAt(s: string, text: string, i: nat) {
    i + |s| <= |text| && text[i..i + |s|] == s
  }

  ghost predicate Occurs(s: string, text: string) {
    exists i: nat :: OccursAt(s, text, i)
  }

  /** Text free of `$` holds no token. */
  lemma {:induction false} TokensOfPlain(s: string)
    requires '$' !in s
    ensures Tokens(s) == []
    decreases |s|
  {
    if |s| >= 2 {
      TokensOfPlain(s[1..]);
    }
  }

  /** A `$`-free prefix contributes no token and does not disturb those after it. */
  lemma {:induction false} TokensAfterPlain(a: string, rest: string)
    requires '$' !in a
    ensures Tokens(a + rest) == Tokens(rest)
    decreases |a|
  {
    if a != [] {
      var s := a + rest;
      if |s| < 2 {
        assert Tokens(rest) == [];
      } else {
        assert s[0] == a[0] && s[0] != '$';
        assert s[1..] == a[1..] + rest;
        assert Tokens(s) == Tokens(s[1..]);
        TokensAfterPlain(a[1..], rest);
      }
    } else {
      assert a + rest == rest;
    }
  }

  lemma {:induction false} CloseIndexOfToken(n: string, rest: string)
    requires '}' !in n
    ensures CloseIndex(Token(n) + rest, 2) == 2 + |n|
  {
    var s := Token(n) + rest;
    var k := CloseIndex(s, 2);
    assert s[2 + |n|] == '}';
    assert forall j :: 2 <= j < 2 + |n| ==> s[j] == n[j - 2];
  }

  /** A token at the head of a text is read back as its name. */
  lemma TokensAfterToken(n: string, rest: string)
    requires '}' !in n
    ensures Tokens(Token(n) + rest) == [n] + Tokens(rest)
  {
    var s := Token(n) + rest;
    CloseIndexOfToken(n, rest);
    assert s[0] == '$' && s[1] == '{';
    assert s[2..2 + |n|] == n;
    assert s[2 + |n| + 1..] == rest;
  }

  /** Reading the tokens of a rendered template gives back exactly the names it references. */
  lemma {:induction false} TokensOfRender(t: Template)
    requires WellFormed(t)
    ensures Tokens(Render(t)) == Refs(t)
  {
    if t != [] {
      assert PieceWellFormed(t[0]);
      assert WellFormed(t[1..]) by {
        forall i | 0 <= i < |t[1..]| ensures PieceWellFormed(t[1..][i]) {
          assert t[1..][i] == t[i + 1];
        }
      }
      TokensOfRender(t[1..]);
      match t[0]
      case Lit(s) => TokensAfterPlain(s, Render(t[1..]));
      case Ref(n) => TokensAfterToken(n, Render(t[1..]));
    }
  }

  /** Every referenced value appears in the filled text. */
  lemma {:induction false} FillEmbeds(t: Template, b: map<string, string>, i: nat)
    requires Bound(t, b)
    requires i < |t| && t[i].Ref?
    ensures Occurs(b[t[i].name], Fill(t, b))
  {
    assert Bound(t[1..], b) by {
      forall j | 0 <= j < |t[1..]| && t[1..][j].Ref? ensures t[1..][j].name in b {
        assert t[1..][j] == t[j + 1];
      }
    }
    var head := if t[0].Lit? then t[0].text else b[t[0].name];
    var rest := Fill(t[1..], b);
    assert Fill(t, b) == head + rest;
    if i == 0 {
      assert (head + rest)[..|head|] == head;
      assert OccursAt(head, Fill(t, b), 0);
    } else {
      var v := b[t[i].name];
      assert t[1..][i - 1] == t[i];
      FillEmbeds(t[1..], b, i - 1);
      var j: nat :| OccursAt(v, rest, j);
      assert (head + rest)[|head| + j..|head| + j + |v|] == rest[j..j + |v|];
      assert OccursAt(v, Fill(t, b), |head| + j);
    }
  }

}
