/**
 * `template.format(**user_info)` as the builder applies it to the container-side
 * conda-bld template: the placeholders `{username}`, `{groupname}`, `{uid}` and
 * `{gid}` are replaced, `{{` and `}}` stand for literal braces, and any other use
 * of a brace makes the call raise.
 */
module Template {
  import opened Wrappers
  import opened Text
  import opened Identity

  /** A template, read: literal characters and placeholders. */
  datatype Piece = Char(c: char) | Placeholder(field: Field)

  /**
   * Why `str.format` raises: a `{` without its `}` or a lone `}` (ValueError),
   * or a field other than the four keys of `user_info` (KeyError or IndexError).
   */
  datatype FormatError = UnclosedBrace | SingleCloseBrace | UnknownField(name: string)

  function Prepend(p: Piece, r: Result<seq<Piece>, FormatError>): Result<seq<Piece>, FormatError> {
    match r
    case Success(ps) => Success([p] + ps)
    case Failure(e) => Failure(e)
  }

  /** Reads the piece a non-empty template starts with, and how many characters it takes. */
  function NextPiece(t: string): (r: Result<(Piece, nat), FormatError>)
    requires t != []
    ensures r.Success? ==> 0 < r.value.1 <= |t|
  {
    if t[0] == '{' then
      if |t| >= 2 && t[1] == '{' then Success((Char('{'), 2))
      else
        var j := IndexOf(t[1..], '}');
        if j == |t| - 1 then Failure(UnclosedBrace)
        else
          var name := t[1..1 + j];
          match FieldNamed(name)
          case None => Failure(UnknownField(name))
          case Some(f) => Success((Placeholder(f), j + 2))
    else if t[0] == '}' then
      if |t| >= 2 && t[1] == '}' then Success((Char('}'), 2))
      else Failure(SingleCloseBrace)
    else Success((Char(t[0]), 1))
  }

  /** Reads a template the way `str.format` scans it, piece by piece. */
  function Parse(t: string): Result<seq<Piece>, FormatError>
    decreases |t|
  {
    if t == [] then Success([])
    else
      match NextPiece(t)
      case Failure(e) => Failure(e)
      case Success((p, n)) => Prepend(p, Parse(t[n..]))
  }

  /** The text a read template stands for once `info` is substituted. */
  function Render(ps: seq<Piece>, info: UserInfo): string {
    if ps == [] then ""
    else
      var head := match ps[0] case Char(c) => [c] case Placeholder(f) => Value(info, f);
      head + Render(ps[1..], info)
  }

  /** `template.format(**user_info)`. */
  function Format(t: string, info: UserInfo): Result<string, FormatError> {
    match Parse(t)
    case Success(ps) => Success(Render(ps, info))
    case Failure(e) => Failure(e)
  }

  /** How a piece is written in a template. */
  function PieceText(p: Piece): string {
    match p
    case Char(c) => if c == '{' then "{{" else if c == '}' then "}}" else [c]
    case Placeholder(f) => "{" + Key(f) + "}"
  }

  /** The template text of a sequence of pieces. */
  function Unparse(ps: seq<Piece>): string {
    if ps == [] then "" else PieceText(ps[0]) + Unparse(ps[1..])
  }

  lemma KeyShape(f: Field)
    ensures |Key(f)| > 0 && Key(f)[0] != '{' && '}' !in Key(f)
  {
  }

  /** The piece read is the one whose text the template starts with. */
  lemma NextPieceText(t: string)
    requires t != [] && NextPiece(t).Success?
    ensures t[..NextPiece(t).value.1] == PieceText(NextPiece(t).value.0)
  {
    if t[0] == '{' && !(|t| >= 2 && t[1] == '{') {
      var j := IndexOf(t[1..], '}');
      assert t[..j + 2] == "{" + t[1..1 + j] + "}";
    }
  }

  /** A piece's text, followed by anything, reads as that piece. */
  lemma NextPieceOfText(p: Piece, rest: string)
    ensures NextPiece(PieceText(p) + rest) == Success((p, |PieceText(p)|))
  {
    var t := PieceText(p) + rest;
    match p
    case Char(c) =>
    case Placeholder(f) =>
      var key := Key(f);
      KeyShape(f);
      assert t[1..] == key + ['}'] + rest;
      IndexOfAfter(key, '}', rest);
      assert t[1..1 + |key|] == key;
  }

  /** Reading the text of pieces gives the pieces back. */
  lemma {:induction false} ParseUnparse(ps: seq<Piece>)
    ensures Parse(Unparse(ps)) == Success(ps)
  {
    if ps != [] {
      var rest := Unparse(ps[1..]);
      var t := PieceText(ps[0]) + rest;
      assert Unparse(ps) == t;
      NextPieceOfText(ps[0], rest);
      assert t[|PieceText(ps[0])|..] == rest;
      ParseUnparse(ps[1..]);
      assert [ps[0]] + ps[1..] == ps;
    }
  }

  /** A template that reads without error is the text of what it reads as. */
  lemma {:induction false} UnparseParse(t: string)
    requires Parse(t).Success?
    ensures Unparse(Parse(t).value) == t
    decreases |t|
  {
    if t != [] {
      var n := NextPiece(t).value.1;
      NextPieceText(t);
      UnparseParse(t[n..]);
      assert t == t[..n] + t[n..];
    }
  }

  predicate BraceFree(s: string) {
    '{' !in s && '}' !in s
  }

  /** The pieces of a text taken literally. */
  function Literal(s: string): (ps: seq<Piece>)
    ensures |ps| == |s|
  {
    if s == [] then [] else [Char(s[0])] + Literal(s[1..])
  }

  lemma {:induction false} LiteralText(s: string, info: UserInfo)
    requires BraceFree(s)
    ensures Unparse(Literal(s)) == s && Render(Literal(s), info) == s
  {
    if s != [] {
      assert s[0] in s;
      assert BraceFree(s[1..]) by {
        assert forall x :: x in s[1..] ==> x in s;
      }
      LiteralText(s[1..], info);
      assert Literal(s)[1..] == Literal(s[1..]);
    }
  }

  lemma {:induction false} UnparseAppend(a: seq<Piece>, b: seq<Piece>)
    ensures Unparse(a + b) == Unparse(a) + Unparse(b)
  {
    if a == [] {
      assert a + b == b;
    } else {
      assert (a + b)[0] == a[0] && (a + b)[1..] == a[1..] + b;
      UnparseAppend(a[1..], b);
    }
  }

  lemma {:induction false} RenderAppend(a: seq<Piece>, b: seq<Piece>, info: UserInfo)
    ensures Render(a + b, info) == Render(a, info) + Render(b, info)
  {
    if a == [] {
      assert a + b == b;
    } else {
      assert (a + b)[0] == a[0] && (a + b)[1..] == a[1..] + b;
      RenderAppend(a[1..], b, info);
    }
  }

  /** A template without braces is returned as it is. */
  lemma FormatBraceFree(s: string, info: UserInfo)
    requires BraceFree(s)
    ensures Format(s, info) == Success(s)
  {
    LiteralText(s, info);
    ParseUnparse(Literal(s));
  }

  function WithPlaceholder(before: string, f: Field, after: string): seq<Piece> {
    Literal(before) + [Placeholder(f)] + Literal(after)
  }

  lemma UnparseSingle(p: Piece)
    ensures Unparse([p]) == PieceText(p)
  {
    assert Unparse([p]) == PieceText(p) + Unparse([]);
  }

  lemma UnparseThree(a: seq<Piece>, b: seq<Piece>, c: seq<Piece>)
    ensures Unparse(a + b + c) == Unparse(a) + Unparse(b) + Unparse(c)
  {
    UnparseAppend(a + b, c);
    UnparseAppend(a, b);
  }

  lemma UnparseWithPlaceholder(before: string, f: Field, after: string, info: UserInfo)
    requires BraceFree(before) && BraceFree(after)
    ensures Unparse(WithPlaceholder(before, f, after)) == before + "{" + Key(f) + "}" + after
  {
    UnparseThree(Literal(before), [Placeholder(f)], Literal(after));
    LiteralText(before, info);
    LiteralText(after, info);
    UnparseSingle(Placeholder(f));
  }

  lemma RenderWithPlaceholder(before: string, f: Field, after: string, info: UserInfo)
    requires BraceFree(before) && BraceFree(after)
    ensures Render(WithPlaceholder(before, f, after), info) == before + Value(info, f) + after
  {
    LiteralText(before, info);
    LiteralText(after, info);
    RenderAppend(Literal(before) + [Placeholder(f)], Literal(after), info);
    RenderAppend(Literal(before), [Placeholder(f)], info);
    assert Render([Placeholder(f)], info) == Value(info, f);
  }

  /** One placeholder between brace-free texts is replaced by the field's value. */
  lemma FormatOnePlaceholder(before: string, f: Field, after: string, info: UserInfo)
    requires BraceFree(before) && BraceFree(after)
    ensures Format(before + "{" + Key(f) + "}" + after, info) == Success(before + Value(info, f) + after)
  {
    var ps := WithPlaceholder(before, f, after);
    UnparseWithPlaceholder(before, f, after, info);
    RenderWithPlaceholder(before, f, after, info);
    ParseUnparse(ps);
  }

  /** The default conda-bld template, `/home/{username}/conda-bld`. */
  const DefaultCondaBld := "/home/{username}/conda-bld"

  /** The default template resolves to the user's home directory's conda-bld. */
  lemma FormatDefaultCondaBld(info: UserInfo)
    ensures Format(DefaultCondaBld, info) == Success("/home/" + info.username + "/conda-bld")
  {
    assert DefaultCondaBld == "/home/" + "{" + Key(Username) + "}" + "/conda-bld";
    assert BraceFree("/home/") && BraceFree("/conda-bld");
    FormatOnePlaceholder("/home/", Username, "/conda-bld", info);
  }
}
