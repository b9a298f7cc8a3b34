/**
 Quoting of file paths and column names for DuckDB: a character string literal
 (section 5.3 of ISO/IEC 9075-2) or a delimited identifier (section 5.2 of ISO/IEC 9075-2)
 doubles every quote of its content and is enclosed in quotes.
 */
module Quoting {
  import opened Base

  /** Each quote character doubled. */
  function Doubled(q: char, s: string): string {
    if s == "" then "" else (if s[0] == q then [q, q] else [s[0]]) + Doubled(q, s[1..])
  }

  function Quoted(q: char, s: string): string {
    [q] + Doubled(q, s) + [q]
  }

  function Identifier(name: string): string {
    Quoted('"', name)
  }

  function Literal(value: string): string {
    Quoted('\'', value)
  }

  /** The SQL reader: content and following text of the quoted token at the head of `text`. */
  function Lex(q: char, text: string): Option<(string, string)> {
    if text == "" || text[0] != q then None else LexBody(q, text[1..])
  }

  function LexBody(q: char, text: string): Option<(string, string)> {
    if text == "" then None
    else if text[0] != q then
      match LexBody(q, text[1..])
      case None => None
      case Some((content, rest)) => Some(([text[0]] + content, rest))
    else if |text| >= 2 && text[1] == q then
      match LexBody(q, text[2..])
      case None => None
      case Some((content, rest)) => Some(([q] + content, rest))
    else Some(("", text[1..]))
  }

  lemma {:induction false} LexDoubled(q: char, s: string, rest: string)
    ensures LexBody(q, Doubled(q, s) + [q] + rest) == Some((s, rest))
            <==> !(rest != "" && rest[0] == q)
  {
    var text := Doubled(q, s) + [q] + rest;
    if s == "" {
      assert text == [q] + rest;
      if rest != "" && rest[0] == q {
        assert LexBody(q, text) != Some(("", rest));
      } else {
        assert text[1..] == rest;
      }
    } else {
      LexDoubled(q, s[1..], rest);
      LexOne(q, s, rest);
      assert s == [s[0]] + s[1..];
    }
  }

  /** The reader takes one character of the string at a time. */
  lemma LexOne(q: char, s: string, rest: string)
    requires s != ""
    ensures var text, tail := Doubled(q, s) + [q] + rest, Doubled(q, s[1..]) + [q] + rest;
            text == (if s[0] == q then [q, q] else [s[0]]) + tail
            && text[if s[0] == q then 2 else 1..] == tail
  {
  }

  /**
   Whatever the string, a reader that meets its quoted form takes back exactly that string and
   leaves exactly the text that followed, if and only if that text does not begin with the
   same quote.
   */
  lemma QuotingRoundTrip(q: char, s: string, rest: string)
    ensures Lex(q, Quoted(q, s) + rest) == Some((s, rest)) <==> !(rest != "" && rest[0] == q)
  {
    LexDoubled(q, s, rest);
    assert (Quoted(q, s) + rest)[1..] == Doubled(q, s) + [q] + rest;
  }

  /** Both quoting functions of the batch loader are this round trip, each with its own quote. */
  lemma LiteralAndIdentifierRoundTrip(s: string, rest: string)
    ensures Lex('\'', Literal(s) + rest) == Some((s, rest)) <==> !(rest != "" && rest[0] == '\'')
    ensures Lex('"', Identifier(s) + rest) == Some((s, rest)) <==> !(rest != "" && rest[0] == '"')
  {
    QuotingRoundTrip('\'', s, rest);
    QuotingRoundTrip('"', s, rest);
  }
}
