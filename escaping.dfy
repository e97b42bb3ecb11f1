/**
 * Embedding a command in a PHP single-quoted string literal, and reading it back.
 *
 * Inside '...' PHP reads `\'` as a quote and `\\` as a backslash; every other
 * character, including a backslash before anything else, stands for itself, and
 * the first unescaped quote ends the literal.
 */
module Escaping {
  import opened Text

  /** `str_replace("'", "\\'", s)`: a backslash in front of every single quote. */
  function EscapeQuotes(s: string): string {
    if s == [] then ""
    else (if s[0] == '\'' then "\\'" else [s[0]]) + EscapeQuotes(s[1..])
  }

  /**
   * Which characters a command has escaped before it is placed in a literal: the quotes
   * only, as the deployment command does, or the quotes and the backslashes.
   */
  datatype Escape = QuotesOnly | QuotesAndBackslashes

  /** The escaped text of `s` under the given choice. */
  function Escaped(e: Escape, s: string): string {
    match e
    case QuotesOnly => EscapeQuotes(s)
    case QuotesAndBackslashes => EscapeLiteral(s)
  }

  /** The choice reads back `s` exactly: always with both escaped, and with quotes only when `s` has no backslash. */
  predicate ReadsBack(e: Escape, s: string) {
    e == QuotesAndBackslashes || '\\' !in s
  }

  /** Whenever the choice reads `s` back, the literal denotes exactly `s` and ends at the intended quote. */
  lemma EscapedRoundTrip(e: Escape, s: string, rest: string)
    requires ReadsBack(e, s)
    ensures ReadQuoted(Escaped(e, s) + "'" + rest) == Some((s, rest))
  {
    if e == QuotesOnly {
      EscapeQuotesRoundTrip(s, rest);
    } else {
      EscapeLiteralRoundTrip(s, rest);
    }
  }

  /** The escaping PHP's single-quoted literal undoes for every input: quote and backslash both escaped. */
  function EscapeLiteral(s: string): string {
    if s == [] then ""
    else LiteralHead(s[0]) + EscapeLiteral(s[1..])
  }

  /**
   * Reads the body of a single-quoted literal whose opening quote has been consumed:
   * the string it denotes and the text after its closing quote, or None when it never closes.
   */
  function ReadQuoted(t: string): (r: Option<(string, string)>)
    ensures r.Some? ==> |r.value.1| < |t| && r.value.1 == t[|t| - |r.value.1|..]
    decreases |t|
  {
    if t == [] then None
    else if t[0] == '\'' then Some(("", t[1..]))
    else if t[0] == '\\' && |t| >= 2 && (t[1] == '\'' || t[1] == '\\') then Prepend(t[1], ReadQuoted(t[2..]))
    else Prepend(t[0], ReadQuoted(t[1..]))
  }

  /** One more character in front of what a literal denotes. */
  function Prepend(c: char, r: Option<(string, string)>): Option<(string, string)> {
    match r
    case None => None
    case Some((body, rest)) => Some(([c] + body, rest))
  }

  /** An escaped quote or backslash denotes that one character. */
  lemma ReadEscaped(c: char, tail: string)
    requires c == '\'' || c == '\\'
    ensures ReadQuoted(['\\', c] + tail) == Prepend(c, ReadQuoted(tail))
  {
    assert (['\\', c] + tail)[2..] == tail;
  }

  /** Any other character, a lone backslash included, denotes itself. */
  lemma ReadPlain(c: char, tail: string)
    requires c != '\'' && (c != '\\' || tail == [] || (tail[0] != '\'' && tail[0] != '\\'))
    ensures ReadQuoted([c] + tail) == Prepend(c, ReadQuoted(tail))
  {
    assert ([c] + tail)[1..] == tail;
  }

  /** The escape adds exactly one character per quote and nothing else. */
  lemma {:induction false} EscapeQuotesLength(s: string)
    ensures |EscapeQuotes(s)| == |s| + Count(s, '\'')
  {
    if s != [] {
      EscapeQuotesLength(s[1..]);
    }
  }

  /** A quote-free string is left as it is. */
  lemma {:induction false} EscapeQuotesIdentity(s: string)
    requires '\'' !in s
    ensures EscapeQuotes(s) == s
  {
    if s != [] {
      EscapeQuotesIdentity(s[1..]);
    }
  }

  /** For a backslash-free string the quote escape is read back exactly, and the literal ends where it should. */
  lemma {:induction false} EscapeQuotesRoundTrip(s: string, rest: string)
    requires '\\' !in s
    ensures ReadQuoted(EscapeQuotes(s) + "'" + rest) == Some((s, rest))
  {
    if s == [] {
      assert ("'" + rest)[1..] == rest;
    } else {
      Absent(s, '\\');
      EscapeQuotesRoundTrip(s[1..], rest);
      var e := EscapeQuotes(s[1..]);
      assert EscapeQuotes(s) == LiteralHead(s[0]) + e;
      Assoc(LiteralHead(s[0]), e, "'");
      Assoc(LiteralHead(s[0]), e + "'", rest);
      ReadStep(s, e + "'" + rest, rest);
    }
  }

  /** The corrected escape is read back exactly for every string. */
  lemma {:induction false} EscapeLiteralRoundTrip(s: string, rest: string)
    ensures ReadQuoted(EscapeLiteral(s) + "'" + rest) == Some((s, rest))
  {
    if s == [] {
      assert ("'" + rest)[1..] == rest;
    } else {
      EscapeLiteralRoundTrip(s[1..], rest);
      var e := EscapeLiteral(s[1..]);
      Assoc(LiteralHead(s[0]), e, "'");
      Assoc(LiteralHead(s[0]), e + "'", rest);
      ReadStep(s, e + "'" + rest, rest);
    }
  }

  /** A character absent from a non-empty string is absent from its head and its tail. */
  lemma Absent(s: string, c: char)
    requires s != [] && c !in s
    ensures s[0] != c && c !in s[1..]
  {
    assert s == [s[0]] + s[1..];
  }

  /** The encoding of one character inside a literal. */
  function LiteralHead(c: char): string {
    if c == '\'' || c == '\\' then ['\\', c] else [c]
  }

  /** Reading one encoded character in front of the encoding of the rest of `s`. */
  lemma ReadStep(s: string, tail: string, rest: string)
    requires s != [] && ReadQuoted(tail) == Some((s[1..], rest))
    ensures ReadQuoted(LiteralHead(s[0]) + tail) == Some((s, rest))
  {
    var c := s[0];
    if c == '\'' || c == '\\' {
      assert LiteralHead(c) == ['\\', c];
      ReadEscaped(c, tail);
    } else {
      assert LiteralHead(c) == [c];
      ReadPlain(c, tail);
    }
    assert [c] + s[1..] == s;
  }

  /** On backslash-free strings the corrected escape is the quote escape. */
  lemma {:induction false} EscapesAgreeWithoutBackslash(s: string)
    requires '\\' !in s
    ensures EscapeLiteral(s) == EscapeQuotes(s)
  {
    if s != [] {
      EscapesAgreeWithoutBackslash(s[1..]);
    }
  }

  /** Text a single-quoted literal reads straight through: no quote and no backslash. */
  predicate Plain(s: string) {
    '\'' !in s && '\\' !in s
  }

  lemma PlainJoin(a: string, b: string)
    requires Plain(a) && Plain(b)
    ensures Plain(a + b)
  {
  }

  /**
   * A literal that closes behind a prefix without quotes or backslashes denotes that
   * prefix followed by what it denoted before, and ends at the same quote.
   */
  lemma {:induction false} ReadThroughPlain(p: string, tail: string, body: string, rest: string)
    requires Plain(p)
    requires ReadQuoted(tail) == Some((body, rest))
    ensures ReadQuoted(p + tail) == Some((p + body, rest))
  {
    if p == [] {
      assert p + tail == tail && p + body == body;
    } else {
      var c, q := p[0], p[1..];
      assert p == [c] + q;
      assert c != '\'' && c != '\\' by { assert c in p; }
      assert Plain(q) by { Absent(p, '\''); Absent(p, '\\'); }
      ReadThroughPlain(q, tail, body, rest);
      PlainStep(c, q + tail, q + body, rest);
      Assoc([c], q, tail);
      Assoc([c], q, body);
    }
  }

  /** One plain character in front of a literal body that closes. */
  lemma PlainStep(c: char, tail: string, body: string, rest: string)
    requires c != '\'' && c != '\\'
    requires ReadQuoted(tail) == Some((body, rest))
    ensures ReadQuoted([c] + tail) == Some(([c] + body, rest))
  {
    ReadPlain(c, tail);
  }

  /** Text without a single quote never closes a literal. */
  lemma {:induction false} UnterminatedWithoutQuote(t: string)
    requires '\'' !in t
    ensures ReadQuoted(t) == None
  {
    if t != [] {
      var n := if t[0] == '\\' && |t| >= 2 && (t[1] == '\'' || t[1] == '\\') then 2 else 1;
      assert forall c :: c in t[n..] ==> c in t;
      UnterminatedWithoutQuote(t[n..]);
    }
  }
}
