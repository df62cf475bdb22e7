/**
 * The escaping the service applies to every user-supplied string before
 * splicing it into an AppleScript string literal, together with a model of
 * how AppleScript reads such a literal back.
 */
module Escape {
  import opened Common

  /** Number of occurrences of `c` in `s`. */
  function Count(s: string, c: char): nat {
    if s == [] then 0 else (if s[0] == c then 1 else 0) + Count(s[1..], c)
  }

  /**
   * `s.replacingOccurrences(of: "\"", with: "\\\"")`: a backslash goes in
   * front of every double quote; every other character, backslashes
   * included, is copied as is.
   */
  function EscapeQuotes(s: string): (r: string)
    ensures |r| == |s| + Count(s, '"')
    ensures forall i :: 0 <= i < |r| && r[i] == '"' ==> 0 < i && r[i - 1] == '\\'
    decreases |s|
  {
    if s == [] then []
    else (if s[0] == '"' then "\\\"" else [s[0]]) + EscapeQuotes(s[1..])
  }

  /** Removes the backslash in front of every `\"` pair, left to right. */
  function UnescapeQuotes(t: string): string
    decreases |t|
  {
    if t == [] then []
    else if |t| >= 2 && t[0] == '\\' && t[1] == '"' then "\"" + UnescapeQuotes(t[2..])
    else [t[0]] + UnescapeQuotes(t[1..])
  }

  /** The escaping loses nothing: removing the inserted backslashes gives the input back. */
  lemma {:induction false} EscapeQuotesRoundTrip(s: string)
    ensures UnescapeQuotes(EscapeQuotes(s)) == s
    decreases |s|
  {
    if s != [] {
      var tail := EscapeQuotes(s[1..]);
      EscapeQuotesRoundTrip(s[1..]);
      if s[0] == '"' {
        assert EscapeQuotes(s) == "\\\"" + tail;
        assert ("\\\"" + tail)[2..] == tail;
      } else {
        assert EscapeQuotes(s) == [s[0]] + tail;
        assert tail != [] ==> tail[0] != '"';
        assert ([s[0]] + tail)[1..] == tail;
      }
    }
  }

  /** A string without double quotes, backslashes and all, passes through unchanged. */
  lemma {:induction false} EscapeQuotesWithoutQuotes(s: string)
    requires '"' !in s
    ensures EscapeQuotes(s) == s
    decreases |s|
  {
    if s != [] {
      assert '"' !in s[1..] by { assert forall c :: c in s[1..] ==> c in s; }
      EscapeQuotesWithoutQuotes(s[1..]);
      assert s == [s[0]] + s[1..];
    }
  }

  /** The character an AppleScript escape `\c` stands for, when `\c` is one. */
  function EscapeTarget(c: char): Option<char> {
    if c == '"' then Some('"')
    else if c == '\\' then Some('\\')
    else if c == 'n' then Some('\n')
    else if c == 'r' then Some('\r')
    else if c == 't' then Some('\t')
    else None
  }

  /**
   * How AppleScript reads a string literal whose opening quote has been
   * consumed: the text the literal denotes and the script text after its
   * closing quote, or `None` when the literal never closes or holds an
   * escape AppleScript does not know.
   */
  function ReadLiteral(t: string): (r: Option<(string, string)>)
    ensures r.Some? ==> |r.value.1| < |t| && r.value.1 == t[|t| - |r.value.1|..]
    decreases |t|
  {
    if t == [] then None
    else if t[0] == '"' then Some(([], t[1..]))
    else if t[0] == '\\' then
      if |t| == 1 then None
      else match EscapeTarget(t[1])
        case None => None
        case Some(c) =>
          match ReadLiteral(t[2..])
          case None => None
          case Some(p) => Some(([c] + p.0, p.1))
    else
      match ReadLiteral(t[1..])
      case None => None
      case Some(p) => Some(([t[0]] + p.0, p.1))
  }

  /** Reading past one escape pair: the pair contributes the character it stands for. */
  lemma ReadEscapePair(c: char, t: string)
    requires EscapeTarget(c).Some?
    ensures ReadLiteral(['\\', c] + t) ==
      (match ReadLiteral(t)
       case None => None
       case Some(p) => Some(([EscapeTarget(c).value] + p.0, p.1)))
  {
    assert (['\\', c] + t)[2..] == t;
  }

  /** Reading past one plain character: it stands for itself. */
  lemma ReadPlain(c: char, t: string)
    requires c != '"' && c != '\\'
    ensures ReadLiteral([c] + t) ==
      (match ReadLiteral(t)
       case None => None
       case Some(p) => Some(([c] + p.0, p.1)))
  {
    assert ([c] + t)[1..] == t;
  }

  /**
   * The input `\` is spliced as `"\"`: AppleScript reads `\"` as an escaped
   * quote, so the literal does not end where the generated script meant
   * it to. On its own it never closes; inside a script, the next quote
   * closes it, so the script text up to there (here ` & `) is read as part
   * of the string and what follows that quote is read as script.
   */
  lemma QuoteEscapingLeavesLiteralOpen(rest: string)
    ensures EscapeQuotes("\\") == "\\"
    ensures ReadLiteral(EscapeQuotes("\\") + "\"") == None
    ensures ReadLiteral(EscapeQuotes("\\") + "\" & \"" + rest) == Some(("\" & ", rest))
  {
    ReadEscapePair('"', []);
    var t := EscapeQuotes("\\") + "\" & \"" + rest;
    assert t == ['\\', '"'] + ([' '] + (['&'] + ([' '] + ("\"" + rest))));
    var closing := "\"" + rest;
    assert closing[1..] == rest;
    assert ReadLiteral(closing) == Some(([], rest));
    ReadPlain(' ', closing);
    assert [' '] + [] == [' '];
    assert ReadLiteral([' '] + closing) == Some(([' '], rest));
    ReadPlain('&', [' '] + closing);
    assert ['&'] + [' '] == ['&', ' '];
    assert ReadLiteral(['&'] + ([' '] + closing)) == Some((['&', ' '], rest));
    ReadPlain(' ', ['&'] + ([' '] + closing));
    assert [' '] + ['&', ' '] == [' ', '&', ' '];
    assert ReadLiteral([' '] + (['&'] + ([' '] + closing))) == Some(([' ', '&', ' '], rest));
    ReadEscapePair('"', [' '] + (['&'] + ([' '] + closing)));
    assert ['"'] + [' ', '&', ' '] == "\" & ";
  }

  /**
   * The input `\"c"` ends the literal after its first character: what
   * AppleScript then reads as script text after the literal begins with
   * `c`, a character the caller chose.
   */
  lemma QuoteEscapingAllowsInjection()
    ensures ReadLiteral(EscapeQuotes("\\\"c\"") + "\"") == Some(("\\", "c\\\"\""))
  {
    assert EscapeQuotes("\\\"c\"") + "\"" == ['\\', '\\'] + ("\"c\\\"\"");
    var after := "\"c\\\"\"";
    assert after[1..] == "c\\\"\"";
    assert ReadLiteral(after) == Some(([], "c\\\"\""));
    ReadEscapePair('\\', after);
    assert EscapeTarget('\\') == Some('\\');
    assert ['\\'] + [] == "\\";
  }

  /** The text `EscapeLiteral` puts in place of one character. */
  function EscapeChar(c: char): string {
    if c == '"' then "\\\"" else if c == '\\' then "\\\\" else [c]
  }

  /**
   * Escaping for an AppleScript string literal as the generated scripts
   * need it: backslashes are doubled and double quotes get a backslash.
   */
  function EscapeLiteral(s: string): (r: string)
    ensures |r| == |s| + Count(s, '"') + Count(s, '\\')
    decreases |s|
  {
    if s == [] then [] else EscapeChar(s[0]) + EscapeLiteral(s[1..])
  }

  /** Reading past the escape of one character yields that character. */
  lemma ReadEscapedChar(c: char, t: string)
    ensures ReadLiteral(EscapeChar(c) + t) ==
      (match ReadLiteral(t)
       case None => None
       case Some(p) => Some(([c] + p.0, p.1)))
  {
    if c == '"' || c == '\\' {
      assert EscapeChar(c) + t == ['\\', c] + t;
      ReadEscapePair(c, t);
    } else {
      ReadPlain(c, t);
    }
  }

  /**
   * Splicing `EscapeLiteral(x)` between quotes yields a literal that
   * AppleScript reads as exactly `x`, with the closing quote exactly where
   * the generated script put it.
   */
  lemma {:induction false} EscapeLiteralRoundTrip(x: string, rest: string)
    ensures ReadLiteral(EscapeLiteral(x) + "\"" + rest) == Some((x, rest))
    decreases |x|
  {
    if x == [] {
      assert EscapeLiteral(x) + "\"" + rest == "\"" + rest;
    } else {
      var tail := EscapeLiteral(x[1..]) + "\"" + rest;
      EscapeLiteralRoundTrip(x[1..], rest);
      assert EscapeLiteral(x) + "\"" + rest == EscapeChar(x[0]) + tail;
      ReadEscapedChar(x[0], tail);
      assert [x[0]] + x[1..] == x;
    }
  }

  /** On input without backslashes the source's escaping is already the correct one. */
  lemma {:induction false} EscapesAgreeWithoutBackslash(x: string)
    requires '\\' !in x
    ensures EscapeQuotes(x) == EscapeLiteral(x)
    decreases |x|
  {
    if x != [] {
      assert '\\' !in x[1..] by { assert forall c :: c in x[1..] ==> c in x; }
      EscapesAgreeWithoutBackslash(x[1..]);
    }
  }

  /** Hence the source's literals are read back correctly whenever the input has no backslash. */
  lemma QuoteEscapingSoundWithoutBackslash(x: string, rest: string)
    requires '\\' !in x
    ensures ReadLiteral(EscapeQuotes(x) + "\"" + rest) == Some((x, rest))
  {
    EscapesAgreeWithoutBackslash(x);
    EscapeLiteralRoundTrip(x, rest);
  }
}
