/**
  How the generation handler puts the user's prompt on the command line of the
  image-processing process: the prompt is wrapped in double quotes after each
  `"` in it has been replaced by `\"`.

  The command line is run by a POSIX shell, so the module also states how such
  a shell reads a double-quoted word (section 2.2.3, "Double-Quotes", of the
  POSIX Shell Command Language), and proves which escaping makes the shell
  hand the prompt over unchanged.
 */
module Escaping {
  import opened Outcomes
  import Sequences

  /** Number of occurrences of `c` in `s`. */
  function Count(s: string, c: char): nat {
    Sequences.CountWhere(x => x == c, s)
  }

  /** Every `"` in `s` is immediately preceded by a backslash. */
  predicate QuotesGuarded(s: string) {
    forall i :: 0 <= i < |s| && s[i] == '"' ==> 0 < i && s[i - 1] == '\\'
  }

  /** `prompt.replace(/"/g, '\\"')`: every double quote becomes backslash, double quote. */
  function EscapeQuotes(s: string): (r: string)
    ensures |r| == |s| + Count(s, '"')
    ensures QuotesGuarded(r)
    ensures |r| > 0 ==> r[0] != '"'
    ensures Count(r, '"') == Count(s, '"')
    decreases |s|
  {
    if |s| == 0 then ""
    else
      var rest := EscapeQuotes(s[1..]);
      var head := if s[0] == '"' then "\\\"" else [s[0]];
      Sequences.CountWhereAppend(x => x == '"', head, rest);
      head + rest
  }

  /** The inverse rewriting: each `\"` read from the left becomes `"`. */
  function UnescapeQuotes(s: string): string
    decreases |s|
  {
    if |s| == 0 then ""
    else if |s| >= 2 && s[0] == '\\' && s[1] == '"' then "\"" + UnescapeQuotes(s[2..])
    else [s[0]] + UnescapeQuotes(s[1..])
  }

  /** Un-escaping the escaped prompt gives back the original prompt, backslashes included. */
  lemma {:induction false} UnescapeEscapeQuotes(s: string)
    ensures UnescapeQuotes(EscapeQuotes(s)) == s
    decreases |s|
  {
    if |s| > 0 {
      var rest := EscapeQuotes(s[1..]);
      UnescapeEscapeQuotes(s[1..]);
      if s[0] == '"' {
        assert EscapeQuotes(s) == "\\\"" + rest;
        assert ("\\\"" + rest)[2..] == rest;
      } else {
        assert EscapeQuotes(s) == [s[0]] + rest;
        assert ([s[0]] + rest)[1..] == rest;
      }
      assert [s[0]] + s[1..] == s;
    }
  }

  /** A double-quoted word read by the shell: its literal text and the input after the closing quote. */
  datatype Word = Word(text: string, rest: string)

  /** The characters a backslash still escapes inside double quotes. */
  predicate EscapableInDoubleQuotes(c: char) {
    c == '$' || c == '`' || c == '"' || c == '\\' || c == '\n'
  }

  function Prepend(c: char, w: Option<Word>): Option<Word> {
    if w.None? then None else Some(Word([c] + w.value.text, w.value.rest))
  }

  /**
    How a POSIX shell reads the characters after an opening `"`: up to the
    first unescaped `"`. A backslash before `$`, `` ` ``, `"`, `\` or a newline
    yields that character (the newline is removed as a line continuation), and
    before anything else it is kept. An unescaped `$` or `` ` `` begins an
    expansion, and a missing closing quote leaves the word unterminated: both
    give None, as the text is then not taken over literally.
   */
  function ReadDoubleQuoted(s: string): (r: Option<Word>)
    decreases |s|
  {
    if |s| == 0 then None
    else if s[0] == '"' then Some(Word("", s[1..]))
    else if s[0] == '$' || s[0] == '`' then None
    else if s[0] == '\\' && |s| == 1 then None
    else if s[0] == '\\' && s[1] == '\n' then ReadDoubleQuoted(s[2..])
    else if s[0] == '\\' && EscapableInDoubleQuotes(s[1]) then Prepend(s[1], ReadDoubleQuoted(s[2..]))
    else Prepend(s[0], ReadDoubleQuoted(s[1..]))
  }

  /** The characters that must be escaped for the shell to read them literally inside double quotes. */
  predicate ShellSpecial(c: char) {
    c == '"' || c == '\\' || c == '$' || c == '`'
  }

  /** Number of shell-special characters in `s`. */
  function CountSpecial(s: string): nat {
    Sequences.CountWhere(ShellSpecial, s)
  }

  /** A prompt with no backslash, `$` or backquote: the only special character it may hold is `"`. */
  predicate PlainText(s: string) {
    forall i :: 0 <= i < |s| ==> s[i] != '\\' && s[i] != '$' && s[i] != '`'
  }

  /** Escaping that puts a backslash before every shell-special character. */
  function EscapeForShell(s: string): (r: string)
    ensures |r| == |s| + CountSpecial(s)
    decreases |s|
  {
    if |s| == 0 then ""
    else (if ShellSpecial(s[0]) then ['\\', s[0]] else [s[0]]) + EscapeForShell(s[1..])
  }

  /**
    With the corrected escaping, the shell reads the quoted prompt back
    exactly, and stops right after the closing quote.
   */
  lemma {:induction false} EscapeForShellRoundTrip(s: string, rest: string)
    ensures ReadDoubleQuoted(EscapeForShell(s) + "\"" + rest) == Some(Word(s, rest))
    decreases |s|
  {
    if |s| == 0 {
      assert EscapeForShell(s) + "\"" + rest == "\"" + rest;
    } else {
      EscapeForShellRoundTrip(s[1..], rest);
      ReadStep(s[0], s[1..], rest);
      assert [s[0]] + s[1..] == s;
    }
  }

  /** Reading back one more escaped character in front of a prompt that already reads back. */
  lemma ReadStep(c: char, more: string, rest: string)
    requires ReadDoubleQuoted(EscapeForShell(more) + "\"" + rest) == Some(Word(more, rest))
    ensures ReadDoubleQuoted(EscapeForShell([c] + more) + "\"" + rest) == Some(Word([c] + more, rest))
  {
    var head := if ShellSpecial(c) then ['\\', c] else [c];
    var tail := EscapeForShell(more) + "\"" + rest;
    EscapeForShellCons([c] + more);
    assert ([c] + more)[1..] == more;
    assert EscapeForShell([c] + more) + "\"" + rest == head + tail;
    ReadEscapedChar(c, tail);
  }

  /** One step of the corrected escaping. */
  lemma EscapeForShellCons(s: string)
    requires |s| > 0
    ensures EscapeForShell(s) == (if ShellSpecial(s[0]) then ['\\', s[0]] else [s[0]]) + EscapeForShell(s[1..])
  {
  }

  /** The shell reads one escaped character, or one plain one, and carries on with the rest. */
  lemma ReadEscapedChar(c: char, tail: string)
    ensures var head := if ShellSpecial(c) then ['\\', c] else [c];
      ReadDoubleQuoted(head + tail) == Prepend(c, ReadDoubleQuoted(tail))
  {
    if ShellSpecial(c) {
      var line := ['\\', c] + tail;
      assert line[0] == '\\' && line[1] == c && line[2..] == tail;
    } else {
      var line := [c] + tail;
      assert line[0] == c && line[1..] == tail;
    }
  }

  /** On a prompt without backslashes, `$` or backquotes, the as-written escaping is the corrected one. */
  lemma {:induction false} EscapeQuotesAgreesOnPlainText(s: string)
    requires PlainText(s)
    ensures EscapeQuotes(s) == EscapeForShell(s)
    decreases |s|
  {
    if |s| > 0 {
      EscapeQuotesAgreesOnPlainText(s[1..]);
    }
  }

  /**
    The escaping as written does not protect a prompt that is a single
    backslash: the shell takes the backslash and the closing quote together as
    a literal `"`, so whatever it reads is not the prompt.
   */
  lemma EscapeQuotesLosesTrailingBackslash(rest: string)
    ensures ReadDoubleQuoted(EscapeQuotes("\\") + "\"" + rest) != Some(Word("\\", rest))
  {
    var s := EscapeQuotes("\\") + "\"" + rest;
    assert s == ['\\', '"'] + rest;
    assert s[2..] == rest;
    var r := ReadDoubleQuoted(s);
    assert r == Prepend('"', ReadDoubleQuoted(rest));
    if r.Some? {
      assert r.value.text[0] == '"';
    }
  }

  /** The escaping as written leaves `$` active: a prompt starting with `$(`, such as `$(id)`, is a command substitution, not passed on. */
  lemma EscapeQuotesLeavesExpansion(s: string, rest: string)
    requires |s| >= 2 && s[0] == '$' && s[1] == '('
    ensures ReadDoubleQuoted(EscapeQuotes(s) + "\"" + rest) == None
  {
    var line := EscapeQuotes(s) + "\"" + rest;
    assert EscapeQuotes(s)[0] == '$';
    assert line[0] == '$';
  }
}
