/**
 * The three escapes by which the bridge nests one program in another:
 * quote-escaping of a selector or payload inside page-script text, escaping
 * of page-script text for an AppleScript string literal, and single-quoting
 * of the whole AppleScript for the POSIX shell that runs `osascript`.
 * Each comes with the decoding the receiving language applies.
 */
module Quoting {
  import opened Wrappers
  import opened Text

  // ---------------------------------------------------------------------------
  // Double-quoted string literals: AppleScript's, and the page script's JavaScript ones
  // ---------------------------------------------------------------------------

  /** `s.replace(/"/g, '\\"')`: how selectors and option values are put inside a `"…"` literal of page script. */
  function EscapeQuotes(s: string): string {
    Substitute(s, {'"'}, "\\\"")
  }

  /** `s.replace(/\n/g, '\\n')`. */
  function EscapeNewlines(s: string): string {
    Substitute(s, {'\n'}, "\\n")
  }

  /**
   * How `executeScript` (and `typeText` for the typed text) escapes text for
   * a `"…"` literal: quotes first, then newlines. Backslashes are left as they are.
   */
  function EscapeForAppleScript(s: string): string {
    EscapeNewlines(EscapeQuotes(s))
  }

  /** What one character becomes under `EscapeForAppleScript`. */
  function EscapeChar(c: char): string {
    if c == '"' then "\\\"" else if c == '\n' then "\\n" else [c]
  }

  /** The character an escape `\c` denotes in an AppleScript string literal: \" \\ \n \r \t. */
  function Unescape(c: char): Option<char> {
    if c == '"' then Some('"')
    else if c == '\\' then Some('\\')
    else if c == 'n' then Some('\n')
    else if c == 'r' then Some('\r')
    else if c == 't' then Some('\t')
    else None
  }

  function Prepend(p: string, o: Option<string>): Option<string> {
    match o
    case None => None
    case Some(x) => Some(p + x)
  }

  /**
   * The text denoted by `body` placed between the quotes of a string
   * literal, or None when `body` is not a complete literal body: an
   * unescaped `"` would end the literal early, and a trailing or unknown
   * escape is malformed.
   */
  function DecodeQuoted(body: string): Option<string>
    decreases |body|
  {
    if body == [] then Some([])
    else if body[0] == '"' then None
    else if body[0] == '\\' then
      if |body| == 1 then None
      else match Unescape(body[1])
        case None => None
        case Some(c) => Prepend([c], DecodeQuoted(body[2..]))
    else Prepend([body[0]], DecodeQuoted(body[1..]))
  }

  lemma EscapeCons(c: char, rest: string)
    ensures EscapeForAppleScript([c] + rest) == EscapeChar(c) + EscapeForAppleScript(rest)
  {
    assert ([c] + rest)[1..] == rest;
    var q := if c == '"' then "\\\"" else [c];
    assert EscapeQuotes([c] + rest) == q + EscapeQuotes(rest);
    SubstituteAppend(q, EscapeQuotes(rest), {'\n'}, "\\n");
    if c == '"' {
      assert EscapeNewlines(q) == "\\" + EscapeNewlines("\"");
    }
  }

  lemma EscapeAppend(a: string, b: string)
    ensures EscapeForAppleScript(a + b) == EscapeForAppleScript(a) + EscapeForAppleScript(b)
  {
    SubstituteAppend(a, b, {'"'}, "\\\"");
    SubstituteAppend(EscapeQuotes(a), EscapeQuotes(b), {'\n'}, "\\n");
  }

  /** The escaped text is one line: it can sit inside a one-line AppleScript statement. */
  lemma EscapeHasNoNewline(s: string)
    ensures '\n' !in EscapeForAppleScript(s)
  {
    SubstituteRemoves(EscapeQuotes(s), {'\n'}, "\\n", '\n');
  }

  /** The escaped text is longer by exactly one character per quote and per newline. */
  lemma {:induction false} EscapeLength(s: string)
    ensures |EscapeForAppleScript(s)| == |s| + Occurrences(s, {'"', '\n'})
    decreases |s|
  {
    if s != [] {
      assert s == [s[0]] + s[1..];
      EscapeCons(s[0], s[1..]);
      EscapeLength(s[1..]);
    }
  }

  /** The decoding of escaped backslash-free text, followed by anything, starts with that text. */
  lemma {:induction false} DecodeEscapedPrefix(u: string, rest: string)
    requires '\\' !in u
    ensures DecodeQuoted(EscapeForAppleScript(u) + rest) == Prepend(u, DecodeQuoted(rest))
    decreases |u|
  {
    if u == [] {
      assert EscapeForAppleScript(u) + rest == rest;
      match DecodeQuoted(rest) {
        case None =>
        case Some(x) => assert u + x == x;
      }
    } else {
      var c := u[0];
      assert u == [c] + u[1..];
      EscapeCons(c, u[1..]);
      DecodeEscapedPrefix(u[1..], rest);
      var tail := EscapeForAppleScript(u[1..]) + rest;
      assert EscapeForAppleScript(u) + rest == EscapeChar(c) + tail;
      DecodeEscapedChar(c, tail);
      match DecodeQuoted(rest) {
        case None =>
        case Some(x) => assert [c] + (u[1..] + x) == u + x;
      }
    }
  }

  /** One escaped character other than a backslash decodes back to itself. */
  lemma DecodeEscapedChar(c: char, tail: string)
    requires c != '\\'
    ensures DecodeQuoted(EscapeChar(c) + tail) == Prepend([c], DecodeQuoted(tail))
  {
    if c == '"' || c == '\n' {
      assert (EscapeChar(c) + tail)[2..] == tail;
    } else {
      assert (EscapeChar(c) + tail)[1..] == tail;
    }
  }

  /** Backslash-free page script survives the AppleScript literal unchanged. */
  lemma EscapeRoundTrip(s: string)
    requires '\\' !in s
    ensures DecodeQuoted(EscapeForAppleScript(s)) == Some(s)
  {
    DecodeEscapedPrefix(s, []);
    assert EscapeForAppleScript(s) + [] == EscapeForAppleScript(s);
    assert s + [] == s;
  }

  function Backslashes(k: nat): (r: string)
    ensures |r| == k && forall i | 0 <= i < k :: r[i] == '\\'
  {
    if k == 0 then [] else "\\" + Backslashes(k - 1)
  }

  lemma BackslashesShift(k: nat, s: string)
    ensures Backslashes(k) + ("\\" + s) == "\\" + (Backslashes(k) + s)
  {
    var a := Backslashes(k) + ("\\" + s);
    var b := "\\" + (Backslashes(k) + s);
    assert |a| == |b|;
    forall i | 0 <= i < |a|
      ensures a[i] == b[i]
    {
      if i > k {
        assert a[i] == s[i - k - 1];
        assert b[i] == (Backslashes(k) + s)[i - 1];
      }
    }
  }

  /**
   * Decoding escaped text never yields the text with extra backslashes in
   * front, and yields the text itself only when it holds no backslash.
   */
  lemma {:induction false} DecodeEscapedNotShifted(t: string, k: nat)
    ensures DecodeQuoted(EscapeForAppleScript(t)) == Some(Backslashes(k) + t) ==> k == 0 && '\\' !in t
    decreases |t|, 2
  {
    if t == [] {
      assert EscapeForAppleScript(t) == [];
    } else if t[0] != '\\' {
      NotShiftedPlain(t, k);
    } else {
      NotShiftedBackslash(t, k);
    }
  }

  lemma {:induction false} NotShiftedPlain(t: string, k: nat)
    requires t != [] && t[0] != '\\'
    ensures DecodeQuoted(EscapeForAppleScript(t)) == Some(Backslashes(k) + t) ==> k == 0 && '\\' !in t
    decreases |t|, 1
  {
    var c := t[0];
    var target := Backslashes(k) + t;
    assert t == [c] + t[1..];
    EscapeCons(c, t[1..]);
    var tail := EscapeForAppleScript(t[1..]);
    var E := EscapeChar(c) + tail;
    if c == '"' || c == '\n' {
      assert E[2..] == tail;
    } else {
      assert E[1..] == tail;
    }
    assert DecodeQuoted(E) == Prepend([c], DecodeQuoted(tail));
    DecodeEscapedNotShifted(t[1..], 0);
    if DecodeQuoted(E) == Some(target) {
      var x := DecodeQuoted(tail).value;
      assert target == [c] + x;
      assert target[0] == c;
      assert k == 0;
      assert Backslashes(0) + t == t;
      assert x == target[1..] == t[1..];
      assert Backslashes(0) + t[1..] == t[1..];
    }
  }

  /** The escape of text with at least two characters, two characters at a time. */
  lemma EscapeTwo(t: string)
    requires |t| >= 2
    ensures EscapeForAppleScript(t) == EscapeChar(t[0]) + EscapeChar(t[1]) + EscapeForAppleScript(t[2..])
  {
    assert t == [t[0]] + t[1..];
    EscapeCons(t[0], t[1..]);
    assert t[1..] == [t[1]] + t[2..];
    EscapeCons(t[1], t[2..]);
  }

  lemma {:induction false} NotShiftedBackslash(t: string, k: nat)
    requires t != [] && t[0] == '\\'
    ensures DecodeQuoted(EscapeForAppleScript(t)) != Some(Backslashes(k) + t)
    decreases |t|, 1
  {
    if |t| == 1 {
      assert t == ['\\'] + [];
      EscapeCons('\\', []);
      assert EscapeForAppleScript(t) == "\\" + EscapeForAppleScript([]);
    } else if t[1] == '"' {
      EscapeTwo(t);
      var E := EscapeForAppleScript(t);
      assert E[1] == '\\' && E[2..] == "\"" + EscapeForAppleScript(t[2..]);
      assert DecodeQuoted(E[2..]) == None;
    } else if t[1] == '\n' {
      NotShiftedBackslashNewline(t, k);
    } else if t[1] == '\\' {
      NotShiftedTwoBackslashes(t, k);
    } else {
      EscapeTwo(t);
      var d := t[1];
      var E := EscapeForAppleScript(t);
      var tail2 := EscapeForAppleScript(t[2..]);
      assert E[1] == d && E[2..] == tail2;
      match Unescape(d) {
        case None =>
        case Some(ch) =>
          assert ch != '\\';
          if DecodeQuoted(tail2).Some? {
            var x := DecodeQuoted(tail2).value;
            assert DecodeQuoted(E) == Some([ch] + x);
            assert ([ch] + x)[0] == ch;
            assert (Backslashes(k) + t)[0] == '\\';
          }
      }
    }
  }

  /** A backslash before a line break decodes to a backslash before an `n`, never to the pair itself. */
  lemma NotShiftedBackslashNewline(t: string, k: nat)
    requires |t| >= 2 && t[0] == '\\' && t[1] == '\n'
    ensures DecodeQuoted(EscapeForAppleScript(t)) != Some(Backslashes(k) + t)
  {
    EscapeTwo(t);
    var E := EscapeForAppleScript(t);
    var tail2 := EscapeForAppleScript(t[2..]);
    var target := Backslashes(k) + t;
    assert E == "\\" + "\\n" + tail2;
    assert E[1] == '\\' && E[2..] == "n" + tail2;
    assert (E[2..])[1..] == tail2;
    if k == 0 {
      assert target[1] == t[1];
    } else if k == 1 {
      assert target[1] == t[0];
    } else {
      assert target[1] == '\\';
    }
    if DecodeQuoted(tail2).Some? {
      var x := DecodeQuoted(tail2).value;
      assert DecodeQuoted(E[2..]) == Some("n" + x);
      assert DecodeQuoted(E) == Prepend("\\", Some("n" + x));
      assert "\\" + ("n" + x) == "\\n" + x;
      assert ("\\n" + x)[1] == 'n';
    }
  }

  /** Two backslashes decode to one, which shifts the rest against the target by one. */
  lemma {:induction false} NotShiftedTwoBackslashes(t: string, k: nat)
    requires |t| >= 2 && t[0] == '\\' && t[1] == '\\'
    ensures DecodeQuoted(EscapeForAppleScript(t)) != Some(Backslashes(k) + t)
    decreases |t|, 0
  {
    EscapeTwo(t);
    var E := EscapeForAppleScript(t);
    var tail2 := EscapeForAppleScript(t[2..]);
    var target := Backslashes(k) + t;
    assert E == "\\" + "\\" + tail2;
    assert E[1] == '\\' && E[2..] == tail2;
    assert DecodeQuoted(E) == Prepend("\\", DecodeQuoted(tail2));
    assert t == "\\" + ("\\" + t[2..]);
    BackslashesShift(k, "\\" + t[2..]);
    BackslashesShift(k, t[2..]);
    var y := Backslashes(k) + t[2..];
    assert target == "\\" + ("\\" + y);
    assert Backslashes(k + 1) == "\\" + Backslashes(k);
    assert Backslashes(k + 1) + t[2..] == "\\" + y;
    DecodeEscapedNotShifted(t[2..], k + 1);
    if DecodeQuoted(tail2).Some? {
      var x := DecodeQuoted(tail2).value;
      assert x != "\\" + y;
      assert ("\\" + x)[1..] == x;
      assert target[1..] == "\\" + y;
    }
  }

  /** The AppleScript literal gives back exactly the page script if and only if the script holds no backslash. */
  lemma EscapeRoundTripIff(s: string)
    ensures DecodeQuoted(EscapeForAppleScript(s)) == Some(s) <==> '\\' !in s
  {
    if '\\' !in s {
      EscapeRoundTrip(s);
    } else {
      assert Backslashes(0) + s == s;
      DecodeEscapedNotShifted(s, 0);
    }
  }

  /** A page script holding the two characters `\n` reaches the page with a line break in their place. */
  lemma BackslashNBecomesNewline()
    ensures DecodeQuoted(EscapeForAppleScript("\\n")) == Some("\n")
  {
    assert "\\n" == ['\\'] + "n";
    assert "n" == ['n'] + "";
    EscapeCons('\\', "n");
    EscapeCons('n', "");
    assert EscapeForAppleScript("") == "";
    assert EscapeForAppleScript("\\n") == "\\n";
    assert Unescape('n') == Some('\n');
    var body := "\\n";
    assert body[0] == '\\' && body[1] == 'n' && |body| == 2;
    assert body[2..] == [];
    assert DecodeQuoted(body[2..]) == Some([]);
    assert DecodeQuoted(body) == Prepend(['\n'], Some([]));
    assert ['\n'] + [] == "\n";
    assert DecodeQuoted(body) == Some("\n");
    assert EscapeForAppleScript("\\n") == body;
  }

  /**
   * The character sequence an escape `\c` denotes in a JavaScript string
   * literal (ECMAScript 2024, section 12.9.4): the single escape characters,
   * a line continuation for a line terminator, and the character itself for
   * any other character. None for the escapes that start with a digit, `x`
   * or `u`, which this model does not decode.
   */
  function JsUnescape(c: char): Option<string> {
    if c == '\'' || c == '"' || c == '\\' then Some([c])
    else if c == 'b' then Some(['\U{0008}'])
    else if c == 'f' then Some(['\U{000C}'])
    else if c == 'n' then Some(['\n'])
    else if c == 'r' then Some(['\r'])
    else if c == 't' then Some(['\t'])
    else if c == 'v' then Some(['\U{000B}'])
    else if c == '\n' || c == '\r' || c == '\U{2028}' || c == '\U{2029}' then Some([])
    else if '0' <= c <= '9' || c == 'x' || c == 'u' then None
    else Some([c])
  }

  /**
   * The text denoted by `body` placed between the double quotes of a
   * JavaScript string literal, or None when the literal is not well formed:
   * an unescaped `"` ends it early, and a raw line feed or carriage return
   * inside it is a syntax error.
   */
  function DecodeJsQuoted(body: string): Option<string>
    decreases |body|
  {
    if body == [] then Some([])
    else if body[0] == '"' || body[0] == '\n' || body[0] == '\r' then None
    else if body[0] == '\\' then
      if |body| == 1 then None
      else match JsUnescape(body[1])
        case None => None
        case Some(t) => Prepend(t, DecodeJsQuoted(body[2..]))
    else Prepend([body[0]], DecodeJsQuoted(body[1..]))
  }

  /**
   * Inside the page's JavaScript `"…"` literal, a quote-escaped selector
   * (or value, or text) with no backslash reads back as itself exactly when
   * it has no line feed or carriage return; with one, the literal is a
   * syntax error.
   */
  lemma {:induction false} EscapeQuotesRoundTrip(s: string)
    requires '\\' !in s
    ensures DecodeJsQuoted(EscapeQuotes(s)) == if '\n' in s || '\r' in s then None else Some(s)
    decreases |s|
  {
    if s != [] {
      EscapeQuotesRoundTrip(s[1..]);
      var tail := EscapeQuotes(s[1..]);
      assert '\n' in s <==> s[0] == '\n' || '\n' in s[1..];
      assert '\r' in s <==> s[0] == '\r' || '\r' in s[1..];
      if s[0] == '"' {
        assert EscapeQuotes(s) == "\\\"" + tail;
        assert (EscapeQuotes(s))[2..] == tail;
      } else {
        assert EscapeQuotes(s) == [s[0]] + tail;
        assert (EscapeQuotes(s))[1..] == tail;
      }
      assert [s[0]] + s[1..] == s;
    }
  }

  /**
   * A selector with a `"` in it, quote-escaped inside page script that is
   * then escaped for AppleScript, leaves `\\"` in the literal: the backslash
   * escapes the backslash and the quote ends the AppleScript literal early.
   */
  lemma QuotedSelectorEndsLiteral(pre: string, p: string, q: string, post: string)
    requires '\\' !in pre && '\\' !in p && '"' !in p
    ensures DecodeQuoted(EscapeForAppleScript(pre + EscapeQuotes(p + "\"" + q) + post)) == None
  {
    EscapeQuotesAtFirstQuote(p, q);
    var rest := EscapeQuotes(q) + post;
    assert pre + EscapeQuotes(p + "\"" + q) + post == (pre + p) + ("\\" + ("\"" + rest));
    EscapeAppend(pre + p, "\\" + ("\"" + rest));
    EscapedBackslashQuote(rest);
    var tail := EscapeForAppleScript(rest);
    DecodeEscapedPrefix(pre + p, "\\\\\"" + tail);
    assert ("\\\\\"" + tail)[2..] == "\"" + tail;
  }

  /** Quote-escaping text whose first quote follows `p` puts a backslash right after `p`. */
  lemma EscapeQuotesAtFirstQuote(p: string, q: string)
    requires '"' !in p
    ensures EscapeQuotes(p + "\"" + q) == p + ("\\" + ("\"" + EscapeQuotes(q)))
  {
    assert p + "\"" + q == p + ("\"" + q);
    SubstituteAppend(p, "\"" + q, {'"'}, "\\\"");
    assert "\"" + q == ['"'] + q;
    assert EscapeQuotes("\"" + q) == "\\\"" + EscapeQuotes(q);
    SubstituteUnchanged(p, {'"'}, "\\\"");
  }

  /** A backslash and a quote escape to two backslashes and an escaped quote. */
  lemma EscapedBackslashQuote(rest: string)
    ensures EscapeForAppleScript("\\" + ("\"" + rest)) == "\\\\\"" + EscapeForAppleScript(rest)
  {
    EscapeCons('\\', "\"" + rest);
    EscapeCons('"', rest);
  }

  // ---------------------------------------------------------------------------
  // The shell word given to osascript
  // ---------------------------------------------------------------------------

  /** `s.replace(/'/g, "'\"'\"'")`: close the quote, a quote in double quotes, reopen. */
  function ShellEscape(s: string): string {
    Substitute(s, {'\''}, "'\"'\"'")
  }

  /** The AppleScript as one single-quoted shell word, as `runAppleScript` writes it. */
  function ShellQuote(s: string): string {
    "'" + ShellEscape(s) + "'"
  }

  /** The command line `runAppleScript` hands to the shell. */
  function OsascriptCommand(script: string): string {
    "osascript -e " + ShellQuote(script)
  }

  datatype QuoteState = Unquoted | InSingle | InDouble

  /** Characters that end a word or start an expansion when unquoted (POSIX.1-2017 Shell Command Language, section 2.2). */
  predicate ShellSpecial(c: char) {
    c in {'|', '&', ';', '<', '>', '(', ')', '$', '`', ' ', '\t', '\n', '*', '?', '[', '#', '~', '=', '%'}
  }

  /**
   * Quote removal for one shell word, after sections 2.2.1 (escape
   * character), 2.2.2 (single quotes) and 2.2.3 (double quotes) of the
   * POSIX.1-2017 Shell Command Language. None when the word has an
   * unterminated quote, or holds something that would end the word or
   * start an expansion (not modelled).
   */
  function Unquote(w: string, st: QuoteState): Option<string>
    decreases |w|
  {
    if w == [] then (if st == Unquoted then Some([]) else None)
    else match st
      case Unquoted =>
        if w[0] == '\'' then Unquote(w[1..], InSingle)
        else if w[0] == '"' then Unquote(w[1..], InDouble)
        else if w[0] == '\\' then
          if |w| == 1 then None
          else if w[1] == '\n' then Unquote(w[2..], Unquoted)
          else Prepend([w[1]], Unquote(w[2..], Unquoted))
        else if ShellSpecial(w[0]) then None
        else Prepend([w[0]], Unquote(w[1..], Unquoted))
      case InSingle =>
        if w[0] == '\'' then Unquote(w[1..], Unquoted)
        else Prepend([w[0]], Unquote(w[1..], InSingle))
      case InDouble =>
        if w[0] == '"' then Unquote(w[1..], Unquoted)
        else if w[0] == '\\' && |w| > 1 && w[1] in {'$', '`', '"', '\\', '\n'} then
          if w[1] == '\n' then Unquote(w[2..], InDouble)
          else Prepend([w[1]], Unquote(w[2..], InDouble))
        else if w[0] == '$' || w[0] == '`' then None
        else Prepend([w[0]], Unquote(w[1..], InDouble))
  }

  lemma PrependAssoc(a: string, b: string, o: Option<string>)
    ensures Prepend(a, Prepend(b, o)) == Prepend(a + b, o)
  {
    match o {
      case None =>
      case Some(x) => assert a + (b + x) == (a + b) + x;
    }
  }

  /** Inside single quotes, `'"'"'` closes the quotes, adds a quoted `'` and reopens them. */
  lemma UnquoteQuoteStep(tail: string)
    ensures Unquote("'\"'\"'" + tail, InSingle) == Prepend("'", Unquote(tail, InSingle))
  {
    var w := "'\"'\"'" + tail;
    assert w[1..] == "\"'\"'" + tail;
    assert w[2..] == "'\"'" + tail;
    assert w[3..] == "\"'" + tail;
    assert w[4..] == "'" + tail;
    assert w[5..] == tail;
    assert Unquote(w[4..], Unquoted) == Unquote(tail, InSingle);
    assert Unquote(w[2..], InDouble) == Prepend("'", Unquote(w[3..], InDouble));
  }

  /** Inside single quotes, any character but `'` stands for itself. */
  lemma UnquotePlainStep(c: char, tail: string)
    requires c != '\''
    ensures Unquote([c] + tail, InSingle) == Prepend([c], Unquote(tail, InSingle))
  {
    assert ([c] + tail)[1..] == tail;
  }

  /** Inside single quotes, the escaped text up to the closing quote unquotes to the original text. */
  lemma {:induction false} UnquoteEscaped(s: string, rest: string)
    ensures Unquote(ShellEscape(s) + "'" + rest, InSingle) == Prepend(s, Unquote(rest, Unquoted))
    decreases |s|
  {
    var w := ShellEscape(s) + "'" + rest;
    if s == [] {
      assert w == "'" + rest;
      assert w[1..] == rest;
      match Unquote(rest, Unquoted) {
        case None =>
        case Some(x) => assert s + x == x;
      }
    } else {
      UnquoteEscaped(s[1..], rest);
      var tail := ShellEscape(s[1..]) + "'" + rest;
      var o := Unquote(rest, Unquoted);
      var head := if s[0] == '\'' then "'\"'\"'" else [s[0]];
      assert ShellEscape(s) == head + ShellEscape(s[1..]);
      assert w == head + tail;
      if s[0] == '\'' {
        UnquoteQuoteStep(tail);
      } else {
        UnquotePlainStep(s[0], tail);
      }
      assert Unquote(w, InSingle) == Prepend([s[0]], Prepend(s[1..], o));
      PrependAssoc([s[0]], s[1..], o);
      assert [s[0]] + s[1..] == s;
    }
  }

  /** The shell hands `osascript` exactly the script, whatever quotes it holds. */
  lemma ShellQuoteRoundTrip(s: string)
    ensures Unquote(ShellQuote(s), Unquoted) == Some(s)
  {
    var w := ShellQuote(s);
    assert w[1..] == ShellEscape(s) + "'" + [];
    UnquoteEscaped(s, []);
    assert s + [] == s;
  }

  /** Every `'` costs four characters more, and the two enclosing quotes two. */
  lemma ShellQuoteLength(s: string)
    ensures |ShellQuote(s)| == |s| + 4 * Occurrences(s, {'\''}) + 2
  {
    SubstituteLength(s, {'\''}, "'\"'\"'");
  }
}
