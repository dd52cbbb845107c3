/**
 * The execution channel: how `executeScript` wraps page script into an
 * AppleScript `do JavaScript` statement, how `runAppleScript` runs an
 * AppleScript through `osascript`, and how their outcomes become tool text
 * or an McpError. The subprocess itself is an outcome supplied from outside.
 */
module Execution {
  import opened Wrappers
  import opened Text
  import opened Quoting

  /** What one subprocess invocation (`execAsync`) comes back with. */
  datatype ExecOutcome = Done(stdout: string, stderr: string) | Failed(message: string)

  /**
   * One external step: an AppleScript run by `runAppleScript` (as the shell
   * command `OsascriptCommand(script)`), page script handed to
   * `executeScript` (which runs the AppleScript `ExecuteScriptSource(code)`),
   * another shell command run through `execAsync`, or a sleep.
   */
  datatype Effect = AppleScript(script: string) | Evaluate(code: string) | Shell(command: string) | Pause(ms: nat)

  datatype ErrorCode = InternalError | MethodNotFound | InvalidParams

  /** The error a tool call fails with (`McpError`). */
  datatype McpError = McpError(code: ErrorCode, message: string)

  /**
   * `runAppleScript`: the trimmed standard output, or an InternalError when
   * the subprocess fails. Standard error is only logged: it never turns a
   * successful exit into a failure.
   */
  function AppleScriptResult(o: ExecOutcome): (r: Result<string, McpError>)
    ensures r.Ok? <==> o.Done?
    ensures o.Done? ==> r == Ok(Trim(o.stdout))
    ensures r.Ok? ==> Trim(r.value) == r.value
    ensures o.Failed? ==> r.error == McpError(InternalError, "AppleScript execution failed: " + o.message)
  {
    match o
    case Done(out, _) =>
      TrimIdempotent(out);
      Ok(Trim(out))
    case Failed(msg) => Err(McpError(InternalError, "AppleScript execution failed: " + msg))
  }

  /** Standard error does not change what `runAppleScript` returns. */
  lemma StderrIgnored(out: string, err1: string, err2: string)
    ensures AppleScriptResult(Done(out, err1)) == AppleScriptResult(Done(out, err2))
    ensures AppleScriptResult(Done(out, err1)).Ok?
  {
  }

  // The wrapper `executeScript` puts around page script: a function whose
  // result is turned into a string, with thrown errors caught as 'Error: …'.
  const WrapperHead := "\n      (function() {" + "\n        try {" + "\n          var result = " + "(function() { "
  const WrapperTail := WrapperReturn + WrapperCatch
  const WrapperReturn := " })();" + "\n          return result " + "!== undefined " + "? String(result) "
    + ": 'undefined';"
  const WrapperCatch := "\n        } catch (e) {" + "\n          return 'Error: ' " + "+ e.toString();"
    + "\n        }" + "\n      })()" + "\n    "

  // The AppleScript around the wrapped page script.
  const ScriptHead := "\n      tell application \"Safari\"" + "\n        set jsResult to " + "do JavaScript \""
  const ScriptTail := "\" in current tab " + "of front window" + "\n        return jsResult" + "\n      end tell" + "\n    "

  /** The page script the browser is meant to run for `code`. */
  function PageScript(code: string): string {
    WrapperHead + code + WrapperTail
  }

  /** The wrapper around already-escaped code, with its own newlines escaped. */
  function WrappedCode(escapedCode: string): string {
    EscapeNewlines(WrapperHead + escapedCode + WrapperTail)
  }

  /** The AppleScript `executeScript` runs for page script `code`. */
  function ExecuteScriptSource(code: string): string {
    ScriptHead + WrappedCode(EscapeForAppleScript(code)) + ScriptTail
  }

  /** What a tool call returns, with the external steps it took. */
  datatype ToolRun = ToolRun(result: Result<string, McpError>, effects: seq<Effect>)

  /** The tool text `executeScript` makes of the AppleScript's output. */
  function ExecuteScriptText(output: string): (text: string)
    ensures text != []
    ensures output != [] && output != "undefined" ==> text == output
  {
    if output == "undefined" then "Script executed successfully (returned undefined)"
    else if output == [] then "Script executed successfully"
    else output
  }

  /** The tool text is `true` exactly when the page script returned `true`. */
  lemma ExecuteScriptTextTrue(output: string)
    ensures ExecuteScriptText(output) == "true" <==> output == "true"
  {
    if output == "undefined" || output == [] {
      assert |ExecuteScriptText(output)| != 4;
    }
  }

  /** `executeScript` as a whole, given the outcome of its one `osascript` run. */
  function ExecuteScriptResult(o: ExecOutcome): (r: Result<string, McpError>)
    ensures r.Ok? <==> o.Done?
    ensures o.Done? ==> r == Ok(ExecuteScriptText(Trim(o.stdout)))
    ensures r.Ok? ==> r.value != []
    ensures r.Err? ==> r == AppleScriptResult(o)
  {
    match AppleScriptResult(o)
    case Ok(output) => Ok(ExecuteScriptText(output))
    case Err(e) => Err(e)
  }

  /** Text the AppleScript escape leaves alone and the decoder takes verbatim. */
  predicate Plain(s: string) {
    '"' !in s && '\\' !in s
  }

  lemma PlainAppend(a: string, b: string)
    requires Plain(a) && Plain(b)
    ensures Plain(a + b)
  {
  }

  lemma WrapperHeadPlain()
    ensures Plain(WrapperHead)
  {
    assert Plain("\n      (function() {");
    assert Plain("\n        try {");
    assert Plain("\n          var result = ");
    assert Plain("(function() { ");
    PlainAppend("\n      (function() {", "\n        try {");
    PlainAppend("\n      (function() {" + "\n        try {", "\n          var result = ");
    PlainAppend("\n      (function() {" + "\n        try {" + "\n          var result = ", "(function() { ");
  }

  lemma WrapperTailPlain()
    ensures Plain(WrapperTail)
  {
    WrapperReturnPlain();
    WrapperCatchPlain();
    PlainAppend(WrapperReturn, WrapperCatch);
  }

  lemma WrapperReturnPlain()
    ensures Plain(WrapperReturn)
  {
    var parts := [" })();", "\n          return result ", "!== undefined ", "? String(result) ", ": 'undefined';"];
    assert Plain(parts[0]);
    assert Plain(parts[1]);
    assert Plain(parts[2]);
    assert Plain(parts[3]);
    assert Plain(parts[4]);
    var acc := parts[0];
    PlainAppend(acc, parts[1]); acc := acc + parts[1];
    PlainAppend(acc, parts[2]); acc := acc + parts[2];
    PlainAppend(acc, parts[3]); acc := acc + parts[3];
    PlainAppend(acc, parts[4]); acc := acc + parts[4];
    assert acc == WrapperReturn;
  }

  lemma WrapperCatchPlain()
    ensures Plain(WrapperCatch)
  {
    var parts := ["\n        } catch (e) {", "\n          return 'Error: ' ", "+ e.toString();",
      "\n        }", "\n      })()", "\n    "];
    assert Plain(parts[0]);
    assert Plain(parts[1]);
    assert Plain(parts[2]);
    assert Plain(parts[3]);
    assert Plain(parts[4]);
    assert Plain(parts[5]);
    var acc := parts[0];
    PlainAppend(acc, parts[1]); acc := acc + parts[1];
    PlainAppend(acc, parts[2]); acc := acc + parts[2];
    PlainAppend(acc, parts[3]); acc := acc + parts[3];
    PlainAppend(acc, parts[4]); acc := acc + parts[4];
    PlainAppend(acc, parts[5]); acc := acc + parts[5];
    assert acc == WrapperCatch;
  }

  lemma EscapePlain(h: string)
    requires Plain(h)
    ensures EscapeForAppleScript(h) == EscapeNewlines(h)
  {
    SubstituteUnchanged(h, {'"'}, "\\\"");
  }

  /** Escaping the parts and then the whole is escaping the whole once. */
  lemma EscapeAround(h: string, code: string, t: string)
    requires Plain(h) && Plain(t)
    ensures EscapeNewlines(h + EscapeForAppleScript(code) + t) == EscapeForAppleScript(h + code + t)
  {
    var e := EscapeForAppleScript(code);
    EscapeAppend(h, code);
    EscapeAppend(h + code, t);
    EscapePlain(h);
    EscapePlain(t);
    SubstituteAppend(h, e, {'\n'}, "\\n");
    SubstituteAppend(h + e, t, {'\n'}, "\\n");
    EscapeHasNoNewline(code);
    SubstituteUnchanged(e, {'\n'}, "\\n");
  }

  /** The wrapped code is the whole page script escaped at once. */
  lemma WrappedCodeIsEscapedPageScript(code: string)
    ensures WrappedCode(EscapeForAppleScript(code)) == EscapeForAppleScript(PageScript(code))
  {
    WrapperHeadPlain();
    WrapperTailPlain();
    EscapeAround(WrapperHead, code, WrapperTail);
  }

  /**
   * What reaches the browser: the AppleScript literal of `ExecuteScriptSource`
   * decodes to the wrapper around exactly the caller's code, and is one line,
   * whenever the code holds no backslash.
   */
  lemma PageReceivesScript(code: string)
    requires '\\' !in code
    ensures DecodeQuoted(WrappedCode(EscapeForAppleScript(code))) == Some(PageScript(code))
    ensures '\n' !in WrappedCode(EscapeForAppleScript(code))
  {
    WrappedCodeIsEscapedPageScript(code);
    WrapperHeadPlain();
    WrapperTailPlain();
    PlainAppend(WrapperHead, WrapperTail);
    assert PageScript(code) == WrapperHead + code + WrapperTail;
    EscapeRoundTrip(PageScript(code));
    EscapeHasNoNewline(PageScript(code));
  }

  /** The shell hands `osascript` exactly the AppleScript `executeScript` composed. */
  lemma OsascriptReceivesScript(code: string)
    ensures Unquote(ShellQuote(ExecuteScriptSource(code)), Unquoted) == Some(ExecuteScriptSource(code))
  {
    ShellQuoteRoundTrip(ExecuteScriptSource(code));
  }
}
