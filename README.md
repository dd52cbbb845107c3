# Safari MCP bridge — verified model

This project models the core of `SafariServer`, an MCP server that drives
Safari on macOS. Each tool call becomes a piece of page JavaScript. The
JavaScript is wrapped and escaped into an AppleScript `do JavaScript "…"`
literal, and the AppleScript is single-quoted into an `osascript -e '…'`
shell command. The server also runs a background error monitor: a timer
drains an in-page error buffer and forwards the errors to the client as a
`notifications/errors` message.

Every external step is an outcome supplied by the caller
(`Execution.ExecOutcome`: the process printed something, or it failed). This
covers `osascript`, `screencapture`, `pgrep` and the client's acceptance of
a notification. The model returns what the tool answers together with the
trace of steps it took (`Execution.Effect`). The clock is a parameter, and
the time a check takes is a function of its number.

The modules follow the parts of the source:

- `Text`, `Numbers`: the JavaScript string and number operations the source
  relies on. These are `replace` with a global pattern, `split`, `join`,
  `trim` with ECMAScript's whitespace set, `parseInt` and `${n}`.
- `Quoting`: the escapes. There is the JavaScript-to-AppleScript escape, the
  decoding of a double-quoted literal, and single-quoting for the shell
  together with POSIX quote removal.
- `Execution`: `runAppleScript`, `executeScript` and the wrapper it puts
  around page script.
- `Snippets`, `Elements`: the page scripts of the element tools. Also the
  TypeScript-side choice between `selectOption`'s criteria and `scrollTo`'s
  targets, and `waitForElement`'s poll.
- `Screenshot`: `takeScreenshot`'s three strategies.
- `Notification`, `Monitor`: the error monitor.
  - The tab's buffer is a `Page` object, and the runtime's interval timers
    are a `Timers` object.
  - `SafariServer` holds `errorMonitoringInterval`, `autoSendToClaude` and
    the notifications sent.

Consequences of the code as written, which the model keeps:

- Backslashes are never escaped, so page script survives the AppleScript
  literal exactly when it has no backslash. A quote in a selector is escaped
  twice. The tool's escape puts a backslash before it. `executeScript`'s
  escape leaves that backslash alone and puts a second one before the quote.
  The literal then holds `\\"`: AppleScript reads the two backslashes as one
  backslash, and the quote ends the literal early. Such a script never
  reaches the page.
- A line break in a selector, value or text that is only quote-escaped is
  written `\n` by `executeScript`'s escape. AppleScript turns it back into a
  line break, so it reaches the page raw, inside a JavaScript `"…"` literal,
  where it is a syntax error.
- The init script tests only for the buffer. `stopErrorMonitoring` nulls the
  buffer but never removes the listeners. Starting again after a stop
  therefore registers a second set of listeners, and from then on every page
  error is buffered twice (`Monitor.RestartReportsTwice`).
- When the init script's `osascript` run fails, `startErrorMonitoring` throws
  after it has already cleared the old timer and set `autoSendToClaude`. No
  timer is live afterwards, yet the field still holds the cleared handle.

## Model

| member | source | states |
|---|---|---|
| Text.SubstituteLength | src/index.ts:449 | a global one-character `replace` lengthens the text by (replacement length − 1) per occurrence |
| Text.SubstituteAppend | src/index.ts:449 | the global `replace` distributes over concatenation |
| Text.SubstituteRemoves | src/index.ts:516 | after the `replace`, no replaced character is left when the replacement does not contain it |
| Text.SubstituteKeeps | src/index.ts:449 | a character that is neither replaced nor in the replacement occurs after the `replace` exactly when it occurred before |
| Text.SubstitutePointwise | src/index.ts:516 | a one-character replacement keeps the length and changes exactly the replaced positions |
| Text.SubstituteUnchanged | src/index.ts:723 | text with no replaced character is left unchanged |
| Text.ReplaceFirstAtStart | src/index.ts:1097 | `replace('URL: ', '')` on text that starts with the pattern drops exactly that prefix |
| Text.Split | src/index.ts:539 | `split` always yields at least one part |
| Text.SplitNoSeparator | src/index.ts:1097 | a separator-free prefix becomes the start of the first part |
| Text.JoinSplit | src/index.ts:539 | joining the parts of a split with the same separator gives back the text |
| Text.SplitJoin | src/index.ts:1092-1094 | splitting a join of separator-free parts gives back the parts |
| Text.FirstLineOf | src/index.ts:1097 | the first line of `line + "\n" + rest` is `line` when `line` has no line break |
| Text.TrimStart | src/index.ts:943 | the result is a suffix of the input and does not start with whitespace |
| Text.TrimStartCuts | src/index.ts:943 | everything cut from the front is whitespace |
| Text.TrimEnd | src/index.ts:943 | the result is a prefix of the input and does not end with whitespace |
| Text.TrimEndCuts | src/index.ts:943 | everything cut from the back is whitespace |
| Text.Trim | src/index.ts:943 | `trim` is never longer than its input and has no whitespace at either end |
| Text.TrimSlice | src/index.ts:943 | `trim` keeps one contiguous slice of the input |
| Text.TrimCuts | src/index.ts:943 | what lies before and after that slice is whitespace |
| Text.TrimEmpty | src/index.ts:1084 | `trim` is empty exactly when every character is whitespace |
| Text.TrimIdempotent | src/index.ts:943 | trimming twice is trimming once |
| Text.TrimUnchanged | src/index.ts:539 | text with no whitespace at either end is its own trim |
| Numbers.DigitPrefix | src/index.ts:539 | the digits `parseInt` reads are the longest run of digits at the start |
| Numbers.NatToString | src/index.ts:542 | a natural number's text is a non-empty run of decimal digits with no leading zero |
| Numbers.ValueOfNatToString | src/index.ts:539 | the digits of `${n}` have the value n |
| Numbers.ParseMagnitudeOfNatToString | src/index.ts:539 | the magnitude reader gives back n from `${n}` |
| Numbers.ParseIntUnsigned | src/index.ts:539 | `parseInt` of unsigned text with no leading whitespace is its magnitude, or NaN when no digit comes first |
| Numbers.ParseIntMinus | src/index.ts:539 | `parseInt` of `-` before a magnitude is the negated magnitude |
| Numbers.ParseIntOfNatToString | src/index.ts:539 | `parseInt` reads back a natural number's text |
| Numbers.ParseIntOfNegated | src/index.ts:539 | `parseInt` reads back a negative number's text |
| Numbers.ParseIntOfIntToString | src/index.ts:539 | `parseInt(${n}) == n` for every integer n |
| Numbers.IntToStringChars | src/index.ts:542 | an integer's text is digits after an optional leading minus, ending in a digit |
| Numbers.IntToStringPlain | src/index.ts:539 | an integer's text has no surrounding whitespace and no comma |
| Quoting.EscapeCons | src/index.ts:449 | the escape works character by character |
| Quoting.EscapeAppend | src/index.ts:449 | the escape distributes over concatenation |
| Quoting.EscapeHasNoNewline | src/index.ts:449 | escaped text has no line break |
| Quoting.EscapeLength | src/index.ts:449 | escaped text is longer by exactly one character per quote and per line break |
| Quoting.DecodeEscapedPrefix | src/index.ts:449 | escaped backslash-free text, followed by anything, decodes to that text followed by the decoding of the rest |
| Quoting.DecodeEscapedChar | src/index.ts:449 | an escaped character other than a backslash decodes to itself |
| Quoting.EscapeRoundTrip | src/index.ts:449 | backslash-free text survives escape and decoding unchanged |
| Quoting.DecodeEscapedNotShifted | src/index.ts:449 | decoding escaped text never yields the text with backslashes in front, and yields the text itself only when it has no backslash |
| Quoting.NotShiftedPlain | src/index.ts:449 | the same, for text that starts with a character other than a backslash |
| Quoting.NotShiftedBackslash | src/index.ts:449 | text that starts with a backslash never decodes back to itself, with or without extra backslashes in front |
| Quoting.NotShiftedBackslashNewline | src/index.ts:449 | text that starts with a backslash and a line break never decodes back to itself, with or without extra backslashes in front |
| Quoting.NotShiftedTwoBackslashes | src/index.ts:449 | text that starts with two backslashes never decodes back to itself, with or without extra backslashes in front |
| Quoting.EscapeTwo | src/index.ts:449 | the escape of text two characters at a time |
| Quoting.EscapeRoundTripIff | src/index.ts:449 | the literal gives back exactly the page script if and only if the script has no backslash |
| Quoting.BackslashNBecomesNewline | src/index.ts:449 | the two characters `\n` in page script reach the page as a line break |
| Quoting.EscapeQuotesRoundTrip | src/index.ts:723-727 | inside the page's JavaScript `"…"` literal, a quote-escaped selector with no backslash reads back as itself exactly when it has no line feed or carriage return, and is a syntax error otherwise |
| Quoting.QuotedSelectorEndsLiteral | src/index.ts:723 | a quote-escaped selector with a `"`, escaped again for AppleScript, leaves a literal that does not decode |
| Quoting.EscapeQuotesAtFirstQuote | src/index.ts:723 | quote-escaping puts a backslash right before the first quote |
| Quoting.EscapedBackslashQuote | src/index.ts:449 | a backslash and a quote escape to two backslashes and an escaped quote |
| Quoting.UnquoteQuoteStep | src/index.ts:939 | inside single quotes, `'"'"'` stands for one `'` |
| Quoting.UnquotePlainStep | src/index.ts:939 | inside single quotes, any other character stands for itself |
| Quoting.UnquoteEscaped | src/index.ts:939 | the escaped script up to the closing quote unquotes to the script |
| Quoting.ShellQuoteRoundTrip | src/index.ts:939 | the shell hands `osascript` exactly the script, whatever quotes it holds |
| Quoting.ShellQuoteLength | src/index.ts:939 | quoting adds four characters per `'` and two for the enclosing quotes |
| Execution.AppleScriptResult | src/index.ts:937-951 | `runAppleScript` succeeds exactly when the process does; its value is the trimmed standard output; a failure is an InternalError with the message `AppleScript execution failed: ` followed by the process's message |
| Execution.StderrIgnored | src/index.ts:940-942 | standard error never changes the result |
| Execution.ExecuteScriptText | src/index.ts:473-490 | the tool text is never empty, and is the page's output unless that output is `undefined` or empty |
| Execution.ExecuteScriptTextTrue | src/index.ts:473-490 | the tool text is `true` exactly when the page's output is `true` |
| Execution.ExecuteScriptResult | src/index.ts:447-490 | `executeScript` succeeds exactly when its `osascript` run does; its value is the tool text made of the trimmed output, never empty; its failure is `runAppleScript`'s |
| Execution.WrapperHeadPlain | src/index.ts:452-455 | the wrapper's opening has no quote and no backslash |
| Execution.WrapperReturnPlain | src/index.ts:455-456 | the wrapper's return part has no quote and no backslash |
| Execution.WrapperCatchPlain | src/index.ts:457-461 | the wrapper's catch part has no quote and no backslash |
| Execution.WrapperTailPlain | src/index.ts:455-461 | the wrapper's closing has no quote and no backslash |
| Execution.EscapePlain | src/index.ts:461 | on quote- and backslash-free text, the full escape is the newline escape |
| Execution.EscapeAround | src/index.ts:449-461 | escaping the code, then escaping newlines of wrapper plus code, is escaping the whole once |
| Execution.WrappedCodeIsEscapedPageScript | src/index.ts:449-461 | the wrapped code is the escape of the wrapper around the code |
| Execution.PageReceivesScript | src/index.ts:449-466 | for backslash-free code, the AppleScript literal is one line and decodes to the wrapper around exactly that code |
| Execution.OsascriptReceivesScript | src/index.ts:939 | `osascript` receives exactly the AppleScript `executeScript` composed |
| Snippets.ClickScriptNoBackslash | src/index.ts:725-745 | `clickElement`'s page script has no backslash when its selector has none |
| Snippets.TypeScriptNoBackslash | src/index.ts:761-789 | `typeText`'s page script has no backslash when its parts have none |
| Snippets.ScrollToElementScriptNoBackslash | src/index.ts:799-808 | `scrollTo`'s element script has no backslash when its parts have none |
| Snippets.ScrollToPositionScriptNoBackslash | src/index.ts:810-819 | `scrollTo`'s position script has no backslash when its parts have none |
| Snippets.NoScrollTargetScriptNoBackslash | src/index.ts:821-825 | `scrollTo`'s no-target script has no backslash |
| Snippets.ByTextStatementNoBackslash | src/index.ts:841-848 | the by-text statement has no backslash when its text has none |
| Snippets.SelectScriptNoBackslash | src/index.ts:855-870 | `selectOption`'s page script has no backslash when its parts have none |
| Snippets.ElementTextScriptNoBackslash | src/index.ts:878-886 | `getElementText`'s page script has no backslash when its selector has none |
| Snippets.CheckScriptNoBackslash | src/index.ts:896-911 | `waitForElement`'s check script has no backslash when its parts have none |
| Elements.QuoteBreaksScript | src/index.ts:723 | a quote in a selector keeps any backslash-free script around it from the page |
| Elements.PlainTextUnescaped | src/index.ts:723 | quote-escaping changes nothing in text without quotes |
| Elements.ClickElementReachesPage | src/index.ts:723-747 | `clickElement`'s script reaches the page for a selector without quotes or backslashes |
| Elements.ClickElementQuoteBreaks | src/index.ts:723-747 | `clickElement`'s script never reaches the page for a selector with a quote and no earlier backslash |
| Elements.WaitForElementReachesPage | src/index.ts:892-913 | each `waitForElement` check reaches the page for a selector without quotes or backslashes |
| Elements.WaitForElementQuoteBreaks | src/index.ts:892-913 | each check never reaches the page for a selector with a quote and no earlier backslash |
| Elements.TypeTextReachesPage | src/index.ts:757-791 | `typeText`'s script reaches the page for a selector without quotes or backslashes and a one-line text without them |
| Elements.ElementTextReachesPage | src/index.ts:875-888 | `getElementText`'s script reaches the page for a selector without quotes or backslashes |
| Elements.ScrollToReachesPage | src/index.ts:797-828 | every `scrollTo` script reaches the page when any given selector is without quotes or backslashes |
| Elements.SelectOptionReachesPage | src/index.ts:832-872 | `selectOption`'s script reaches the page when the selector and any given value or text are without quotes or backslashes |
| Elements.ClickElement | src/index.ts:722-755 | `clickElement` answers `executeScript`'s result; it pauses 2000 ms afterwards only when asked to and only after a successful run |
| Elements.ChooseScrollTarget | src/index.ts:797-826 | `scrollTo` uses a non-empty selector first, else the coordinates when one is given (a missing one becomes 0), else no target |
| Elements.ScrollSelectorOverridesPosition | src/index.ts:797-808 | with a selector, the coordinates do not change the script |
| Elements.ScrollDefaults | src/index.ts:794-826 | an empty selector counts as none, a missing axis is 0, behaviour defaults to `auto`, and no target gives the "No scroll target specified" script |
| Elements.ChooseCriterion | src/index.ts:836-853 | `selectOption` uses a given value (even an empty one), then a text, then an index; no criterion only when none is given |
| Elements.SelectPrecedence | src/index.ts:836-853 | a value makes text and index irrelevant; a text makes the index irrelevant; none gives the "No selection criteria provided" script |
| Elements.FirstTextMatch | src/index.ts:841-848 | a reference for the meaning of the by-text statement's page loop, not a property of the statement's text (the DOM is not modelled): the first option whose text equals the given text exactly, and none exactly when no option matches |
| Elements.FoundIff | src/index.ts:913-914 | `executeScript`'s text is `true` exactly when the page printed `true` |
| Elements.ReadCheckMeaning | src/index.ts:913-916 | a check reads as present exactly when the page printed `true`, as absent when it printed anything else, and as broken with `runAppleScript`'s error when `osascript` failed |
| Elements.Poll | src/index.ts:893-930 | every check runs the same script and none starts once the limit has elapsed; the first starts at once; each later check starts at least 500 ms after the one before returned; every check but the last reads as absent; the loop stops at the first check not read as absent, as soon as it returns; else it stops once the limit has elapsed, exactly at the end of the sleep after the last check |
| Elements.Answer | src/index.ts:916-934 | found for a present reading; the check's own error for a broken one; the timeout error otherwise |
| Elements.WaitForElement | src/index.ts:891-935 | found exactly when the last check read `true`; an execution failure ends the wait at once with that failure; the timeout error once the timeout (10000 ms by default) has elapsed, at the end of the sleep after the last check, so before the timeout plus the last check's duration plus one sleep; every check runs the same script, none starts after the timeout, the first starts at once and each later one at least 500 ms after the one before returned |
| Screenshot.TimestampPart | src/index.ts:516 | every `:` and `.` of the timestamp becomes `-`, and nothing else changes |
| Screenshot.ScreenshotPath | src/index.ts:517 | a non-empty filename is used as given; otherwise `/tmp/safari-screenshot-<ts>.png` with no `:` in the timestamp part |
| Screenshot.TryRectangle | src/index.ts:519-555 | strategy 1 saves exactly when the bounds query gave text holding a comma and the capture ran |
| Screenshot.TryWindowId | src/index.ts:557-592 | strategy 2 saves exactly when a window id came back, Safari was activated and the capture ran; it stops at the first failing step |
| Screenshot.TakeScreenshot | src/index.ts:515-621 | strategy 2 runs only when 1 did not return, 3 only when neither did; every success names the same path; the InternalError comes only when all three fail, and carries the fullscreen failure's message |
| Screenshot.RectangleOfIntegers | src/index.ts:539-542 | the `-R` rectangle carries exactly the four integers System Events reported |
| Screenshot.RectangleOfTwoParts | src/index.ts:539-542 | missing coordinates are written `undefined` |
| Screenshot.CoordinateOfInteger | src/index.ts:539 | a part that is an integer's text is read back as that integer |
| Screenshot.SplitOfIntegers | src/index.ts:539 | splitting the comma-joined integer texts gives back the parts |
| Notification.RecordLineLocated | src/index.ts:1092-1094 | a summary line starts with `[type] message` and is longer exactly when `filename` is a non-empty string |
| Notification.TagOfRecordLine | src/index.ts:1093 | the type can be read back from between the line's brackets |
| Notification.KindTextInjective | src/index.ts:971-997 | the three record types have distinct `type` texts |
| Notification.UpToPrefix | src/index.ts:1093 | reading up to a stop character gives back a prefix free of it |
| Notification.Lines | src/index.ts:1092-1094 | one summary line per record, in order |
| Notification.NumeralSingleLine | src/index.ts:1093 | a number's text has no line break |
| Notification.LocationSingle | src/index.ts:1093 | the location suffix of a record with one-line fields has no line break |
| Notification.RecordLineSingle | src/index.ts:1093 | a record with one-line fields gives a one-line summary line |
| Notification.SummaryLines | src/index.ts:1092-1106 | the summary splits into its `Found N error(s) on <url>:` header and exactly one line per record, in order |
| Notification.PageUrlOfPageInfo | src/index.ts:495-512 | the address read back from `getPageInfo`'s trimmed output is the tab's address whenever it is one line |
| Notification.ErrorNotification | src/index.ts:1090-1106 | a failed page-information run is thrown before anything is built; otherwise the notification is `notifications/errors` with the records, the read-back address, the summary and the timestamp |
| Notification.NotificationNamesPage | src/index.ts:1096-1106 | the notification names the tab's one-line address |
| Monitor.Copies | src/index.ts:970-999 | n copies of a record |
| Monitor.ClaudeCodeActiveIff | src/index.ts:1080-1088 | the probe reports a running process exactly when `pgrep` ran and printed something other than whitespace; a failed probe counts as none |
| Monitor.ForwardEffects | src/index.ts:1066-1097 | `pgrep` runs only for a non-empty batch with auto-send on, and the page information is read only when the probe also found a process |
| Monitor.Forwarded | src/index.ts:1066-1113 | at most one notification; one exactly when the batch is non-empty, auto-send is on, the probe found a process, the page information was read and the client accepted it |
| Monitor.ForwardedNotification | src/index.ts:1066-1106 | a forwarded batch is sent whole, names the tab's address and carries one summary line per record |
| Monitor.Page.constructor | src/index.ts:963 | a fresh tab has no buffer and no listeners |
| Monitor.Page.Install | src/index.ts:963-1002 | the init script creates an empty buffer and one more listener set only when no buffer is present |
| Monitor.Page.Report | src/index.ts:970-999 | each registered listener set buffers its own copy of a page error; with no buffer nothing is kept |
| Monitor.Page.Drain | src/index.ts:1052-1059 | the drain hands over every buffered record and leaves an empty buffer; without a buffer it hands over nothing |
| Monitor.Page.Clear | src/index.ts:1036 | the clear script removes the buffer and leaves the listeners |
| Monitor.Timers.constructor | src/index.ts:1010 | no timer is live at first |
| Monitor.Timers.SetInterval | src/index.ts:1010-1016 | a new timer gets a handle no live timer has, with the given period, and every other timer is kept |
| Monitor.Timers.ClearInterval | src/index.ts:955-957 | clearing stops exactly that timer; a handle that is not live changes nothing |
| Monitor.SafariServer.constructor | src/index.ts:83-85 | no handle, auto-send on, no timer live |
| Monitor.SafariServer.StopTimer | src/index.ts:955-957 | clearing the held handle leaves no timer live |
| Monitor.SafariServer.StartErrorMonitoring | src/index.ts:953-1026 | the old timer is cleared and auto-send set (default true) before the init script runs; a failed run is thrown with no timer live and the old handle kept; otherwise exactly one timer is live, with the given period (default 2000), and the text names the period and the flag |
| Monitor.SafariServer.StopErrorMonitoring | src/index.ts:1028-1049 | no timer is live and no handle is held; the buffer is removed when the clear script ran, and its failure is ignored |
| Monitor.SafariServer.Send | src/index.ts:1100-1113 | a built notification is recorded as sent only when the client accepts it |
| Monitor.SafariServer.CheckForErrors | src/index.ts:1051-1078 | a failed drain is thrown with the buffer untouched; otherwise the batch leaves the page for good, whether it is forwarded or dropped |
| Monitor.SafariServer.Tick | src/index.ts:1010-1016 | a tick of the live timer never throws, keeps the timer, changes the buffer and the sent notifications as `checkForErrors` does, and runs the same steps: the drain script, then the forwarding steps when the drain ran |
| Monitor.DrainTwice | src/index.ts:1052-1059 | a second drain right after a first hands over nothing |
| Monitor.StartTwice | src/index.ts:953-1016 | starting twice leaves exactly one timer live, with the second period |
| Monitor.RestartReportsTwice | src/index.ts:963-1036 | after a start, a stop and another start on the same tab, a page error is drained twice |

## Left out

- MCP plumbing is not modelled: server construction, the tool list and its schemas, the request dispatcher and the stdio transport (src/index.ts:87-423, 1117-1125).
- `navigate`, `refreshPage`, `goBack`, `goForward`, `getConsoleLogs` and the `get_page_info` tool are one-line scripting plumbing. `getPageInfo` appears only as the AppleScript the notification path runs.
- Processes and Safari are outcomes supplied as parameters. A successful `osascript` run is taken to mean that the page script ran, and a failed one that it did not.
- DOM behaviour of the page scripts is not modelled (`querySelector`, visibility, events, the text `selectOption` returns). Nor is the fact that the snippets are nameless `function() {…}` declarations spliced in as a body, which the browser cannot parse. The model covers the scripts' text and the TypeScript-side branching.
- Real time is not modelled. `Date.now` is the start time plus check durations plus a lag function, and `toISOString` is a parameter. `clickElement`'s 2000 ms wait and the 500 ms delay in the window-id screenshot strategy are `Pause` effects. `waitForElement`'s 500 ms sleep is a clock step of `PollPeriod + lag(k)` in `Elements.Poll`.
- Monitor.Timers.SetInterval: Node's coercion of a period outside 1 to 2^31−1 into 1 is not modelled; the period is kept as given.
- StartedText: the period is an integer, so the text of a fractional `interval` is not modelled.
- Numbers.IntToString: JavaScript numbers are modelled as unbounded integers. The scroll coordinates, the `selectOption` index and the `waitForElement` timeout are integers. Fractional values (`${10.5}` is `10.5`), exponent notation from 1e21 upward and the loss of integer precision above 2^53 are not modelled.
- Quoting.DecodeJsQuoted: escapes that start with a digit, `x` or `u` are not decoded. The quote-escaped text it reads has a backslash only before a quote.
- JSON is not modelled. The drain hands over records as values. The record fields `stack`, `reason` and `timestamp` are dropped: no summary line uses them, and the records the notification forwards whole in its `errors` parameter (src/index.ts:1103) are modelled without them.
- Concurrency is not modelled: a tick racing a tool call, or a tick already running when monitoring stops.
- A page reload or navigation, which removes the buffer and the listeners, is not modelled.
- The `console.error` replacement throwing to its page caller when the buffer is null is not modelled beyond "nothing is kept".
- Logging through `console.error` is not modelled.
- The unused `lastErrorCount` field is not modelled.
- `pgrep -f "claude"` matching its own shell is part of the probe's outcome.
- Execution.AppleScriptResult: error messages are the message the code builds. The prefix the MCP SDK adds to `McpError` messages is not modelled.
