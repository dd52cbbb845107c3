/**
 * The element tools: the page script each one builds, the TypeScript-side
 * choice between `selectOption`'s criteria and `scrollTo`'s targets, and
 * `waitForElement`'s deadline-bounded poll. The page script is text: what
 * the browser would do with it is not modelled, only what reaches it.
 */
module Elements {
  import opened Wrappers
  import opened Text
  import opened Numbers
  import opened Quoting
  import opened Execution
  import opened Snippets

  /** `${b}` for a boolean. */
  function BoolText(b: bool): string {
    if b then "true" else "false"
  }

  datatype Behavior = Auto | Smooth

  function BehaviorText(b: Behavior): string {
    match b
    case Auto => "auto"
    case Smooth => "smooth"
  }

  // ---- Reaching the page -------------------------------------------------

  /** The AppleScript literal carrying `code` to the page fails to decode: Safari never runs the script. */
  predicate BreaksLiteral(code: string) {
    DecodeQuoted(WrappedCode(EscapeForAppleScript(code))) == None
  }

  /** The page receives the wrapper around exactly `code`. */
  predicate ReachesPage(code: string) {
    DecodeQuoted(WrappedCode(EscapeForAppleScript(code))) == Some(PageScript(code))
  }

  /**
   * A double quote in a selector is escaped twice, once by the tool and once
   * by `executeScript`, and the backslash the first escape adds is left alone
   * by the second: the quote then ends the AppleScript literal early, so a
   * script whose selector holds a double quote (with no backslash before it)
   * never reaches the page.
   */
  lemma QuoteBreaksScript(head: string, selector: string, rest: string, p: string, q: string)
    requires '\\' !in head
    requires selector == p + "\"" + q && '\\' !in p && '"' !in p
    ensures BreaksLiteral(head + EscapeQuotes(selector) + rest)
  {
    var code := head + EscapeQuotes(selector) + rest;
    WrappedCodeIsEscapedPageScript(code);
    WrapperHeadPlain();
    assert PageScript(code) == (WrapperHead + head) + EscapeQuotes(p + "\"" + q) + (rest + WrapperTail);
    QuotedSelectorEndsLiteral(WrapperHead + head, p, q, rest + WrapperTail);
  }

  /** Text with neither quotes nor backslashes is left alone by every escape. */
  lemma PlainTextUnescaped(s: string)
    requires '"' !in s && '\\' !in s
    ensures EscapeQuotes(s) == s
  {
    SubstituteUnchanged(s, {'"'}, "\\\"");
  }

  /** A selector with neither quotes nor backslashes reaches the page inside `clickElement`'s script. */
  lemma ClickElementReachesPage(selector: string)
    requires '"' !in selector && '\\' !in selector
    ensures ReachesPage(ClickElementScript(selector))
  {
    PlainTextUnescaped(selector);
    ClickScriptNoBackslash(selector);
    PageReceivesScript(ClickElementScript(selector));
  }

  /** A selector with a quote, and no backslash before it, keeps `clickElement`'s script from the page. */
  lemma ClickElementQuoteBreaks(p: string, q: string)
    requires '\\' !in p && '"' !in p
    ensures BreaksLiteral(ClickElementScript(p + "\"" + q))
  {
    var s := p + "\"" + q;
    ClickHeadNoBackslash();
    RegroupTail(ClickHead, EscapeQuotes(s), ClickPart1, EscapeQuotes(s), ClickTail);
    QuoteBreaksScript(ClickHead, s, ClickPart1 + EscapeQuotes(s) + ClickTail, p, q);
  }

  lemma RegroupTail(a: string, b: string, c: string, d: string, e: string)
    ensures a + b + c + d + e == a + b + (c + d + e)
  {
  }

  /** Likewise each `waitForElement` check reaches the page for a plain selector ... */
  lemma WaitForElementReachesPage(selector: string, visible: Option<bool>)
    requires '"' !in selector && '\\' !in selector
    ensures ReachesPage(WaitForElementScript(selector, visible))
  {
    PlainTextUnescaped(selector);
    assert '\\' !in BoolText(visible.GetOr(true));
    CheckScriptNoBackslash(selector, BoolText(visible.GetOr(true)));
    PageReceivesScript(WaitForElementScript(selector, visible));
  }

  /** ... and never for a selector with a quote and no backslash before it. */
  lemma WaitForElementQuoteBreaks(p: string, q: string, visible: Option<bool>)
    requires '\\' !in p && '"' !in p
    ensures BreaksLiteral(WaitForElementScript(p + "\"" + q, visible))
  {
    var s := p + "\"" + q;
    var v := BoolText(visible.GetOr(true));
    CheckHeadNoBackslash();
    RegroupTail(CheckHead, EscapeQuotes(s), CheckPart1, v, CheckTail);
    QuoteBreaksScript(CheckHead, s, CheckPart1 + v + CheckTail, p, q);
  }

  /** Text free of quotes, backslashes and line breaks is left alone by the full escape. */
  lemma PlainLineUnescaped(s: string)
    requires '"' !in s && '\\' !in s && '\n' !in s
    ensures EscapeForAppleScript(s) == s
  {
    PlainTextUnescaped(s);
    SubstituteUnchanged(s, {'\n'}, "\\n");
  }

  /** `typeText`'s script reaches the page for a plain selector and a plain one-line text. */
  lemma TypeTextReachesPage(selector: string, text: string, clearFirst: Option<bool>)
    requires '"' !in selector && '\\' !in selector
    requires '"' !in text && '\\' !in text && '\n' !in text
    ensures ReachesPage(TypeTextScript(selector, text, clearFirst))
  {
    PlainTextUnescaped(selector);
    PlainLineUnescaped(text);
    assert '\\' !in BoolText(clearFirst.GetOr(true));
    TypeScriptNoBackslash(selector, BoolText(clearFirst.GetOr(true)), text);
    PageReceivesScript(TypeTextScript(selector, text, clearFirst));
  }

  /** `getElementText`'s script reaches the page for a plain selector. */
  lemma ElementTextReachesPage(selector: string)
    requires '"' !in selector && '\\' !in selector
    ensures ReachesPage(ElementTextToolScript(selector))
  {
    PlainTextUnescaped(selector);
    ElementTextScriptNoBackslash(selector);
    PageReceivesScript(ElementTextToolScript(selector));
  }

  // ---- clickElement, typeText, getElementText ------------------------------

  function ClickElementScript(selector: string): string {
    ClickScript(EscapeQuotes(selector))
  }

  /**
   * `clickElement`: one `executeScript`, then, when asked to wait for a
   * navigation and only after the script succeeded, a two-second pause.
   */
  function ClickElement(selector: string, waitForNavigation: Option<bool>, o: ExecOutcome): (run: ToolRun)
    ensures run.result == ExecuteScriptResult(o)
    ensures |run.effects| == if waitForNavigation == Some(true) && o.Done? then 2 else 1
    ensures run.effects[0] == Evaluate(ClickElementScript(selector))
    ensures |run.effects| == 2 ==> run.effects[1] == Pause(2000)
  {
    var ran := [Evaluate(ClickElementScript(selector))];
    ToolRun(ExecuteScriptResult(o),
            if waitForNavigation == Some(true) && o.Done? then ran + [Pause(2000)] else ran)
  }

  /** `typeText`: the selector quote-escaped, the text escaped for quotes and newlines, clearing by default. */
  function TypeTextScript(selector: string, text: string, clearFirst: Option<bool>): string {
    TypeScript(EscapeQuotes(selector), BoolText(clearFirst.GetOr(true)), EscapeForAppleScript(text))
  }

  function ElementTextToolScript(selector: string): string {
    ElementTextScript(EscapeQuotes(selector))
  }

  // ---- scrollTo ------------------------------------------------------------

  datatype ScrollTarget = ToElement(selector: string) | ToPosition(x: int, y: int) | NoTarget

  /**
   * `scrollTo`'s choice: a non-empty selector wins; otherwise coordinates,
   * when at least one is given, with a missing one read as 0; otherwise
   * nothing.
   */
  function ChooseScrollTarget(selector: Option<string>, x: Option<int>, y: Option<int>): (t: ScrollTarget)
    ensures t.ToElement? <==> selector.Some? && selector.value != []
    ensures t.ToElement? ==> t.selector == selector.value
    ensures t.ToPosition? <==> (selector == None || selector == Some([])) && (x.Some? || y.Some?)
    ensures t.ToPosition? ==> t.x == x.GetOr(0) && t.y == y.GetOr(0)
  {
    if selector.Some? && selector.value != [] then ToElement(selector.value)
    else if x.Some? || y.Some? then ToPosition(x.GetOr(0), y.GetOr(0))
    else NoTarget
  }

  function ScrollToScript(selector: Option<string>, x: Option<int>, y: Option<int>, behavior: Option<Behavior>): string {
    var b := BehaviorText(behavior.GetOr(Auto));
    match ChooseScrollTarget(selector, x, y)
    case ToElement(s) => ScrollToElementScript(EscapeQuotes(s), b)
    case ToPosition(px, py) => ScrollToPositionScript(IntToString(px), IntToString(py), b)
    case NoTarget => NoScrollTargetScript
  }

  lemma NumeralNoBackslash(n: int)
    ensures '\\' !in IntToString(n)
  {
    IntToStringChars(n);
    forall i | 0 <= i < |IntToString(n)|
      ensures IntToString(n)[i] != '\\'
    {
      if IsDigit(IntToString(n)[i], 10) { DecimalDigitPlain(IntToString(n)[i]); }
    }
  }

  /** Every `scrollTo` script reaches the page when a given selector is plain. */
  lemma ScrollToReachesPage(selector: Option<string>, x: Option<int>, y: Option<int>, behavior: Option<Behavior>)
    requires selector.Some? ==> '"' !in selector.value && '\\' !in selector.value
    ensures ReachesPage(ScrollToScript(selector, x, y, behavior))
  {
    var b := BehaviorText(behavior.GetOr(Auto));
    assert '\\' !in b;
    match ChooseScrollTarget(selector, x, y) {
      case ToElement(s) =>
        PlainTextUnescaped(s);
        ScrollToElementScriptNoBackslash(EscapeQuotes(s), b);
      case ToPosition(px, py) =>
        NumeralNoBackslash(px);
        NumeralNoBackslash(py);
        ScrollToPositionScriptNoBackslash(IntToString(px), IntToString(py), b);
      case NoTarget =>
        NoScrollTargetScriptNoBackslash();
    }
    PageReceivesScript(ScrollToScript(selector, x, y, behavior));
  }

  /** Coordinates are ignored when a selector is given. */
  lemma ScrollSelectorOverridesPosition(s: string, x1: Option<int>, y1: Option<int>, x2: Option<int>, y2: Option<int>,
                                        behavior: Option<Behavior>)
    requires s != []
    ensures ScrollToScript(Some(s), x1, y1, behavior) == ScrollToScript(Some(s), x2, y2, behavior)
    ensures ScrollToScript(Some(s), x1, y1, behavior) == ScrollToElementScript(EscapeQuotes(s), BehaviorText(behavior.GetOr(Auto)))
  {
  }

  /** An empty selector counts as none; a missing coordinate is 0; the behaviour defaults to `auto`. */
  lemma ScrollDefaults(x: int, behavior: Option<Behavior>)
    ensures ScrollToScript(Some([]), Some(x), None, behavior) == ScrollToScript(None, Some(x), Some(0), behavior)
    ensures ScrollToScript(None, None, None, None) == ScrollToScript(Some([]), None, None, Some(Auto))
    ensures ScrollToScript(None, None, None, behavior) == NoScrollTargetScript
  {
  }

  // ---- selectOption --------------------------------------------------------

  datatype Criterion = ByValue(value: string) | ByText(text: string) | ByIndex(index: int) | NoCriterion

  /**
   * `selectOption`'s choice: a given value wins even when empty, then a
   * given text, then a given index (0 included).
   */
  function ChooseCriterion(value: Option<string>, text: Option<string>, index: Option<int>): (c: Criterion)
    ensures value.Some? ==> c == ByValue(value.value)
    ensures value.None? && text.Some? ==> c == ByText(text.value)
    ensures value.None? && text.None? && index.Some? ==> c == ByIndex(index.value)
    ensures c == NoCriterion <==> value.None? && text.None? && index.None?
  {
    if value.Some? then ByValue(value.value)
    else if text.Some? then ByText(text.value)
    else if index.Some? then ByIndex(index.value)
    else NoCriterion
  }

  /** The statement spliced into the `selectOption` script for a criterion. */
  function SelectionStatement(c: Criterion): string {
    match c
    case ByValue(v) => "element.value = \"" + EscapeQuotes(v) + "\";"
    case ByText(t) => ByTextStatement(EscapeQuotes(t))
    case ByIndex(i) => "element.selectedIndex = " + IntToString(i) + ";"
    case NoCriterion => "return 'No selection criteria provided';"
  }

  function SelectOptionScript(selector: string, value: Option<string>, text: Option<string>, index: Option<int>): string {
    SelectScript(EscapeQuotes(selector), SelectionStatement(ChooseCriterion(value, text, index)))
  }

  /** A value makes text and index irrelevant; a text makes the index irrelevant. */
  lemma SelectPrecedence(selector: string, v: string, t: string, text1: Option<string>, text2: Option<string>,
                         index1: Option<int>, index2: Option<int>)
    ensures SelectOptionScript(selector, Some(v), text1, index1) == SelectOptionScript(selector, Some(v), text2, index2)
    ensures SelectOptionScript(selector, None, Some(t), index1) == SelectOptionScript(selector, None, Some(t), index2)
    ensures SelectOptionScript(selector, None, None, None)
            == SelectScript(EscapeQuotes(selector), "return 'No selection criteria provided';")
  {
  }

  lemma SelectionStatementNoBackslash(c: Criterion)
    requires c.ByValue? ==> '"' !in c.value && '\\' !in c.value
    requires c.ByText? ==> '"' !in c.text && '\\' !in c.text
    ensures '\\' !in SelectionStatement(c)
  {
    match c {
      case ByValue(v) => ValueStatementNoBackslash(v);
      case ByText(t) => TextStatementNoBackslash(t);
      case ByIndex(i) => IndexStatementNoBackslash(i);
      case NoCriterion => NoCriterionStatementNoBackslash();
    }
  }

  lemma ValueStatementNoBackslash(v: string)
    requires '"' !in v && '\\' !in v
    ensures '\\' !in SelectionStatement(ByValue(v))
  {
    PlainTextUnescaped(v);
    NoBackslashAppend("element.value = \"", v);
    NoBackslashAppend("element.value = \"" + v, "\";");
  }

  lemma TextStatementNoBackslash(t: string)
    requires '"' !in t && '\\' !in t
    ensures '\\' !in SelectionStatement(ByText(t))
  {
    PlainTextUnescaped(t);
    ByTextStatementNoBackslash(t);
  }

  lemma IndexStatementNoBackslash(i: int)
    ensures '\\' !in SelectionStatement(ByIndex(i))
  {
    NumeralNoBackslash(i);
    NoBackslashAppend("element.selectedIndex = ", IntToString(i));
    NoBackslashAppend("element.selectedIndex = " + IntToString(i), ";");
  }

  lemma NoCriterionStatementNoBackslash()
    ensures '\\' !in SelectionStatement(NoCriterion)
  {
  }

  /** `selectOption`'s script reaches the page when the selector and any given value or text are plain. */
  lemma SelectOptionReachesPage(selector: string, value: Option<string>, text: Option<string>, index: Option<int>)
    requires '"' !in selector && '\\' !in selector
    requires value.Some? ==> '"' !in value.value && '\\' !in value.value
    requires text.Some? ==> '"' !in text.value && '\\' !in text.value
    ensures ReachesPage(SelectOptionScript(selector, value, text, index))
  {
    PlainTextUnescaped(selector);
    var c := ChooseCriterion(value, text, index);
    SelectionStatementNoBackslash(c);
    SelectScriptNoBackslash(selector, SelectionStatement(c));
    PageReceivesScript(SelectOptionScript(selector, value, text, index));
  }

  /** One `<option>` of a `<select>`. */
  datatype SelectOption = SelectOption(value: string, text: string)

  /**
   * A reference for what the by-text statement's page loop means: the first
   * option whose text is exactly `t` (the loop breaks at its first match), or
   * none. The DOM is not modelled, so nothing here is proved of the
   * statement's text itself.
   */
  function FirstTextMatch(options: seq<SelectOption>, t: string): (i: Option<nat>)
    ensures i.Some? ==> i.value < |options| && options[i.value].text == t
    ensures i.Some? ==> forall j | 0 <= j < i.value :: options[j].text != t
    ensures i.None? <==> forall j | 0 <= j < |options| :: options[j].text != t
    decreases |options|
  {
    if options == [] then None
    else if options[0].text == t then Some(0)
    else match FirstTextMatch(options[1..], t)
      case None => None
      case Some(k) => Some(k + 1)
  }

  // ---- waitForElement ------------------------------------------------------

  const DefaultTimeout := 10000
  const PollPeriod := 500

  function WaitForElementScript(selector: string, visible: Option<bool>): string {
    CheckScript(EscapeQuotes(selector), BoolText(visible.GetOr(true)))
  }

  /** A check finds the element when the page printed `true`, whitespace aside. */
  predicate Found(o: ExecOutcome) {
    o.Done? && Trim(o.stdout) == "true"
  }

  /** A check that ran and did not find the element. */
  predicate Declined(o: ExecOutcome) {
    o.Done? && Trim(o.stdout) != "true"
  }

  /**
   * `executeScript`'s text is `true` exactly when the page printed `true`:
   * neither of its stand-in messages is mistaken for a find.
   */
  lemma FoundIff(o: ExecOutcome)
    ensures ExecuteScriptResult(o) == Ok("true") <==> Found(o)
    ensures ExecuteScriptResult(o).Ok? && ExecuteScriptResult(o).value != "true" <==> Declined(o)
  {
    if o.Done? {
      ExecuteScriptTextTrue(Trim(o.stdout));
    }
  }

  /** One check: when it started, and the page script it handed to `executeScript`. */
  datatype CheckRun = CheckRun(at: int, code: string)

  function TimeoutError(selector: string): McpError {
    McpError(InternalError, "Timeout waiting for element: " + selector)
  }

  /** One check as `waitForElement` reads it: not there (yet), there, or `executeScript` failed. */
  datatype Reading = Absent | Present | Broken(error: McpError)

  /** How `waitForElement` reads one check from the outcome of its `executeScript`. */
  function ReadCheck(o: ExecOutcome): Reading {
    if o.Failed? then Broken(ExecuteScriptResult(o).error)
    else if ExecuteScriptResult(o).value == "true" then Present else Absent
  }

  /**
   * A check reads as present exactly when the page printed `true`, as absent
   * exactly when it printed anything else, and as broken, with
   * `runAppleScript`'s error, exactly when `osascript` failed.
   */
  lemma ReadCheckMeaning(o: ExecOutcome)
    ensures ReadCheck(o) == Present <==> Found(o)
    ensures ReadCheck(o) == Absent <==> Declined(o)
    ensures ReadCheck(o).Broken? <==> o.Failed?
    ensures ReadCheck(o).Broken? ==> ReadCheck(o).error == AppleScriptResult(o).error
  {
    if o.Done? {
      FoundIff(o);
      assert ExecuteScriptResult(o).Ok?;
    }
  }

  /** Each check starts at least `PollPeriod` after the one before it returned. */
  predicate Spaced(issued: seq<CheckRun>, execTime: nat -> nat) {
    forall k | 0 <= k < |issued| - 1 :: issued[k + 1].at >= issued[k].at + execTime(k) + PollPeriod
  }

  /**
   * The clock reading when the loop gives up: the start when no check ran,
   * otherwise the end of the sleep after the last check.
   */
  predicate GaveUpAt(issued: seq<CheckRun>, start: int, finished: int, execTime: nat -> nat, lag: nat -> nat) {
    if |issued| == 0 then finished == start
    else finished == issued[|issued| - 1].at + execTime(|issued| - 1) + PollPeriod + lag(|issued| - 1)
  }

  /**
   * The poll loop of `waitForElement` over an abstract clock. The clock
   * reads `start` when the loop begins; check k is the `osascript` run
   * with outcome `checks(k)`, reads as `read(checks(k))` and takes
   * `execTime(k)`, and the sleep after it lasts `PollPeriod + lag(k)`.
   * The method returns the reading it stopped at (none when time ran out),
   * the checks it ran, and the clock reading when it stopped.
   */
  method Poll(code: string, limit: int, start: int,
              checks: nat -> ExecOutcome, read: ExecOutcome -> Reading, execTime: nat -> nat, lag: nat -> nat)
    returns (stop: Option<Reading>, issued: seq<CheckRun>, finished: int)
    // every check runs the same page script, and none starts once `limit` has elapsed
    ensures forall k | 0 <= k < |issued| :: issued[k].code == code && issued[k].at - start < limit
    // the first check starts at once
    ensures |issued| > 0 ==> issued[0].at == start
    // consecutive checks are at least one poll period apart
    ensures Spaced(issued, execTime)
    // every check but the last read as absent
    ensures forall k | 0 <= k < |issued| - 1 :: read(checks(k)) == Absent
    // the loop stops at the first check that does not read as absent, as soon as it returns
    ensures stop.Some? ==>
              && |issued| > 0 && stop.value == read(checks(|issued| - 1)) && stop.value != Absent
              && finished == issued[|issued| - 1].at + execTime(|issued| - 1)
    // and otherwise only once `limit` has elapsed, at the end of the sleep after the last check
    ensures stop.None? ==> (|issued| == 0 || read(checks(|issued| - 1)) == Absent) && finished - start >= limit
    ensures stop.None? ==> GaveUpAt(issued, start, finished, execTime, lag)
  {
    var now := start;
    issued := [];
    while now - start < limit
      invariant forall k | 0 <= k < |issued| :: issued[k].code == code && issued[k].at - start < limit
      invariant |issued| > 0 ==> issued[0].at == start
      invariant GaveUpAt(issued, start, now, execTime, lag)
      invariant Spaced(issued, execTime)
      invariant forall k | 0 <= k < |issued| :: read(checks(k)) == Absent
      decreases start + limit - now
    {
      var k := |issued|;
      issued := issued + [CheckRun(now, code)];
      var r := read(checks(k));
      now := now + execTime(k);
      if r != Absent {
        return Some(r), issued, now;
      }
      now := now + PollPeriod + lag(k);
    }
    return None, issued, now;
  }

  /**
   * `waitForElement`: poll with the check script until the timeout (10000 ms
   * by default), reading each check with `ReadCheck`: a find answers
   * `Element found`, a failure to run a check is passed on at once, and
   * running out of time fails with the timeout error. `checks(k)` is the
   * outcome of the `osascript` run of check k.
   */
  method WaitForElement(selector: string, timeout: Option<int>, visible: Option<bool>, start: int,
                        checks: nat -> ExecOutcome, execTime: nat -> nat, lag: nat -> nat)
    returns (r: Result<string, McpError>, issued: seq<CheckRun>, finished: int)
    // every check runs the same script, with visibility required by default, and none starts
    // once the timeout (10000 ms by default) has elapsed
    ensures forall k | 0 <= k < |issued| ::
              issued[k].code == WaitForElementScript(selector, visible) && issued[k].at - start < timeout.GetOr(DefaultTimeout)
    // the first check starts at once, and each later one at least 500 ms after the one before returned
    ensures |issued| > 0 ==> issued[0].at == start
    ensures Spaced(issued, execTime)
    // every check but the last ran and did not find the element
    ensures forall k | 0 <= k < |issued| - 1 :: ReadCheck(checks(k)) == Absent
    // found exactly when the last check read as present (its text was `true`)
    ensures r.Ok? <==> |issued| > 0 && ReadCheck(checks(|issued| - 1)) == Present
    ensures r.Ok? ==> r.value == "Element found: " + selector
    // an execution failure ends the wait at once with that failure
    ensures |issued| > 0 && ReadCheck(checks(|issued| - 1)).Broken? ==>
              r == Err(ReadCheck(checks(|issued| - 1)).error)
              && finished == issued[|issued| - 1].at + execTime(|issued| - 1)
    // otherwise the wait times out, once the timeout has elapsed, at the end of the sleep after the last check
    ensures |issued| == 0 || ReadCheck(checks(|issued| - 1)) == Absent ==>
              r == Err(TimeoutError(selector)) && finished - start >= timeout.GetOr(DefaultTimeout)
              && GaveUpAt(issued, start, finished, execTime, lag)
    // so a wait that times out ends before the timeout plus the last check and one sleep
    ensures |issued| > 0 && ReadCheck(checks(|issued| - 1)) == Absent ==>
              finished - start < timeout.GetOr(DefaultTimeout) + execTime(|issued| - 1) + PollPeriod + lag(|issued| - 1)
  {
    var stop;
    stop, issued, finished := Poll(WaitForElementScript(selector, visible), timeout.GetOr(DefaultTimeout),
                                   start, checks, ReadCheck, execTime, lag);
    r := Answer(selector, stop);
  }

  /** What `waitForElement` answers for the reading its poll stopped at (none: time ran out). */
  function Answer(selector: string, stop: Option<Reading>): (r: Result<string, McpError>)
    ensures r.Ok? <==> stop == Some(Present)
    ensures r.Ok? ==> r.value == "Element found: " + selector
    ensures stop.Some? && stop.value.Broken? ==> r == Err(stop.value.error)
    ensures stop.None? || stop == Some(Absent) ==> r == Err(TimeoutError(selector))
  {
    match stop
    case None => Err(TimeoutError(selector))
    case Some(Present) => Ok("Element found: " + selector)
    case Some(Broken(e)) => Err(e)
    case Some(Absent) => Err(TimeoutError(selector))
  }
}
