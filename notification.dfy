/**
 * The notification the error monitor sends: one summary line per page
 * error, a header naming the page, and the page address read back from
 * `getPageInfo`'s text.
 */
module Notification {
  import opened Wrappers
  import opened Text
  import opened Numbers
  import opened Execution

  /** The three kinds of record the page-side monitor pushes. */
  datatype ErrorKind = UncaughtError | UnhandledRejection | ConsoleError

  /** The `type` field of a record. */
  function KindText(k: ErrorKind): string {
    match k
    case UncaughtError => "error"
    case UnhandledRejection => "unhandledRejection"
    case ConsoleError => "console.error"
  }

  /**
   * A page error as the drain hands it over. Only uncaught errors carry a
   * file position; an absent field reads as `undefined`.
   */
  datatype ErrorRecord = ErrorRecord(
    kind: ErrorKind,
    message: string,
    filename: Option<string>,
    lineno: Option<int>,
    colno: Option<int>)

  /** `${x}` for a field that may be missing. */
  function FieldText(x: Option<int>): string {
    match x
    case None => "undefined"
    case Some(n) => IntToString(n)
  }

  /** A record names a file exactly when its `filename` is a non-empty string. */
  predicate Located(e: ErrorRecord) {
    e.filename.Some? && e.filename.value != []
  }

  /** The part of a summary line before the optional location. */
  function LineHead(e: ErrorRecord): string {
    "[" + KindText(e.kind) + "] " + e.message
  }

  /** ` at file:line:col` for a located record, nothing otherwise. */
  function Location(e: ErrorRecord): string {
    if Located(e) then " at " + e.filename.value + ":" + FieldText(e.lineno) + ":" + FieldText(e.colno) else ""
  }

  /** One summary line: `[type] message`, then the location. */
  function RecordLine(e: ErrorRecord): string {
    LineHead(e) + Location(e)
  }

  /** The line starts with its head and is longer than it exactly when the record is located. */
  lemma RecordLineLocated(e: ErrorRecord)
    ensures RecordLine(e)[..|LineHead(e)|] == LineHead(e)
    ensures |RecordLine(e)| > |LineHead(e)| <==> Located(e)
  {
  }

  /** The text between the opening `[` and the first `]`. */
  function Tag(line: string): string {
    if line != [] && line[0] == '[' then UpTo(line[1..], ']') else []
  }

  /** The longest prefix free of `stop`. */
  function UpTo(s: string, stop: char): (r: string)
    ensures stop !in r
    decreases |s|
  {
    if s == [] || s[0] == stop then [] else [s[0]] + UpTo(s[1..], stop)
  }

  lemma {:induction false} UpToPrefix(p: string, rest: string, stop: char)
    requires stop !in p
    ensures UpTo(p + [stop] + rest, stop) == p
    decreases |p|
  {
    if p != [] {
      assert (p + [stop] + rest)[1..] == p[1..] + [stop] + rest;
      UpToPrefix(p[1..], rest, stop);
      assert [p[0]] + p[1..] == p;
    }
  }

  /** The type can be read back from a summary line, and it tells the kind. */
  lemma TagOfRecordLine(e: ErrorRecord)
    ensures Tag(RecordLine(e)) == KindText(e.kind)
  {
    var k := KindText(e.kind);
    var rest := " " + e.message + Location(e);
    assert RecordLine(e) == "[" + (k + "]" + rest);
    assert RecordLine(e)[1..] == k + "]" + rest;
    UpToPrefix(k, rest, ']');
  }

  lemma KindTextInjective(a: ErrorKind, b: ErrorKind)
    ensures KindText(a) == KindText(b) <==> a == b
  {
    if a != b {
      assert |KindText(a)| != |KindText(b)|;
    }
  }

  /** The lines of a batch, in order. */
  function Lines(errors: seq<ErrorRecord>): (lines: seq<string>)
    ensures |lines| == |errors|
    ensures forall i | 0 <= i < |errors| :: lines[i] == RecordLine(errors[i])
  {
    seq(|errors|, i requires 0 <= i < |errors| => RecordLine(errors[i]))
  }

  /** The first line of a summary. */
  function Header(count: nat, pageUrl: string): string {
    "Found " + IntToString(count) + " error(s) on " + pageUrl + ":"
  }

  /** The `summary` of the notification: the header, then one line per record. */
  function Summary(errors: seq<ErrorRecord>, pageUrl: string): string {
    Header(|errors|, pageUrl) + "\n" + Join(Lines(errors), "\n")
  }

  predicate SingleLine(e: ErrorRecord) {
    '\n' !in e.message && (e.filename.Some? ==> '\n' !in e.filename.value)
  }

  lemma NumeralSingleLine(n: int)
    ensures '\n' !in IntToString(n)
  {
    var d := NatToString(if n < 0 then -n else n);
    assert !IsDigit('\n', 10);
    assert forall i | 0 <= i < |d| :: d[i] != '\n';
  }

  lemma RecordLineSingle(e: ErrorRecord)
    requires SingleLine(e)
    ensures '\n' !in RecordLine(e)
  {
    assert '\n' !in LineHead(e);
    LocationSingle(e);
  }

  lemma LocationSingle(e: ErrorRecord)
    requires SingleLine(e)
    ensures '\n' !in Location(e)
  {
    if Located(e) {
      if e.lineno.Some? { NumeralSingleLine(e.lineno.value); }
      if e.colno.Some? { NumeralSingleLine(e.colno.value); }
    }
  }

  /**
   * With a one-line address and one-line records, the summary splits back
   * into its header and exactly one line per record, in order.
   */
  lemma SummaryLines(errors: seq<ErrorRecord>, pageUrl: string)
    requires |errors| > 0 && '\n' !in pageUrl
    requires forall i | 0 <= i < |errors| :: SingleLine(errors[i])
    ensures Split(Summary(errors, pageUrl), '\n') == [Header(|errors|, pageUrl)] + Lines(errors)
  {
    var parts := [Header(|errors|, pageUrl)] + Lines(errors);
    assert parts[1..] == Lines(errors);
    assert Join(parts, "\n") == Summary(errors, pageUrl);
    NumeralSingleLine(|errors|);
    forall i | 0 <= i < |parts|
      ensures '\n' !in parts[i]
    {
      if i > 0 { RecordLineSingle(errors[i - 1]); }
    }
    SplitJoin(parts, '\n');
  }

  /** The AppleScript of `getPageInfo`: the current tab's address and title on two lines. */
  const PageInfoScript :=
    "\n      tell application \"Safari\"" + "\n        set pageURL to URL of current tab of front window"
    + "\n        set pageTitle to name of current tab of front window"
    + "\n        set pageSource to source of current tab of front window"
    + "\n        return \"URL: \" & pageURL & \"\\nTitle: \" & pageTitle"
    + "\n      end tell" + "\n    "

  /** What that AppleScript returns for a tab. */
  function PageInfoText(url: string, title: string): string {
    "URL: " + url + "\n" + "Title: " + title
  }

  /** The address `sendErrorNotification` reads from the page information. */
  function PageUrl(text: string): string {
    ReplaceFirst(FirstLine(text), "URL: ", "")
  }

  /**
   * Whatever `osascript` appends to the page information and however the
   * output is trimmed, a one-line address is read back unchanged.
   */
  lemma PageUrlOfPageInfo(url: string, title: string, tail: string)
    requires '\n' !in url
    ensures PageUrl(Trim(PageInfoText(url, title) + tail)) == url
  {
    var rest := "Title: " + title + tail;
    var s := "URL: " + url + "\n" + rest;
    assert PageInfoText(url, title) + tail == s;
    TrimStartCuts(s);
    assert !IsJsWhitespace(s[0]);
    assert TrimStart(s) == s;
    var p := |"URL: " + url + "\n"| + 5;
    assert s[p] == ':';
    TrimEndCuts(s);
    var r := TrimEnd(s);
    assert |r| > p;
    assert r == "URL: " + url + "\n" + r[|"URL: " + url + "\n"|..];
    FirstLineOf("URL: " + url, r[|"URL: " + url + "\n"|..]);
    ReplaceFirstAtStart("URL: ", url, "");
  }

  /** The notification sent to the client. */
  datatype Notification = Notification(
    methodName: string,
    errors: seq<ErrorRecord>,
    pageUrl: string,
    summary: string,
    timestamp: string)

  /**
   * `sendErrorNotification` up to the send: the page information comes
   * from one `osascript` run whose failure is thrown before anything is
   * sent; the clock is the `timestamp` parameter.
   */
  function ErrorNotification(errors: seq<ErrorRecord>, pageInfo: ExecOutcome, timestamp: string)
    : (r: Result<Notification, McpError>)
    ensures r.Err? <==> pageInfo.Failed?
    ensures r.Err? ==> r.error == AppleScriptResult(pageInfo).error
    ensures r.Ok? ==> && r.value.methodName == "notifications/errors"
                      && r.value.errors == errors
                      && r.value.pageUrl == PageUrl(Trim(pageInfo.stdout))
                      && r.value.summary == Summary(errors, r.value.pageUrl)
                      && r.value.timestamp == timestamp
  {
    match AppleScriptResult(pageInfo)
    case Err(e) => Err(e)
    case Ok(text) =>
      var pageUrl := PageUrl(text);
      Ok(Notification("notifications/errors", errors, pageUrl, Summary(errors, pageUrl), timestamp))
  }

  /** For a tab with a one-line address, the notification names that address. */
  lemma NotificationNamesPage(errors: seq<ErrorRecord>, url: string, title: string, tail: string, stderr: string, timestamp: string)
    requires '\n' !in url
    ensures ErrorNotification(errors, Done(PageInfoText(url, title) + tail, stderr), timestamp).Ok?
    ensures ErrorNotification(errors, Done(PageInfoText(url, title) + tail, stderr), timestamp).value.pageUrl == url
  {
    PageUrlOfPageInfo(url, title, tail);
  }
}
