/**
 * `takeScreenshot`: three capture strategies tried in a fixed order, the
 * later ones only when the earlier ones did not return. Every external step
 * (the System Events queries, `screencapture`, activating Safari) is an
 * outcome supplied in a `CaptureWorld`; the method returns the tool result
 * together with the trace of commands it ran and pauses it took.
 */
module Screenshot {
  import opened Wrappers
  import opened Text
  import opened Numbers
  import opened Quoting
  import opened Execution

  /** The outcomes of every external step the chain may take. */
  datatype CaptureWorld = CaptureWorld(
    boundsQuery: ExecOutcome,
    rectCapture: ExecOutcome,
    windowIdQuery: ExecOutcome,
    activation: ExecOutcome,
    windowCapture: ExecOutcome,
    fullscreen: ExecOutcome)

  const DefaultPrefix := "/tmp/safari-screenshot-"

  /** The ISO timestamp with every `:` and `.` replaced by `-`. */
  function TimestampPart(iso: string): (ts: string)
    ensures |ts| == |iso|
    ensures ':' !in ts && '.' !in ts
    ensures forall i | 0 <= i < |iso| :: ts[i] == (if iso[i] == ':' || iso[i] == '.' then '-' else iso[i])
  {
    SubstituteLength(iso, {':', '.'}, "-");
    SubstituteRemoves(iso, {':', '.'}, "-", ':');
    SubstituteRemoves(iso, {':', '.'}, "-", '.');
    SubstitutePointwise(iso, {':', '.'}, '-');
    Substitute(iso, {':', '.'}, "-")
  }

  /** `filename || ...`: the caller's filename when it is non-empty, else a fresh name in /tmp. */
  function ScreenshotPath(filename: Option<string>, iso: string): (path: string)
    ensures filename.Some? && filename.value != [] ==> path == filename.value
    ensures filename == None || filename == Some([]) ==>
              && path == DefaultPrefix + TimestampPart(iso) + ".png"
              && ':' !in path[|DefaultPrefix|..|path| - 4]
  {
    if filename.Some? && filename.value != [] then filename.value
    else
      var path := DefaultPrefix + TimestampPart(iso) + ".png";
      assert path[|DefaultPrefix|..|path| - 4] == TimestampPart(iso);
      path
  }

  const BoundsScript :=
    "\n        tell application \"System" + " Events\"" + "\n          tell process \"Safari\""
      + "\n            if exists window 1 then" + "\n              set theWindow to" + " window 1"
      + "\n              set windowBounds to" + " position of theWindow & size of" + " theWindow"
      + "\n              return (item 1 of" + " windowBounds as string) & \",\" &"
      + " (item 2 of windowBounds as string)" + " & \",\" & (item 1 of size of"
      + " theWindow as string) & \",\" & (item" + " 2 of size of theWindow as string)"
      + "\n            else" + "\n              return \"\"" + "\n            end if"
      + "\n          end tell" + "\n        end tell" + "\n      "

  const WindowIdScript :=
    "\n        tell application \"System" + " Events\"" + "\n          tell process \"Safari\""
      + "\n            if exists window 1 then" + "\n              return id of window 1"
      + "\n            else" + "\n              return \"\"" + "\n            end if"
      + "\n          end tell" + "\n        end tell" + "\n      "

  const ActivateScript := "tell application \"Safari\" to activate"

  function FullscreenScript(path: string): string {
    "\n        tell application \"Safari\"" + "\n          activate" + "\n        end tell"
      + "\n        delay 1" + "\n        do shell script" + " \"screencapture -x '" + path + "'\""
      + "\n      "
  }

  /** One destructured coordinate: `parseInt` of a part, or a part that is not there. */
  datatype Coordinate = Parsed(n: JsNumber) | Missing

  function CoordinateText(c: Coordinate): string {
    match c
    case Parsed(n) => NumberText(n)
    case Missing => "undefined"
  }

  /** Part `i` of `x,y,width,height`, trimmed and read with `parseInt`. */
  function CoordinateAt(parts: seq<string>, i: nat): Coordinate {
    if i < |parts| then Parsed(ParseInt(Trim(parts[i]))) else Missing
  }

  /** The `-R` rectangle argument made from the bounds text. */
  function Rectangle(bounds: string): string {
    var parts := Split(bounds, ',');
    CoordinateText(CoordinateAt(parts, 0)) + "," + CoordinateText(CoordinateAt(parts, 1)) + ","
      + CoordinateText(CoordinateAt(parts, 2)) + "," + CoordinateText(CoordinateAt(parts, 3))
  }

  function RectCaptureCommand(bounds: string, path: string): string {
    "screencapture -x -R" + Rectangle(bounds) + " \"" + path + "\""
  }

  function WindowCaptureCommand(windowId: string, path: string): string {
    "screencapture -o -l " + windowId + " -x \"" + path + "\""
  }

  /** Strategy 1 applies when the bounds text is non-empty and holds a comma. */
  predicate UsableBounds(bounds: string) {
    bounds != [] && ',' in bounds
  }

  /** Strategy 1 returns: the bounds query gave usable bounds and the capture ran. */
  predicate RectSucceeds(w: CaptureWorld) {
    && AppleScriptResult(w.boundsQuery).Ok?
    && UsableBounds(AppleScriptResult(w.boundsQuery).value)
    && w.rectCapture.Done?
  }

  /** Strategy 2 returns: a window id came back, Safari was activated and the capture ran. */
  predicate WindowSucceeds(w: CaptureWorld) {
    && AppleScriptResult(w.windowIdQuery).Ok?
    && AppleScriptResult(w.windowIdQuery).value != []
    && w.activation.Done?
    && w.windowCapture.Done?
  }

  /** What strategy 1 runs. */
  function RectEffects(w: CaptureWorld, path: string): seq<Effect> {
    [AppleScript(BoundsScript)]
      + match AppleScriptResult(w.boundsQuery)
        case Ok(bounds) => if UsableBounds(bounds) then [Shell(RectCaptureCommand(bounds, path))] else []
        case Err(_) => []
  }

  /** What strategy 2 runs; it stops at the first step that fails. */
  function WindowEffects(w: CaptureWorld, path: string): seq<Effect> {
    [AppleScript(WindowIdScript)]
      + match AppleScriptResult(w.windowIdQuery)
        case Ok(id) =>
          if id == [] then []
          else
            [AppleScript(ActivateScript)]
            + (if w.activation.Done? then [Pause(500), Shell(WindowCaptureCommand(id, path))] else [])
        case Err(_) => []
  }

  function SavedMessage(path: string): string {
    "Screenshot saved to: " + path
  }

  /**
   * The fallback chain. Strategy 2 runs only when strategy 1 did not
   * return, strategy 3 only when neither did; every success names the same
   * path; and the tool fails, with an InternalError carrying the message of
   * the fullscreen attempt, only when all three strategies fail.
   */
  method TakeScreenshot(filename: Option<string>, isoTimestamp: string, w: CaptureWorld)
    returns (r: Result<string, McpError>, effects: seq<Effect>)
    ensures RectSucceeds(w) ==>
              r == Ok(SavedMessage(ScreenshotPath(filename, isoTimestamp)))
              && effects == RectEffects(w, ScreenshotPath(filename, isoTimestamp))
    ensures !RectSucceeds(w) && WindowSucceeds(w) ==>
              r == Ok(SavedMessage(ScreenshotPath(filename, isoTimestamp)))
              && effects == RectEffects(w, ScreenshotPath(filename, isoTimestamp))
                            + WindowEffects(w, ScreenshotPath(filename, isoTimestamp))
    ensures !RectSucceeds(w) && !WindowSucceeds(w) ==>
              effects == RectEffects(w, ScreenshotPath(filename, isoTimestamp))
                         + WindowEffects(w, ScreenshotPath(filename, isoTimestamp))
                         + [AppleScript(FullscreenScript(ScreenshotPath(filename, isoTimestamp)))]
    ensures !RectSucceeds(w) && !WindowSucceeds(w) && w.fullscreen.Done? ==>
              r == Ok(SavedMessage(ScreenshotPath(filename, isoTimestamp)) + " (fullscreen capture)")
    ensures r.Err? <==> !RectSucceeds(w) && !WindowSucceeds(w) && w.fullscreen.Failed?
    ensures r.Err? ==>
              r.error == McpError(InternalError, "Failed to capture screenshot: "
                                                 + AppleScriptResult(w.fullscreen).error.message)
  {
    var path := ScreenshotPath(filename, isoTimestamp);
    var saved, rectEffects := TryRectangle(w, path);
    if saved {
      return Ok(SavedMessage(path)), rectEffects;
    }
    var windowEffects;
    saved, windowEffects := TryWindowId(w, path);
    if saved {
      return Ok(SavedMessage(path)), rectEffects + windowEffects;
    }

    // Strategy 3: the full screen.
    effects := rectEffects + windowEffects + [AppleScript(FullscreenScript(path))];
    match AppleScriptResult(w.fullscreen)
    case Ok(_) =>
      r := Ok(SavedMessage(path) + " (fullscreen capture)");
    case Err(e) =>
      r := Err(McpError(InternalError, "Failed to capture screenshot: " + e.message));
  }

  /** Strategy 1: capture the rectangle System Events reports for Safari's first window. */
  method TryRectangle(w: CaptureWorld, path: string) returns (saved: bool, effects: seq<Effect>)
    ensures saved == RectSucceeds(w)
    ensures effects == RectEffects(w, path)
  {
    effects := [AppleScript(BoundsScript)];
    var bounds := AppleScriptResult(w.boundsQuery);
    saved := false;
    if bounds.Ok? && UsableBounds(bounds.value) {
      effects := effects + [Shell(RectCaptureCommand(bounds.value, path))];
      saved := w.rectCapture.Done?;
    }
  }

  /** Strategy 2: bring Safari forward, wait, and capture its first window by id. */
  method TryWindowId(w: CaptureWorld, path: string) returns (saved: bool, effects: seq<Effect>)
    ensures saved == WindowSucceeds(w)
    ensures effects == WindowEffects(w, path)
  {
    effects := [AppleScript(WindowIdScript)];
    saved := false;
    match AppleScriptResult(w.windowIdQuery) {
      case Err(_) =>
      case Ok(id) =>
        if id != [] {
          effects := effects + [AppleScript(ActivateScript)];
          if w.activation.Done? {
            effects := effects + [Pause(500), Shell(WindowCaptureCommand(id, path))];
            saved := w.windowCapture.Done?;
          }
        }
    }
  }

  lemma JoinFour(a: string, b: string, c: string, d: string)
    ensures Join([a, b, c, d], ",") == a + "," + b + "," + c + "," + d
  {
    assert [c, d][1..] == [d];
    assert Join([c, d], ",") == c + "," + d;
    assert [b, c, d][1..] == [c, d];
    assert Join([b, c, d], ",") == b + "," + (c + "," + d);
    assert [a, b, c, d][1..] == [b, c, d];
    assert Join([a, b, c, d], ",") == a + "," + (b + "," + (c + "," + d));
  }

  /** A part that is the text of an integer is read back as that integer. */
  lemma CoordinateOfInteger(parts: seq<string>, i: nat, n: int)
    requires i < |parts| && parts[i] == IntToString(n)
    ensures CoordinateText(CoordinateAt(parts, i)) == IntToString(n)
  {
    IntToStringPlain(n);
    ParseIntOfIntToString(n);
  }

  /** The rectangle carries exactly the integers System Events reported. */
  lemma RectangleOfIntegers(x: int, y: int, width: int, height: int)
    ensures Rectangle(IntToString(x) + "," + IntToString(y) + "," + IntToString(width) + "," + IntToString(height))
            == IntToString(x) + "," + IntToString(y) + "," + IntToString(width) + "," + IntToString(height)
  {
    var parts := [IntToString(x), IntToString(y), IntToString(width), IntToString(height)];
    var text := IntToString(x) + "," + IntToString(y) + "," + IntToString(width) + "," + IntToString(height);
    SplitOfIntegers(parts, [x, y, width, height]);
    JoinFour(parts[0], parts[1], parts[2], parts[3]);
    assert Split(text, ',') == parts;
    CoordinateOfInteger(parts, 0, x);
    CoordinateOfInteger(parts, 1, y);
    CoordinateOfInteger(parts, 2, width);
    CoordinateOfInteger(parts, 3, height);
  }

  lemma SplitOfIntegers(parts: seq<string>, ns: seq<int>)
    requires |parts| == |ns| > 0
    requires forall i | 0 <= i < |parts| :: parts[i] == IntToString(ns[i])
    ensures Split(Join(parts, ","), ',') == parts
  {
    forall i | 0 <= i < |parts|
      ensures ',' !in parts[i]
    {
      IntToStringPlain(ns[i]);
    }
    SplitJoin(parts, ',');
  }

  /** Bounds with fewer than four parts leave the missing coordinates `undefined`. */
  lemma RectangleOfTwoParts(x: int, y: int)
    ensures Rectangle(IntToString(x) + "," + IntToString(y))
            == IntToString(x) + "," + IntToString(y) + "," + "undefined" + "," + "undefined"
  {
    var parts := [IntToString(x), IntToString(y)];
    var text := IntToString(x) + "," + IntToString(y);
    SplitOfIntegers(parts, [x, y]);
    assert Join(parts, ",") == text by {
      assert parts[1..] == [IntToString(y)];
    }
    assert Split(text, ',') == parts;
    CoordinateOfInteger(parts, 0, x);
    CoordinateOfInteger(parts, 1, y);
    assert CoordinateAt(parts, 2) == Missing && CoordinateAt(parts, 3) == Missing;
  }
}
