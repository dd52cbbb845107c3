/**
 * The browser error monitor: the page-side buffer and listeners the init
 * script installs, the interval timer the server keeps, and the tick that
 * drains the buffer and forwards it to the client when a `claude` process
 * is running. Page events, the `osascript` outcomes, the process probe and
 * the clock are parameters; the page and the timer table are objects.
 */
module Monitor {
  import opened Wrappers
  import opened Text
  import opened Numbers
  import opened Execution
  import opened Notification
  import Elements

  /** The period used when `start_error_monitoring` names none, in milliseconds. */
  const DefaultInterval := 2000

  /** The page script that creates the buffer and registers the listeners, unless a buffer exists. */
  const InitScript :=
    "\n      if (!window.__mcpErrorMonitor) {"
    + "\n        window.__mcpErrorMonitor = {"
    + "\n          errors: [],"
    + "\n          listeners: []"
    + "\n        };"
    + "\n        "
    + "\n        // Track unhandled errors"
    + "\n        window.addEventListener('error', function(e) {"
    + "\n          window.__mcpErrorMonitor.errors.push({"
    + "\n            type: 'error',"
    + "\n            message: e.message,"
    + "\n            filename: e.filename,"
    + "\n            lineno: e.lineno,"
    + "\n            colno: e.colno,"
    + "\n            stack: e.error ? e.error.stack : 'No stack trace',"
    + "\n            timestamp: new Date().toISOString()"
    + "\n          });"
    + "\n        });"
    + "\n        "
    + "\n        // Track unhandled promise rejections"
    + "\n        window.addEventListener('unhandledrejection', function(e) {"
    + "\n          window.__mcpErrorMonitor.errors.push({"
    + "\n            type: 'unhandledRejection',"
    + "\n            reason: e.reason ? e.reason.toString() : 'Unknown',"
    + "\n            message: e.reason && e.reason.message ? e.reason.message"
    + " : e.reason,"
    + "\n            stack: e.reason && e.reason.stack ? e.reason.stack : 'No"
    + " stack trace',"
    + "\n            timestamp: new Date().toISOString()"
    + "\n          });"
    + "\n        });"
    + "\n        "
    + "\n        // Also monitor console.error calls"
    + "\n        const originalError = console.error;"
    + "\n        console.error = function(...args) {"
    + "\n          window.__mcpErrorMonitor.errors.push({"
    + "\n            type: 'console.error',"
    + "\n            message: args.join(' '),"
    + "\n            timestamp: new Date().toISOString()"
    + "\n          });"
    + "\n          originalError.apply(console, args);"
    + "\n        };"
    + "\n      }"
    + "\n      'Error monitoring initialized';"
    + "\n    "

  /** The page script that hands over the buffered records and empties the buffer. */
  const DrainScript :=
    "\n      if (window.__mcpErrorMonitor &&"
    + " window.__mcpErrorMonitor.errors.length > 0) {"
    + "\n        const errors = window.__mcpErrorMonitor.errors;"
    + "\n        window.__mcpErrorMonitor.errors = [];"
    + "\n        return JSON.stringify(errors);"
    + "\n      }"
    + "\n      return '[]';"
    + "\n    "

  /** The page script `stopErrorMonitoring` runs; its failure is ignored. */
  const ClearScript := "window.__mcpErrorMonitor = null;"

  /** The shell command that tells whether a `claude` process is running. */
  const ProbeCommand := "pgrep -f \"claude\" || true"

  /** `n` copies of a record. */
  function Copies(e: ErrorRecord, n: nat): (r: seq<ErrorRecord>)
    ensures |r| == n
    ensures forall i | 0 <= i < n :: r[i] == e
    decreases n
  {
    if n == 0 then [] else Copies(e, n - 1) + [e]
  }

  /** What a drain hands over: the buffered records, or none without a buffer. */
  function Pending(buffer: Option<seq<ErrorRecord>>): seq<ErrorRecord> {
    if buffer.Some? then buffer.value else []
  }

  /** The buffer after a drain. */
  function Drained(buffer: Option<seq<ErrorRecord>>): Option<seq<ErrorRecord>> {
    if buffer.Some? then Some([]) else None
  }

  /**
   * The tab's `window.__mcpErrorMonitor` (`None` when absent or null) and
   * the number of listener sets the init script has registered so far.
   * Listeners are never removed: nulling the buffer only hides it from them.
   */
  class Page {
    var buffer: Option<seq<ErrorRecord>>
    var listeners: nat

    constructor ()
      ensures buffer == None && listeners == 0
    {
      buffer := None;
      listeners := 0;
    }

    /** The init script: a buffer and one more listener set, only when no buffer is present. */
    method Install()
      modifies this
      ensures old(buffer).None? ==> buffer == Some([]) && listeners == old(listeners) + 1
      ensures old(buffer).Some? ==> buffer == old(buffer) && listeners == old(listeners)
    {
      if buffer.None? {
        buffer := Some([]);
        listeners := listeners + 1;
      }
    }

    /**
     * An error in the page. Every registered listener set pushes its own
     * record onto the current buffer; with no buffer each throws and
     * nothing is kept.
     */
    method Report(e: ErrorRecord)
      modifies this
      ensures listeners == old(listeners)
      ensures buffer == if old(buffer).Some? then Some(old(buffer).value + Copies(e, listeners)) else None
    {
      if buffer.Some? {
        buffer := Some(buffer.value + Copies(e, listeners));
      }
    }

    /** The drain script: everything buffered, leaving an empty buffer. */
    method Drain() returns (batch: seq<ErrorRecord>)
      modifies this
      ensures batch == Pending(old(buffer))
      ensures buffer == Drained(old(buffer))
      ensures listeners == old(listeners)
    {
      if buffer.Some? && |buffer.value| > 0 {
        batch := buffer.value;
        buffer := Some([]);
      } else {
        batch := [];
      }
    }

    /** The clear script. */
    method Clear()
      modifies this
      ensures buffer == None && listeners == old(listeners)
    {
      buffer := None;
    }
  }

  /** The runtime's interval timers: live handle to period, and the next handle to hand out. */
  class Timers {
    var live: map<nat, int>
    var next: nat

    predicate Valid()
      reads this
    {
      forall h | h in live :: h < next
    }

    constructor ()
      ensures Valid() && live == map[]
    {
      live := map[];
      next := 0;
    }

    /** `setInterval`: a handle no live timer has. */
    method SetInterval(period: int) returns (h: nat)
      requires Valid()
      modifies this
      ensures Valid()
      ensures h == old(next) && h !in old(live)
      ensures live == old(live)[h := period]
    {
      h := next;
      live := live[h := period];
      next := next + 1;
    }

    /** `clearInterval`: the timer stops; a handle that is not live changes nothing. */
    method ClearInterval(h: nat)
      requires Valid()
      modifies this
      ensures Valid()
      ensures live == old(live) - {h} && next == old(next)
    {
      live := live - {h};
    }
  }

  /** Whether the `pgrep` probe found a process: a failed probe counts as none. */
  function ClaudeCodeActive(probe: ExecOutcome): bool {
    probe.Done? && Trim(probe.stdout) != []
  }

  /** The probe reports a process exactly when it printed something other than whitespace. */
  lemma ClaudeCodeActiveIff(probe: ExecOutcome)
    ensures ClaudeCodeActive(probe) <==>
              probe.Done? && exists k | 0 <= k < |probe.stdout| :: !IsJsWhitespace(probe.stdout[k])
  {
    if probe.Done? {
      TrimEmpty(probe.stdout);
    }
  }

  /** Whether a drained batch is forwarded at all: records present, auto-send on, a process running. */
  predicate ShouldForward(batch: seq<ErrorRecord>, autoSend: bool, probe: ExecOutcome) {
    |batch| > 0 && autoSend && ClaudeCodeActive(probe)
  }

  /**
   * The external steps after a successful drain: the probe only for a
   * non-empty batch with auto-send on, the page information only when the
   * probe found a process.
   */
  function ForwardEffects(batch: seq<ErrorRecord>, autoSend: bool, probe: ExecOutcome): (effects: seq<Effect>)
    ensures Shell(ProbeCommand) in effects <==> |batch| > 0 && autoSend
    ensures AppleScript(PageInfoScript) in effects <==> ShouldForward(batch, autoSend, probe)
  {
    if |batch| > 0 && autoSend then
      [Shell(ProbeCommand)] + if ClaudeCodeActive(probe) then [AppleScript(PageInfoScript)] else []
    else []
  }

  /**
   * The notifications a drained batch produces: one when it is forwarded,
   * the page information is read and the client accepts it; a failure on
   * the way is logged and drops the batch.
   */
  function Forwarded(batch: seq<ErrorRecord>, autoSend: bool, probe: ExecOutcome, pageInfo: ExecOutcome,
                     accepted: bool, timestamp: string): (out: seq<Notification>)
    ensures |out| <= 1
    ensures out != [] <==> ShouldForward(batch, autoSend, probe) && pageInfo.Done? && accepted
    ensures out != [] ==> out[0] == ErrorNotification(batch, pageInfo, timestamp).value
  {
    if ShouldForward(batch, autoSend, probe) && accepted then
      match ErrorNotification(batch, pageInfo, timestamp)
      case Ok(n) => [n]
      case Err(_) => []
    else []
  }

  /** A forwarded batch names the tab's address and carries the whole batch, one summary line per record. */
  lemma ForwardedNotification(batch: seq<ErrorRecord>, probe: ExecOutcome, url: string, title: string,
                              tail: string, stderr: string, timestamp: string)
    requires ShouldForward(batch, true, probe) && '\n' !in url
    requires forall i | 0 <= i < |batch| :: SingleLine(batch[i])
    ensures Forwarded(batch, true, probe, Done(PageInfoText(url, title) + tail, stderr), true, timestamp)
              == [Notification("notifications/errors", batch, url, Summary(batch, url), timestamp)]
    ensures Split(Summary(batch, url), '\n') == [Header(|batch|, url)] + Lines(batch)
  {
    NotificationNamesPage(batch, url, title, tail, stderr, timestamp);
    SummaryLines(batch, url);
  }

  /** The text `startErrorMonitoring` returns. */
  function StartedText(interval: int, autoSend: bool): string {
    "Error monitoring started with " + IntToString(interval) + "ms interval. Auto-send to Claude: "
      + Elements.BoolText(autoSend)
  }

  const StoppedText := "Error monitoring stopped"

  /** The monitoring part of `SafariServer`. */
  class SafariServer {
    var errorMonitoringInterval: Option<nat>
    var autoSendToClaude: bool
    var sent: seq<Notification>
    const timers: Timers
    const page: Page

    /** At most one timer is live, and it is the one the server holds. */
    predicate Valid()
      reads this, timers
    {
      timers.Valid() && forall h | h in timers.live :: errorMonitoringInterval == Some(h)
    }

    constructor (page: Page)
      ensures Valid() && this.page == page && fresh(timers) && timers.live == map[]
      ensures errorMonitoringInterval == None && autoSendToClaude && sent == []
    {
      errorMonitoringInterval := None;
      autoSendToClaude := true;
      sent := [];
      timers := new Timers();
      this.page := page;
    }

    /** `clearInterval` on the held handle, if any; the field keeps the stale handle. */
    method StopTimer()
      requires Valid()
      modifies timers
      ensures Valid() && timers.live == map[]
      ensures timers.next == old(timers.next)
    {
      if errorMonitoringInterval.Some? {
        timers.ClearInterval(errorMonitoringInterval.value);
      }
      assert timers.live.Keys == {};
    }

    /**
     * `startErrorMonitoring`. The old timer is stopped and the auto-send
     * flag set before the init script runs; when that run fails, the error
     * is thrown with no timer live and the stale handle still held.
     */
    method StartErrorMonitoring(interval: Option<int>, autoSend: Option<bool>, init: ExecOutcome)
      returns (r: Result<string, McpError>, effects: seq<Effect>)
      requires Valid()
      modifies this, timers, page
      ensures Valid()
      ensures effects == [Evaluate(InitScript)]
      ensures autoSendToClaude == autoSend.GetOr(true)
      ensures sent == old(sent)
      ensures init.Failed? ==> && r == Err(AppleScriptResult(init).error)
                               && errorMonitoringInterval == old(errorMonitoringInterval)
                               && timers.live == map[]
                               && page.buffer == old(page.buffer) && page.listeners == old(page.listeners)
      ensures init.Done? ==> && r == Ok(StartedText(interval.GetOr(DefaultInterval), autoSend.GetOr(true)))
                             && errorMonitoringInterval == Some(old(timers.next))
                             && timers.live == map[old(timers.next) := interval.GetOr(DefaultInterval)]
      ensures init.Done? && old(page.buffer).None? ==> page.buffer == Some([]) && page.listeners == old(page.listeners) + 1
      ensures init.Done? && old(page.buffer).Some? ==> page.buffer == old(page.buffer) && page.listeners == old(page.listeners)
    {
      StopTimer();
      autoSendToClaude := autoSend.GetOr(true);
      effects := [Evaluate(InitScript)];
      if init.Failed? {
        r := Err(AppleScriptResult(init).error);
        return;
      }
      page.Install();
      var h := timers.SetInterval(interval.GetOr(DefaultInterval));
      errorMonitoringInterval := Some(h);
      r := Ok(StartedText(interval.GetOr(DefaultInterval), autoSend.GetOr(true)));
    }

    /** `stopErrorMonitoring`: no timer live, no handle held; the buffer is gone if the clear script ran. */
    method StopErrorMonitoring(clear: ExecOutcome) returns (text: string, effects: seq<Effect>)
      requires Valid()
      modifies this, timers, page
      ensures Valid() && errorMonitoringInterval == None && timers.live == map[]
      ensures text == StoppedText && effects == [Evaluate(ClearScript)]
      ensures autoSendToClaude == old(autoSendToClaude) && sent == old(sent)
      ensures page.buffer == (if clear.Done? then None else old(page.buffer))
      ensures page.listeners == old(page.listeners)
    {
      StopTimer();
      errorMonitoringInterval := None;
      effects := [Evaluate(ClearScript)];
      if clear.Done? {
        page.Clear();
      }
      text := StoppedText;
    }

    /** The send of `sendErrorNotification`: a built notification reaches `sent` when the client accepts it. */
    method Send(note: Result<Notification, McpError>, accepted: bool)
      modifies this
      ensures sent == old(sent) + if note.Ok? && accepted then [note.value] else []
      ensures errorMonitoringInterval == old(errorMonitoringInterval) && autoSendToClaude == old(autoSendToClaude)
    {
      if note.Ok? && accepted {
        sent := sent + [note.value];
      }
    }

    /**
     * `checkForErrors`: a failed drain is thrown with nothing taken from
     * the page; otherwise the batch leaves the page for good and is
     * forwarded or dropped.
     */
    method CheckForErrors(drain: ExecOutcome, probe: ExecOutcome, pageInfo: ExecOutcome, accepted: bool, timestamp: string)
      returns (thrown: Option<McpError>, effects: seq<Effect>)
      modifies this, page
      ensures errorMonitoringInterval == old(errorMonitoringInterval) && autoSendToClaude == old(autoSendToClaude)
      ensures page.listeners == old(page.listeners)
      ensures drain.Failed? ==> && thrown == Some(AppleScriptResult(drain).error)
                                && effects == [Evaluate(DrainScript)]
                                && page.buffer == old(page.buffer) && sent == old(sent)
      ensures drain.Done? ==> && thrown == None
                              && page.buffer == Drained(old(page.buffer))
                              && effects == [Evaluate(DrainScript)] + ForwardEffects(Pending(old(page.buffer)), autoSendToClaude, probe)
                              && sent == old(sent) + Forwarded(Pending(old(page.buffer)), autoSendToClaude, probe, pageInfo, accepted, timestamp)
    {
      effects := [Evaluate(DrainScript)];
      if drain.Failed? {
        thrown := Some(AppleScriptResult(drain).error);
        return;
      }
      thrown := None;
      var batch := page.Drain();
      effects := effects + ForwardEffects(batch, autoSendToClaude, probe);
      if ShouldForward(batch, autoSendToClaude, probe) {
        Send(ErrorNotification(batch, pageInfo, timestamp), accepted);
      }
    }

    /** One firing of the live interval timer: `checkForErrors` with whatever it throws logged and dropped. */
    method Tick(drain: ExecOutcome, probe: ExecOutcome, pageInfo: ExecOutcome, accepted: bool, timestamp: string)
      returns (effects: seq<Effect>)
      requires Valid() && errorMonitoringInterval.Some? && errorMonitoringInterval.value in timers.live
      modifies this, page
      ensures Valid() && errorMonitoringInterval == old(errorMonitoringInterval)
      ensures autoSendToClaude == old(autoSendToClaude) && page.listeners == old(page.listeners)
      ensures page.buffer == if drain.Done? then Drained(old(page.buffer)) else old(page.buffer)
      ensures sent == old(sent) + if drain.Done? then Forwarded(Pending(old(page.buffer)), autoSendToClaude, probe, pageInfo, accepted, timestamp) else []
      ensures effects == [Evaluate(DrainScript)] + if drain.Done? then ForwardEffects(Pending(old(page.buffer)), autoSendToClaude, probe) else []
    {
      var thrown;
      thrown, effects := CheckForErrors(drain, probe, pageInfo, accepted, timestamp);
    }
  }

  /**
   * A second drain right after a first finds nothing: no record is delivered
   * twice. An illustration, on a fresh tab, of what `Page.Drain` states in general.
   */
  method DrainTwice(buffer: seq<ErrorRecord>) returns (first: seq<ErrorRecord>, second: seq<ErrorRecord>)
    ensures first == buffer && second == []
  {
    var page := new Page();
    page.Install();
    page.buffer := Some(buffer);
    first := page.Drain();
    second := page.Drain();
  }

  /**
   * Starting twice leaves exactly one timer live, with the second period. An
   * illustration, on a fresh server, of what `StartErrorMonitoring` states in general.
   */
  method StartTwice(first: int, second: int, ok: ExecOutcome) returns (periods: seq<int>)
    requires ok.Done?
    ensures periods == [second]
  {
    var page := new Page();
    var server := new SafariServer(page);
    var _, _ := server.StartErrorMonitoring(Some(first), None, ok);
    var _, _ := server.StartErrorMonitoring(Some(second), None, ok);
    var h := server.errorMonitoringInterval.value;
    assert server.timers.live.Keys == {h};
    periods := [server.timers.live[h]];
  }

  /**
   * Stopping and starting again registers a second listener set on the
   * same tab: from then on each page error is drained twice. An illustration,
   * on a fresh tab, of what `Page.Install`, `Page.Clear` and `Page.Report` state
   * in general.
   */
  method RestartReportsTwice(e: ErrorRecord, ok: ExecOutcome) returns (batch: seq<ErrorRecord>)
    requires ok.Done?
    ensures batch == [e, e]
  {
    var page := new Page();
    var server := new SafariServer(page);
    var _, _ := server.StartErrorMonitoring(None, None, ok);
    var _, _ := server.StopErrorMonitoring(ok);
    var _, _ := server.StartErrorMonitoring(None, None, ok);
    page.Report(e);
    batch := page.Drain();
  }
}
