# Session accounting of the Hackatime Figma plugin

The Figma plugin in `figma-plugin/script.js` watches a designer's activity and reports
"design time" to Hackatime as heartbeats. Its logic is a small state machine over four
module-level variables: `isTracking`, `sessionStart` (the start of the current activity
window, or `null`), `totalTime` (whole seconds credited) and `currentProject`, plus the
`apiKey`. Four handlers change them:

- `startTracking` turns tracking on and opens a window, once;
- `onActivity` (selection and page changes) restarts the window;
- `sendHeartbeat` (every 30 seconds) measures the window in whole seconds, rounded down;
  under 120 seconds it credits them, builds a heartbeat record for the current project,
  hands it to `sendToHackatime` and restarts the window; at 120 or more it does nothing;
- the `documentchange` handler sends a heartbeat for the old project when tracking, then
  switches to the document root's name (`'Untitled'` when it has none) and restarts the
  window whether or not tracking is on.

`sendToHackatime` posts the record only when the API key is truthy.

The model makes the wall clock explicit: every handler takes `now`, an integer number of
milliseconds. `session.dfy` (module `Session`) gives each handler as a pure function on
the state, together with an event type and `Run`, the effect of the host calling handlers
in sequence. `tracker.dfy` (module `Plugin`) is the plugin itself: class `Tracker` holds
the variables as fields, and its methods update them in place. Each method is specified
by the corresponding `Session` function. It ends with three client scenarios.
`session_lemmas.dfy` (module `SessionLemmas`) proves properties of runs of handlers.

Two consequences of the code as written are proved rather than assumed:

- The comment at figma-plugin/script.js:53 says a heartbeat is sent only if the user
  was active in the last two minutes. The code does not keep that promise: line 72
  restarts the window on every heartbeat, just as activity does. So the 120-second rule
  measures the time since the last activity *or the last heartbeat*. Timer ticks less
  than two minutes apart credit time even when there is no activity at all
  (`RegularTicksAlwaysCredit`). The idle rule only trips when the timer itself stalls or the clock jumps forward.
- Nothing guards against a clock that steps back. While tracking, every heartbeat read
  before the window start still builds a payload and credits a negative amount
  (`ClockStepBackReducesTotal`). The monotonicity results therefore assume a clock that
  never goes backwards.

The code has no stop operation, no retry or backoff, no request timeout, no server-URL
setting and no connection probe, and neither does the model. `startTracking` leaves
`totalTime` as it is, and `onActivity` restarts the window even when tracking is off.

`Run` accepts any sequence of handler calls, including some the host cannot produce:
activity or ticks before lines 33-37 subscribe them, several `StartEvent`s, ticks at
arbitrary times. The lemmas about runs hold for all of these, so they hold for the
schedules the host does produce. `init` has no event of its own: setting the project
(line 20) and then starting (line 23) is the same as a `DocumentChangeEvent` followed by a
`StartEvent` at the same clock reading, from any state that is not tracking
(`InitIsDocumentChangeThenStart`). So the run lemmas cover `init` too.

## Model

| member | source | states |
|---|---|---|
| Session.HasApiKey | figma-plugin/script.js:77 | a key is usable exactly when it is neither null/undefined nor the empty string |
| Session.ProjectName | figma-plugin/script.js:20 | the project name is never empty: the root's name when it has one, `'Untitled'` otherwise |
| Session.Elapsed | figma-plugin/script.js:51 | the whole seconds `e` between the window start and `now`, rounded down (`1000e <= now - start < 1000e + 1000`); `e < 120` exactly when under 120000 ms passed; non-negative for a clock that did not step back |
| Session.MakePayload | figma-plugin/script.js:57-69 | the record names the current project as both `project` and `entity`, has `type` `'file'` and `category` `'designing'`, is stamped with `now`, and carries the fixed language, editor, machine, user agent and branch |
| Session.Start | figma-plugin/script.js:26-30 | when already tracking, nothing changes; otherwise tracking turns on and the window starts at `now`; `totalTime` and `currentProject` never change; the tracking invariant is kept |
| Session.Activity | figma-plugin/script.js:42-45 | the window restarts at `now`, tracking or not, and nothing else changes |
| Session.Heartbeat | figma-plugin/script.js:47-74 | a payload is built exactly when tracking, with a window start, and fewer than 120 whole seconds elapsed; without one nothing changes; with one `totalTime` grows by exactly the elapsed seconds, the window restarts at `now` and the payload is for the current project; every credit is below 120; for a clock that did not step back the total never decreases and the credit never exceeds the elapsed milliseconds |
| Session.DocumentChange | figma-plugin/script.js:103-113 | when tracking, the heartbeat runs first and its payload names the old project; afterwards the project is the root's name (defaulted) and the window restarts at `now` whether or not tracking is on; the tracking flag is unchanged |
| Session.Step | figma-plugin/script.js:23-113 | dispatching one host event (the `startTracking` call at line 23, the subscriptions and timer at lines 33-37, the handler at line 103) keeps the invariant, never clears a window start, and any payload names the project current before the event |
| Session.Run | figma-plugin/script.js:33-37 | a run of handler calls builds at most one payload per call and keeps the invariant "tracking implies a window start" |
| SessionLemmas.StartIsIdempotent | figma-plugin/script.js:27 | a second `startTracking` changes nothing |
| SessionLemmas.CreditWithinWallClock | figma-plugin/script.js:51-55 | along any run with a clock that never goes back, `totalTime` never decreases, and 1000 times what it gained is at most the time from the first window start to the last handler call |
| SessionLemmas.CreditOnlyWithHeartbeats | figma-plugin/script.js:54-55 | along any run, time is credited only with a heartbeat payload, and at most 119 seconds per payload |
| SessionLemmas.RegularTicksAlwaysCredit | figma-plugin/script.js:53-72 | while tracking, timer ticks each less than two minutes after the previous window start each produce a payload for the current project stamped with the tick time, with no activity at all |
| SessionLemmas.ClockStepBackReducesTotal | figma-plugin/script.js:51-55 | while tracking, every heartbeat whose clock reading precedes the window start still produces a payload and lowers `totalTime` |
| SessionLemmas.CreditFromNoWindow | figma-plugin/script.js:48-55 | from a state with no window, along a run with a clock that never goes back, the total does not decrease and 1000 times its gain is at most the span from a time no later than the first call to the last call |
| SessionLemmas.CreditFromLoad | figma-plugin/script.js:2-6 | from the load state, along a run with a clock that never goes back, the total is non-negative and 1000 times it is at most the span from the first handler call to the last |
| SessionLemmas.InvMakesWindowGuardDead | figma-plugin/script.js:48-54 | while tracking, the invariant leaves only the idle rule to decide: a payload is built exactly when under 120000 ms passed since the window start, so the `!sessionStart` test never fires |
| SessionLemmas.InitIsDocumentChangeThenStart | figma-plugin/script.js:20-23 | from any state that is not tracking, `init`'s project assignment and start equal a document change then a start at the same clock reading, with no payload |
| Plugin.Tracker.constructor | figma-plugin/script.js:2-6 | the variables start not tracking, with an empty project, no window, zero time and an empty key |
| Plugin.Tracker.Init | figma-plugin/script.js:9-24 | the key is the stored one when truthy, else the prompt's answer; the project is the root's name (defaulted); then tracking starts as `Session.Start` says |
| Plugin.Tracker.StartTracking | figma-plugin/script.js:26-40 | the new state is `Session.Start` of the old one; the key is untouched |
| Plugin.Tracker.OnActivity | figma-plugin/script.js:42-45 | the new state is `Session.Activity` of the old one; the key is untouched |
| Plugin.Tracker.SendToHackatime | figma-plugin/script.js:76-86 | a request carrying exactly the payload is issued if and only if the API key is truthy |
| Plugin.Tracker.SendHeartbeat | figma-plugin/script.js:47-74 | the new state and the payload are those of `Session.Heartbeat`; a request goes out exactly when a payload was built and the key is truthy; crediting does not depend on the key |
| Plugin.Tracker.OnDocumentChange | figma-plugin/script.js:103-113 | the new state and the flushed payload are those of `Session.DocumentChange`; a request goes out exactly when a payload was flushed and the key is truthy |

## Left out

- The HTTP request is not modelled. That covers `fetch`, its headers, JSON serialisation, the response handling and the `update-time` message to the UI (figma-plugin/script.js:79-99). It is network and UI I/O; the model only records which payload would be posted.
- `figma.clientStorage.getAsync` and `prompt` in `init` are not modelled as host calls. Their results are the parameters `storedKey` and `promptAnswer` of `Init`. The write back with `setAsync` (line 15) is host storage and is left out.
- The `figma.on` subscriptions, the `setInterval` timer and the final `init()` call are event wiring (lines 33-37, 103, 116). The model's callers invoke the handlers directly; `Run` plays the host calling them in some order.
- `console.log` and `console.error` are side-channel output only.
- The `operating_system` field of the heartbeat (`navigator.platform`) is a host value and is not part of `Payload`.
- Session.MakePayload: the `time` field is `now.getTime() / 1000`, a fractional number of seconds. The model keeps the exact millisecond count `timeMillis` instead of floating point.
- Session.Heartbeat: the code reads the clock twice when it credits time, once for the elapsed time (line 50) and once for the window restart (line 72). The model uses one `now` for both. The same holds for Plugin.Tracker.SendHeartbeat.
- Plugin.Tracker.SendHeartbeat: uses one `now` for the clock reads at lines 50 and 72, as `Session.Heartbeat` does.
- Session.DocumentChange: the handler reads the clock up to three times (lines 50, 72 and 111) when its heartbeat credits time. The model uses one `now` for all of them.
- Plugin.Tracker.OnDocumentChange: uses one `now` for the clock reads at lines 50, 72 and 111, as `Session.DocumentChange` does.
- JavaScript numbers are doubles. The model's integers are unbounded, so `totalTime` has no precision limit.
- Session.Heartbeat: assumes lines 57-72 run to the end. In the code the credit (line 55) comes before reading `navigator.platform` (line 62), the synchronous `fetch` call when the key is truthy (lines 71, 79) and the window restart (line 72). In a host where `navigator` or `fetch` is undefined, the throw keeps the credit but sends no payload and does not restart the window, so the next tick credits the same interval again. The model does not capture this.
- Plugin.Tracker.SendHeartbeat: makes the same assumption as `Session.Heartbeat` about lines 57-72 not throwing.
- Plugin.Tracker.OnDocumentChange: assumes the heartbeat at line 106 does not throw. In the code such a throw would also skip the project switch and the window restart (lines 110-111). The model does not capture this.
- Session.DocumentChange: makes the same assumption as `Plugin.Tracker.OnDocumentChange`.
- `prompt` may throw in a host that lacks it, which would abort `init`. Such exceptions are not modelled.
