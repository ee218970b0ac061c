/**
 * The session-accounting state of the Figma time-tracking plugin, as pure values.
 *
 * The plugin keeps four module-level variables (whether tracking is on, the start of
 * the current activity window, the seconds credited so far and the current project)
 * and changes them from four handlers. This module gives each handler as a function
 * from the old state (and the wall clock, an explicit integer number of milliseconds)
 * to the new state and the heartbeat payload it builds, if any. The class in
 * tracker.dfy runs the same handlers in place and is specified by these functions.
 */
module Session {

  datatype Option<T> = None | Some(value: T)

  /** Milliseconds in one second of the heartbeat's elapsed-time arithmetic. */
  const MillisPerSecond: int := 1000

  /** A window of this many whole seconds or more counts as idle and earns no credit. */
  const IdleThresholdSeconds: int := 120

  /** The project name used when the document root has no name. */
  const Untitled: string := "Untitled"

  /**
   * The four module-level variables. `sessionStart` is `None` for the script's `null`
   * and otherwise the millisecond timestamp of the window start; `totalTime` is in
   * whole seconds.
   */
  datatype State = State(
    isTracking: bool,
    currentProject: string,
    sessionStart: Option<int>,
    totalTime: int)

  /** The state the script has when it is loaded, before `init` runs. */
  const Initial: State := State(false, "", None, 0)

  /** Once tracking is on, a window start is always known. */
  predicate Inv(s: State) {
    s.isTracking ==> s.sessionStart.Some?
  }

  /**
   * The heartbeat record handed to the sender. `timeMillis` is the timestamp the
   * payload's `time` field carries, kept as whole milliseconds: the field itself is
   * `timeMillis / 1000` seconds, a fractional number. The `type` key is spelt
   * `entityType` because `type` is a Dafny keyword.
   */
  datatype Payload = Payload(
    timeMillis: int,
    project: string,
    language: string,
    editor: string,
    machine: string,
    userAgent: string,
    branch: string,
    entity: string,
    entityType: string,
    category: string)

  /** JavaScript truthiness of the API key: neither null/undefined nor the empty string. */
  predicate HasApiKey(apiKey: Option<string>): (usable: bool)
    ensures usable <==> apiKey.Some? && |apiKey.value| > 0
  {
    apiKey.Some? && apiKey.value != ""
  }

  /** `figma.root.name || 'Untitled'`: the project name for a document root. */
  function ProjectName(rootName: string): (p: string)
    ensures p != ""
    ensures rootName != "" ==> p == rootName
    ensures rootName == "" ==> p == Untitled
  {
    if rootName != "" then rootName else Untitled
  }

  /** Whole seconds from `start` to `now`, rounded down as `Math.floor` does. */
  function Elapsed(start: int, now: int): (e: int)
    ensures 1000 * e <= now - start < 1000 * e + 1000
    ensures e < IdleThresholdSeconds <==> now - start < 120000
    ensures start <= now ==> 0 <= e
  {
    (now - start) / MillisPerSecond
  }

  /** The heartbeat record built at time `now` for `project`. */
  function MakePayload(now: int, project: string): (p: Payload)
    ensures p.project == project && p.entity == project
    ensures p.entityType == "file" && p.category == "designing"
    ensures p.timeMillis == now
    ensures p.language == "Figma" && p.editor == "Figma Desktop"
    ensures p.machine == "figma-user" && p.userAgent == "Figma Plugin" && p.branch == "main"
  {
    Payload(now, project, "Figma", "Figma Desktop", "figma-user", "Figma Plugin", "main",
            project, "file", "designing")
  }

  /** `startTracking`: turns tracking on once; a second call changes nothing. */
  function Start(s: State, now: int): (r: State)
    ensures r.isTracking
    ensures Inv(s) ==> Inv(r)
    ensures s.isTracking ==> r == s
    ensures !s.isTracking ==> r.sessionStart == Some(now)
    ensures r.totalTime == s.totalTime && r.currentProject == s.currentProject
  {
    if s.isTracking then s else s.(isTracking := true, sessionStart := Some(now))
  }

  /** `onActivity`: restarts the activity window, tracking or not. */
  function Activity(s: State, now: int): (r: State)
    ensures Inv(s) ==> Inv(r)
    ensures r.sessionStart == Some(now)
    ensures r.isTracking == s.isTracking && r.currentProject == s.currentProject
    ensures r.totalTime == s.totalTime
  {
    s.(sessionStart := Some(now))
  }

  /**
   * `sendHeartbeat`: when tracking, and the window that started at `sessionStart` is
   * shorter than the idle threshold, credits its whole seconds, builds a payload for
   * the current project and restarts the window; otherwise changes nothing.
   */
  function Heartbeat(s: State, now: int): (r: (State, Option<Payload>))
    ensures Inv(s) ==> Inv(r.0)
    ensures r.1.Some? <==>
      s.isTracking && s.sessionStart.Some? && Elapsed(s.sessionStart.value, now) < IdleThresholdSeconds
    ensures r.1.None? ==> r.0 == s
    ensures r.1.Some? ==>
      r.0.totalTime == s.totalTime + Elapsed(s.sessionStart.value, now) &&
      r.0.sessionStart == Some(now)
    ensures r.0.isTracking == s.isTracking && r.0.currentProject == s.currentProject
    ensures r.1.Some? ==> r.1.value == MakePayload(now, s.currentProject)
    ensures r.0.totalTime - s.totalTime < IdleThresholdSeconds
    ensures s.sessionStart.Some? && s.sessionStart.value <= now ==>
      s.totalTime <= r.0.totalTime &&
      1000 * (r.0.totalTime - s.totalTime) <= now - s.sessionStart.value
  {
    if !s.isTracking || s.sessionStart.None? then (s, None)
    else
      var sessionTime := Elapsed(s.sessionStart.value, now);
      if sessionTime < IdleThresholdSeconds then
        (s.(totalTime := s.totalTime + sessionTime, sessionStart := Some(now)),
         Some(MakePayload(now, s.currentProject)))
      else (s, None)
  }

  /**
   * The `documentchange` handler: when tracking, runs the heartbeat for the project
   * that is still current; then switches to the new root's name and restarts the
   * window, tracking or not.
   */
  function DocumentChange(s: State, now: int, rootName: string): (r: (State, Option<Payload>))
    ensures Inv(s) ==> Inv(r.0)
    ensures r.1 == (if s.isTracking then Heartbeat(s, now).1 else None)
    ensures r.1.Some? ==> r.1.value.project == s.currentProject && r.1.value.entity == s.currentProject
    ensures r.0.currentProject == ProjectName(rootName)
    ensures r.0.sessionStart == Some(now) && r.0.isTracking == s.isTracking
    ensures r.0.totalTime == (if s.isTracking then Heartbeat(s, now).0.totalTime else s.totalTime)
  {
    var (flushed, payload) := if s.isTracking then Heartbeat(s, now) else (s, None);
    (flushed.(currentProject := ProjectName(rootName), sessionStart := Some(now)), payload)
  }

  /** One call of a handler by the host, with the clock reading it sees. */
  datatype Event =
    | StartEvent(now: int)
    | ActivityEvent(now: int)
    | TimerTick(now: int)
    | DocumentChangeEvent(now: int, rootName: string)

  function Time(e: Event): int {
    e.now
  }

  function Step(s: State, e: Event): (r: (State, Option<Payload>))
    ensures Inv(s) ==> Inv(r.0)
    ensures r.1.Some? ==> r.1.value.project == s.currentProject
    ensures s.sessionStart.Some? ==> r.0.sessionStart.Some?
  {
    match e
    case StartEvent(now) => (Start(s, now), None)
    case ActivityEvent(now) => (Activity(s, now), None)
    case TimerTick(now) => Heartbeat(s, now)
    case DocumentChangeEvent(now, rootName) => DocumentChange(s, now, rootName)
  }

  function ToSeq<T>(o: Option<T>): (r: seq<T>)
    ensures |r| <= 1
  {
    if o.Some? then [o.value] else []
  }

  /** The state after the host calls the handlers of `events` in order, and the payloads built. */
  function Run(s: State, events: seq<Event>): (r: (State, seq<Payload>))
    ensures |r.1| <= |events|
    ensures Inv(s) ==> Inv(r.0)
    decreases |events|
  {
    if events == [] then (s, [])
    else
      var (next, payload) := Step(s, events[0]);
      var (last, payloads) := Run(next, events[1..]);
      (last, ToSeq(payload) + payloads)
  }
}
