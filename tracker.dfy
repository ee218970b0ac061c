/**
 * The plugin's module-level variables as one object whose handlers update them in
 * place. Each handler takes the wall clock as `now`, in milliseconds; the host's
 * event subscriptions and the 30-second timer are the callers of these methods.
 */
module Plugin {
  import opened Session

  class Tracker {
    var isTracking: bool
    var currentProject: string
    var sessionStart: Option<int>
    var totalTime: int
    /** `None` for the `null`/`undefined` that storage or the prompt may yield. */
    var apiKey: Option<string>

    /** The four session variables as a value. */
    function Snapshot(): Session.State
      reads this
    {
      Session.State(isTracking, currentProject, sessionStart, totalTime)
    }

    ghost predicate Valid()
      reads this
    {
      Inv(Snapshot())
    }

    /** The variables as the script declares them, before `init` runs. */
    constructor ()
      ensures Valid()
      ensures Snapshot() == Initial && apiKey == Some("")
    {
      isTracking := false;
      currentProject := "";
      sessionStart := None;
      totalTime := 0;
      apiKey := Some("");
    }

    /**
     * `init`: takes the stored API key, or the answer to the prompt when there is no
     * usable stored key; names the project after the document root; starts tracking.
     * The two host reads are the parameters `storedKey` and `promptAnswer`.
     */
    method Init(storedKey: Option<string>, promptAnswer: Option<string>, rootName: string, now: int)
      requires Valid()
      modifies this
      ensures Valid()
      ensures apiKey == (if HasApiKey(storedKey) then storedKey else promptAnswer)
      ensures Snapshot() == Start(old(Snapshot()).(currentProject := ProjectName(rootName)), now)
    {
      apiKey := storedKey;
      if !HasApiKey(apiKey) {
        apiKey := promptAnswer;
      }
      currentProject := ProjectName(rootName);
      StartTracking(now);
    }

    /** `startTracking`: does nothing when already tracking. */
    method StartTracking(now: int)
      requires Valid()
      modifies this
      ensures Valid()
      ensures Snapshot() == Start(old(Snapshot()), now)
      ensures apiKey == old(apiKey)
    {
      if isTracking {
        return;
      }
      isTracking := true;
      sessionStart := Some(now);
    }

    /** `onActivity`: restarts the activity window; it has no tracking guard. */
    method OnActivity(now: int)
      requires Valid()
      modifies this
      ensures Valid()
      ensures Snapshot() == Activity(old(Snapshot()), now)
      ensures apiKey == old(apiKey)
    {
      sessionStart := Some(now);
    }

    /**
     * `sendToHackatime`: the payload goes out in a request only when the API key is
     * truthy; the request itself is not part of this model.
     */
    method SendToHackatime(data: Payload) returns (request: Option<Payload>)
      ensures request.Some? <==> HasApiKey(apiKey)
      ensures request.Some? ==> request.value == data
    {
      if !HasApiKey(apiKey) {
        return None;
      }
      request := Some(data);
    }

    /**
     * `sendHeartbeat`: `payload` is the record built (if any) and `request` what is
     * handed to the network. Crediting and the window restart do not depend on the
     * API key.
     */
    method SendHeartbeat(now: int) returns (payload: Option<Payload>, request: Option<Payload>)
      requires Valid()
      modifies this
      ensures Valid()
      ensures (Snapshot(), payload) == Heartbeat(old(Snapshot()), now)
      ensures request.Some? <==> payload.Some? && HasApiKey(apiKey)
      ensures request.Some? ==> request == payload
      ensures apiKey == old(apiKey)
    {
      payload, request := None, None;
      if !isTracking || sessionStart.None? {
        return;
      }
      var sessionTime := Elapsed(sessionStart.value, now);
      if sessionTime < IdleThresholdSeconds {
        totalTime := totalTime + sessionTime;
        var data := MakePayload(now, currentProject);
        payload := Some(data);
        request := SendToHackatime(data);
        sessionStart := Some(now);
      }
    }

    /**
     * The `documentchange` handler: when tracking, sends the heartbeat for the project
     * that is still current, then switches project and restarts the window.
     */
    method OnDocumentChange(now: int, rootName: string) returns (payload: Option<Payload>, request: Option<Payload>)
      requires Valid()
      modifies this
      ensures Valid()
      ensures (Snapshot(), payload) == DocumentChange(old(Snapshot()), now, rootName)
      ensures request.Some? <==> payload.Some? && HasApiKey(apiKey)
      ensures request.Some? ==> request == payload
      ensures apiKey == old(apiKey)
    {
      payload, request := None, None;
      if isTracking {
        payload, request := SendHeartbeat(now);
      }
      currentProject := ProjectName(rootName);
      sessionStart := Some(now);
    }
  }

  /**
   * A window restarted by activity ten seconds in and a timer tick thirty seconds
   * after that: the heartbeat credits thirty seconds and is stamped with the tick.
   */
  method ActivityThenTickScenario(t: int) {
    var tracker := new Tracker();
    tracker.Init(Some("key"), None, "Draft A", t);
    tracker.OnActivity(t + 10000);
    var payload, request := tracker.SendHeartbeat(t + 40000);
    assert payload == Some(MakePayload(t + 40000, "Draft A"));
    assert request == payload;
    assert tracker.totalTime == 30;
  }

  /**
   * Renaming the document from "Draft A" to "Draft B" while tracking flushes a
   * heartbeat for "Draft A" before the switch; a later tick reports "Draft B".
   */
  method RenameScenario(t: int) {
    var tracker := new Tracker();
    tracker.Init(None, Some(""), "Draft A", t);
    var flushed, sent := tracker.OnDocumentChange(t + 5000, "Draft B");
    assert flushed == Some(MakePayload(t + 5000, "Draft A"));
    assert sent == None;
    assert tracker.currentProject == "Draft B";
    var next, _ := tracker.SendHeartbeat(t + 35000);
    assert next.Some? && next.value.project == "Draft B";
    assert tracker.totalTime == 35;
  }

  /** A second `startTracking` keeps the window the first one opened. */
  method DoubleStartScenario(t: int) {
    var tracker := new Tracker();
    tracker.StartTracking(t);
    tracker.StartTracking(t + 60000);
    assert tracker.sessionStart == Some(t);
  }
}
