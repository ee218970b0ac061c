/**
 * Properties of runs of the plugin's handlers: what the accumulated design time can
 * and cannot be, whatever order the host calls the handlers in.
 */
module SessionLemmas {
  import opened Session

  /** The host's clock readings never go backwards along `events`. */
  ghost predicate Ascending(events: seq<Event>) {
    forall i, j :: 0 <= i < j < |events| ==> Time(events[i]) <= Time(events[j])
  }

  /** No handler call in `events` happens before `t`. */
  ghost predicate NotBefore(t: int, events: seq<Event>) {
    forall i :: 0 <= i < |events| ==> t <= Time(events[i])
  }

  lemma AscendingTail(events: seq<Event>)
    requires |events| > 0 && Ascending(events)
    ensures Ascending(events[1..]) && NotBefore(Time(events[0]), events[1..])
  {
  }

  /** A second `startTracking` changes nothing, whenever it comes. */
  lemma StartIsIdempotent(s: State, first: int, second: int)
    ensures Start(Start(s, first), second) == Start(s, first)
  {
  }

  /**
   * With a clock that never goes backwards, the design time credited over any run of
   * handler calls never decreases, and in milliseconds it never exceeds the time that
   * passed between the first window start and the last handler call.
   */
  lemma {:induction false} CreditWithinWallClock(s: State, events: seq<Event>)
    requires s.sessionStart.Some?
    requires Ascending(events) && NotBefore(s.sessionStart.value, events)
    ensures var last := Run(s, events).0;
      last.sessionStart.Some? &&
      s.sessionStart.value <= last.sessionStart.value &&
      s.totalTime <= last.totalTime &&
      1000 * (last.totalTime - s.totalTime) <= last.sessionStart.value - s.sessionStart.value
    ensures |events| > 0 ==>
      1000 * (Run(s, events).0.totalTime - s.totalTime) <= Time(events[|events| - 1]) - s.sessionStart.value
    decreases |events|
  {
    if events != [] {
      var (next, _) := Step(s, events[0]);
      assert next.sessionStart.Some?;
      assert s.sessionStart.value <= next.sessionStart.value <= Time(events[0]);
      assert 1000 * (next.totalTime - s.totalTime) <= next.sessionStart.value - s.sessionStart.value;
      assert 0 <= next.totalTime - s.totalTime;
      AscendingTail(events);
      CreditWithinWallClock(next, events[1..]);
      if |events| > 1 {
        assert events[1..][|events| - 2] == events[|events| - 1];
      }
    }
  }

  /**
   * Time is only ever credited together with a heartbeat payload, and each payload
   * carries less than the idle threshold.
   */
  lemma {:induction false} CreditOnlyWithHeartbeats(s: State, events: seq<Event>)
    ensures var (last, payloads) := Run(s, events);
      last.totalTime - s.totalTime <= (IdleThresholdSeconds - 1) * |payloads| &&
      (payloads == [] ==> last.totalTime == s.totalTime)
    decreases |events|
  {
    if events != [] {
      var (next, payload) := Step(s, events[0]);
      assert payload.None? ==> next.totalTime == s.totalTime;
      CreditOnlyWithHeartbeats(next, events[1..]);
    }
  }

  /**
   * Every call in `events` is a timer tick, the first less than two minutes after
   * `start` and each later one less than two minutes after the one before it.
   */
  ghost predicate TicksWithin(start: int, events: seq<Event>) {
    (forall i :: 0 <= i < |events| ==> events[i].TimerTick?) &&
    (|events| > 0 ==> Time(events[0]) - start < 1000 * IdleThresholdSeconds) &&
    (forall i :: 0 < i < |events| ==> Time(events[i]) - Time(events[i - 1]) < 1000 * IdleThresholdSeconds)
  }

  /**
   * Because a heartbeat also restarts the window, timer ticks that come less than two
   * minutes apart always earn credit, even with no user activity at all: every tick
   * yields a payload for the current project stamped with the tick's time.
   */
  lemma {:induction false} RegularTicksAlwaysCredit(s: State, events: seq<Event>)
    requires s.isTracking && s.sessionStart.Some?
    requires TicksWithin(s.sessionStart.value, events)
    ensures var (last, payloads) := Run(s, events);
      |payloads| == |events| &&
      last.isTracking && last.currentProject == s.currentProject &&
      forall i :: 0 <= i < |events| ==> payloads[i] == MakePayload(Time(events[i]), s.currentProject)
    decreases |events|
  {
    if events != [] {
      var (next, payload) := Step(s, events[0]);
      assert payload == Some(MakePayload(Time(events[0]), s.currentProject));
      assert next.sessionStart == Some(Time(events[0]));
      forall i | 0 < i < |events| - 1
        ensures Time(events[1..][i]) - Time(events[1..][i - 1]) < 1000 * IdleThresholdSeconds
      {
        assert events[1..][i] == events[i + 1] && events[1..][i - 1] == events[i];
      }
      assert |events| > 1 ==> events[1..][0] == events[1];
      RegularTicksAlwaysCredit(next, events[1..]);
      var payloads := Run(next, events[1..]).1;
      assert Run(s, events).1 == [payload.value] + payloads;
      forall i | 0 <= i < |events|
        ensures Run(s, events).1[i] == MakePayload(Time(events[i]), s.currentProject)
      {
        if i > 0 {
          assert events[1..][i - 1] == events[i];
        }
      }
    }
  }

  /**
   * The accumulator has no guard against a clock that steps back: while tracking, a
   * heartbeat whose clock reading is earlier than the window start still produces a
   * payload and credits a negative amount.
   */
  lemma ClockStepBackReducesTotal(s: State, now: int)
    requires s.isTracking && s.sessionStart.Some? && now < s.sessionStart.value
    ensures Heartbeat(s, now).1.Some?
    ensures Heartbeat(s, now).0.totalTime < s.totalTime
  {
  }

  /**
   * From a state with no window yet (so no credit is possible until one opens), a run
   * with a clock that never goes back credits no less than nothing and, in
   * milliseconds, no more than the span from `t0` to the last handler call.
   */
  lemma {:induction false} CreditFromNoWindow(s: State, events: seq<Event>, t0: int)
    requires s.sessionStart.None?
    requires |events| > 0 && Ascending(events) && NotBefore(t0, events)
    ensures s.totalTime <= Run(s, events).0.totalTime
    ensures 1000 * (Run(s, events).0.totalTime - s.totalTime) <= Time(events[|events| - 1]) - t0
    decreases |events|
  {
    var (next, _) := Step(s, events[0]);
    assert next.totalTime == s.totalTime;
    AscendingTail(events);
    if |events| == 1 {
      assert Run(s, events).0 == next;
    } else {
      assert events[1..][|events| - 2] == events[|events| - 1];
      if next.sessionStart.None? {
        CreditFromNoWindow(next, events[1..], t0);
      } else {
        assert next.sessionStart.value == Time(events[0]);
        CreditWithinWallClock(next, events[1..]);
      }
    }
  }

  /**
   * From the state the script is loaded in, any run with a clock that never goes
   * back ends with a non-negative total, and 1000 times it is at most the span from
   * the first handler call to the last.
   */
  lemma CreditFromLoad(events: seq<Event>)
    requires |events| > 0 && Ascending(events)
    ensures 0 <= Run(Initial, events).0.totalTime
    ensures 1000 * Run(Initial, events).0.totalTime <= Time(events[|events| - 1]) - Time(events[0])
  {
    CreditFromNoWindow(Initial, events, Time(events[0]));
  }

  /**
   * The invariant makes the `sessionStart` half of the heartbeat's guard dead while
   * tracking: the only thing that decides whether a payload is built is the idle rule.
   */
  lemma InvMakesWindowGuardDead(s: State, now: int)
    requires Inv(s) && s.isTracking
    ensures Heartbeat(s, now).1.Some? <==> now - s.sessionStart.value < 1000 * IdleThresholdSeconds
  {
  }

  /**
   * `init` is not an event of its own: from any state that is not tracking, setting
   * the project and then starting tracking is the same as a document change followed
   * by a start at the same clock reading.
   */
  lemma InitIsDocumentChangeThenStart(s: State, now: int, rootName: string)
    requires !s.isTracking
    ensures Run(s, [DocumentChangeEvent(now, rootName), StartEvent(now)]).0 ==
      Start(s.(currentProject := ProjectName(rootName)), now)
    ensures Run(s, [DocumentChangeEvent(now, rootName), StartEvent(now)]).1 == []
  {
    var events := [DocumentChangeEvent(now, rootName), StartEvent(now)];
    var switched := s.(currentProject := ProjectName(rootName), sessionStart := Some(now));
    assert Step(s, events[0]) == (switched, None);
    assert events[1..] == [StartEvent(now)];
    assert Run(switched, events[1..]) == (Start(switched, now), []);
  }
}
