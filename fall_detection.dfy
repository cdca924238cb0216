/**
 * The background fall monitor: a foreground service that polls the fall list of one
 * device every five seconds and raises the alarm when the list has grown since the last
 * successful poll.
 */
module FallDetection {
  import opened Wrappers
  import opened Dto
  import opened Prefs

  /** `START_STICKY`: the value `onStartCommand` returns. */
  const StartSticky: int := 1

  /** The intent that starts the service, by its action. */
  datatype Intent = StartIntent(deviceId: Option<string>) | StopIntent | OtherIntent

  /**
   * One turn of the polling loop: the network was down (nothing is fetched), or the
   * fall list was fetched (None when the call threw).
   */
  datatype Poll = Offline | Online(answer: Option<seq<FallInfo>>)

  predicate Answered(p: Poll) {
    p.Online? && p.answer.Some?
  }

  /** What one `checkForNewFalls` decides: the fall to alarm on, if any, and the new count. */
  datatype Check = Check(alarm: Option<FallInfo>, count: int)

  /**
   * A fetched list longer than the previous count (with a non-negative previous count)
   * raises the alarm for its first, most recent entry; every fetched list becomes the
   * new count; a failed fetch changes nothing.
   */
  function FallCheck(previous: int, fetched: Option<seq<FallInfo>>): (c: Check)
    ensures c.alarm.Some? <==> fetched.Some? && previous >= 0 && |fetched.value| > previous
    ensures c.alarm.Some? ==> c.alarm.value == fetched.value[0]
    ensures c.count == if fetched.Some? then |fetched.value| else previous
  {
    match fetched
    case None => Check(None, previous)
    case Some(falls) =>
      var alarm := if |falls| > previous && previous >= 0 && falls != [] then Some(falls[0]) else None;
      Check(alarm, |falls|)
  }

  /** The outcome of a run of polls: per poll, the fall alarmed on (if any), and the final count. */
  datatype Run = Run(alarms: seq<Option<FallInfo>>, count: int)

  /** One turn of the loop: an offline turn alarms on nothing and keeps the count. */
  function Step(before: Run, poll: Poll): (r: Run)
    ensures |r.alarms| == |before.alarms| + 1
  {
    if poll.Offline? then Run(before.alarms + [None], before.count)
    else
      var c := FallCheck(before.count, poll.answer);
      Run(before.alarms + [c.alarm], c.count)
  }

  function Monitor(previous: int, polls: seq<Poll>): (r: Run)
    ensures |r.alarms| == |polls|
  {
    if polls == [] then Run([], previous)
    else Step(Monitor(previous, polls[..|polls| - 1]), polls[|polls| - 1])
  }

  /** The falls alarmed on, in order. */
  function Fired(alarms: seq<Option<FallInfo>>): (fs: seq<FallInfo>)
    ensures |fs| <= |alarms|
  {
    if alarms == [] then []
    else Fired(alarms[..|alarms| - 1]) + (if alarms[|alarms| - 1].Some? then [alarms[|alarms| - 1].value] else [])
  }

  lemma FiredAppend(alarms: seq<Option<FallInfo>>, a: Option<FallInfo>)
    ensures Fired(alarms + [a]) == Fired(alarms) + (if a.Some? then [a.value] else [])
  {
    assert (alarms + [a])[..|alarms|] == alarms;
  }

  /** One more turn of the loop. */
  lemma MonitorStep(previous: int, polls: seq<Poll>, i: nat)
    requires i < |polls|
    ensures Monitor(previous, polls[..i + 1]) == Step(Monitor(previous, polls[..i]), polls[i])
  {
    assert polls[..i + 1][..i] == polls[..i];
  }

  lemma MonitorPrefix(previous: int, polls: seq<Poll>, i: nat)
    requires i <= |polls|
    ensures Monitor(previous, polls[..i]).alarms == Monitor(previous, polls).alarms[..i]
    decreases |polls| - i
  {
    if i < |polls| {
      MonitorPrefix(previous, polls, i + 1);
      assert polls[..i + 1][..i] == polls[..i];
    } else {
      assert polls[..i] == polls;
    }
  }

  /**
   * The count after a run is the size of the last list fetched, or the starting count
   * when no poll got an answer.
   */
  lemma {:induction false} CountIsLastAnswer(previous: int, polls: seq<Poll>)
    ensures (forall i :: 0 <= i < |polls| ==> !Answered(polls[i])) ==> Monitor(previous, polls).count == previous
    ensures forall k :: 0 <= k < |polls| && Answered(polls[k]) && (forall j :: k < j < |polls| ==> !Answered(polls[j])) ==>
      Monitor(previous, polls).count == |polls[k].answer.value|
  {
    if polls != [] {
      var init := polls[..|polls| - 1];
      CountIsLastAnswer(previous, init);
      assert Monitor(previous, polls) == Step(Monitor(previous, init), polls[|polls| - 1]);
      forall k | 0 <= k < |polls| && Answered(polls[k]) && (forall j :: k < j < |polls| ==> !Answered(polls[j]))
        ensures Monitor(previous, polls).count == |polls[k].answer.value|
      {
        if k < |polls| - 1 {
          assert init[k] == polls[k];
          assert forall j :: k < j < |init| ==> init[j] == polls[j];
        }
      }
      if forall i :: 0 <= i < |polls| ==> !Answered(polls[i]) {
        assert forall i :: 0 <= i < |init| ==> init[i] == polls[i];
      }
    }
  }

  /**
   * Poll `i` raises the alarm exactly when it got a list longer than the count the
   * polls before it left, and then alarms on that list's first entry.
   */
  lemma AlarmAt(previous: int, polls: seq<Poll>, i: nat)
    requires i < |polls|
    ensures var before := Monitor(previous, polls[..i]).count;
      && (Monitor(previous, polls).alarms[i].Some? <==> Answered(polls[i]) && before >= 0 && |polls[i].answer.value| > before)
      && (Monitor(previous, polls).alarms[i].Some? ==> Monitor(previous, polls).alarms[i].value == polls[i].answer.value[0])
  {
    MonitorPrefix(previous, polls, i + 1);
    assert polls[..i + 1][..i] == polls[..i];
  }

  /** Counts never go negative when they start non-negative. */
  lemma {:induction false} CountNonNegative(previous: int, polls: seq<Poll>)
    requires previous >= 0
    ensures Monitor(previous, polls).count >= 0
  {
    if polls != [] {
      CountNonNegative(previous, polls[..|polls| - 1]);
    }
  }

  /** A list that keeps its size never raises the alarm, whatever the network does. */
  lemma {:induction false} SteadyListNoAlarm(previous: int, polls: seq<Poll>)
    requires forall i :: 0 <= i < |polls| && Answered(polls[i]) ==> |polls[i].answer.value| == previous
    ensures Fired(Monitor(previous, polls).alarms) == []
    ensures Monitor(previous, polls).count == previous
  {
    if polls != [] {
      var init := polls[..|polls| - 1];
      assert forall i :: 0 <= i < |init| ==> init[i] == polls[i];
      SteadyListNoAlarm(previous, init);
      var before := Monitor(previous, init);
      var last := polls[|polls| - 1];
      var a := if last.Offline? then None else FallCheck(before.count, last.answer).alarm;
      assert Monitor(previous, polls).alarms == before.alarms + [a];
      FiredAppend(before.alarms, a);
    }
  }

  /** The sizes of the lists the polls got, in order (offline turns and failed fetches skipped). */
  function Sizes(polls: seq<Poll>): (s: seq<nat>)
    ensures |s| <= |polls|
  {
    if polls == [] then []
    else
      var last := polls[|polls| - 1];
      Sizes(polls[..|polls| - 1]) + (if Answered(last) then [|last.answer.value|] else [])
  }

  /** The last size of a run of sizes, or the starting one. */
  function LastSize(start: int, sizes: seq<nat>): int {
    if sizes == [] then start else sizes[|sizes| - 1]
  }

  /** How many sizes exceed the size before them (the first compared with `start`). */
  function Rises(start: int, sizes: seq<nat>): (n: nat)
    ensures n <= |sizes|
  {
    if sizes == [] then 0
    else
      var init := sizes[..|sizes| - 1];
      Rises(start, init) + (if sizes[|sizes| - 1] > LastSize(start, init) then 1 else 0)
  }

  /**
   * From a non-negative baseline, the monitor raises one alarm per rise in the size of
   * the fetched list and ends on the last size fetched.
   */
  lemma {:induction false} AlarmsCountRises(previous: int, polls: seq<Poll>)
    requires previous >= 0
    ensures |Fired(Monitor(previous, polls).alarms)| == Rises(previous, Sizes(polls))
    ensures Monitor(previous, polls).count == LastSize(previous, Sizes(polls))
  {
    if polls != [] {
      var init := polls[..|polls| - 1];
      var last := polls[|polls| - 1];
      AlarmsCountRises(previous, init);
      var before := Monitor(previous, init);
      assert Monitor(previous, polls) == Step(before, last);
      var a := Step(before, last).alarms[|before.alarms|];
      assert Step(before, last).alarms == before.alarms + [a];
      FiredAppend(before.alarms, a);
      var sizes := Sizes(init);
      if Answered(last) {
        var n := |last.answer.value|;
        var s := sizes + [n];
        assert Sizes(polls) == s;
        assert s[..|s| - 1] == sizes;
        assert Rises(previous, s) == Rises(previous, sizes) + (if n > LastSize(previous, sizes) then 1 else 0);
        assert a.Some? <==> n > before.count;
      } else {
        assert Sizes(polls) == sizes;
        assert a.None?;
      }
    }
  }

  /**
   * From a baseline of 0, polls whose list has 0, 1, 1 and 2 entries alarm twice, on
   * the newest fall each time.
   */
  lemma GrowingListExample(a: FallInfo, b: FallInfo)
    ensures Fired(Monitor(0, [Online(Some([])), Online(Some([a])), Online(Some([a])), Online(Some([b, a]))]).alarms) == [a, b]
  {
    var polls := [Online(Some([])), Online(Some([a])), Online(Some([a])), Online(Some([b, a]))];
    assert polls[..0] == [];
    MonitorStep(0, polls, 0);
    MonitorStep(0, polls, 1);
    MonitorStep(0, polls, 2);
    MonitorStep(0, polls, 3);
    assert polls[..4] == polls;
    var none: seq<Option<FallInfo>> := [];
    FiredAppend(none, None);
    assert none + [None] == [None];
    FiredAppend([None], Some(a));
    FiredAppend([None, Some(a)], None);
    FiredAppend([None, Some(a), None], Some(b));
  }

  /**
   * A failed baseline fetch leaves the count at 0, so the first answer holding any fall,
   * even one recorded long before, raises the alarm.
   */
  lemma FailedBaselineAlarmsOnHistory(history: seq<FallInfo>)
    requires history != []
    ensures Fired(Monitor(InitialCount(None), [Online(Some(history))]).alarms) == [history[0]]
  {
    assert [Online(Some(history))][..0] == [];
    assert Monitor(0, [Online(Some(history))]).alarms == [Some(history[0])];
    assert [Some(history[0])][..0] == [];
  }

  /** `initializeFallCount`: the size of the baseline list, or 0 when the fetch fails. */
  function InitialCount(baseline: Option<seq<FallInfo>>): (n: int)
    ensures n >= 0
    ensures baseline.Some? ==> n == |baseline.value|
    ensures baseline.None? ==> n == 0
  {
    if baseline.Some? then |baseline.value| else 0
  }

  /** The fields the service's lifecycle methods change, as one value. */
  datatype ServiceState = ServiceState(
    previousFallCount: int, deviceId: Option<string>, monitoredId: Option<string>,
    detecting: bool, wakeLockHeld: bool, inForeground: bool, stopRequested: bool)

  class FallDetectionService {
    var previousFallCount: int
    /** The id from the last start intent. */
    var deviceId: Option<string>
    /** The id the running loop polls for (captured when the loop started). */
    var monitoredId: Option<string>
    /** Whether the detection job is active. */
    var detecting: bool
    var wakeLockHeld: bool
    const prefs: SharedPreferences
    /** The service is in the foreground with its notification. */
    ghost var inForeground: bool
    /** `stopSelf` was called. */
    ghost var stopRequested: bool
    /** The falls handed to the alarm service, in order. */
    ghost var alarmsRaised: seq<FallInfo>

    ghost function State(): ServiceState
      reads this
    {
      ServiceState(previousFallCount, deviceId, monitoredId, detecting, wakeLockHeld, inForeground, stopRequested)
    }

    ghost predicate Valid()
      reads this
    {
      && previousFallCount >= 0
      && (detecting ==> monitoredId.Some?)
    }

    /** `onCreate`. */
    constructor (prefs: SharedPreferences)
      ensures previousFallCount == 0 && deviceId == None && monitoredId == None
      ensures !detecting && !wakeLockHeld && this.prefs == prefs
      ensures !inForeground && !stopRequested && alarmsRaised == []
      ensures Valid()
    {
      previousFallCount := 0;
      deviceId, monitoredId := None, None;
      detecting, wakeLockHeld := false, false;
      this.prefs := prefs;
      inForeground, stopRequested, alarmsRaised := false, false, [];
    }

    /**
     * `onStartCommand`. `baseline` is the answer of the fall-list fetch made when
     * detection starts (None when it throws). Always asks to be restarted.
     */
    method OnStartCommand(intent: Intent, baseline: Option<seq<FallInfo>>) returns (r: int)
      requires Valid()
      modifies this`deviceId, this`monitoredId, this`detecting, this`wakeLockHeld, this`previousFallCount
      modifies this`inForeground, this`stopRequested
      ensures r == StartSticky
      ensures intent.StartIntent? && old(detecting) ==>
        State() == old(State()).(deviceId := intent.deviceId)
      ensures intent.StartIntent? && !old(detecting) && intent.deviceId.None? ==>
        State() == old(State()).(deviceId := None, stopRequested := true)
      ensures intent.StartIntent? && !old(detecting) && intent.deviceId.Some? ==>
        State() == old(State()).(deviceId := intent.deviceId, monitoredId := intent.deviceId, detecting := true,
                                 wakeLockHeld := true, inForeground := true, previousFallCount := InitialCount(baseline))
      ensures intent.StopIntent? ==>
        State() == old(State()).(detecting := false, wakeLockHeld := false, stopRequested := true)
      ensures intent.OtherIntent? ==> State() == old(State())
      ensures Valid()
    {
      r := StartSticky;
      match intent
      case StartIntent(id) =>
        deviceId := id;
        StartDetection(baseline);
      case StopIntent =>
        StopDetection();
        stopRequested := true;
      case OtherIntent =>
    }

    /** `startDetection`: a no-op while a loop runs; without a device id the service stops itself. */
    method StartDetection(baseline: Option<seq<FallInfo>>)
      requires Valid()
      modifies this`monitoredId, this`detecting, this`wakeLockHeld, this`previousFallCount, this`inForeground, this`stopRequested
      ensures old(detecting) ==> State() == old(State())
      ensures !old(detecting) && deviceId.None? ==> State() == old(State()).(stopRequested := true)
      ensures !old(detecting) && deviceId.Some? ==>
        State() == old(State()).(monitoredId := deviceId, detecting := true, wakeLockHeld := true,
                                 inForeground := true, previousFallCount := InitialCount(baseline))
      ensures Valid()
    {
      if detecting {
        return;
      }
      if deviceId.None? {
        stopRequested := true;
        return;
      }
      wakeLockHeld := true;
      inForeground := true;
      InitializeFallCount(baseline);
      monitoredId := deviceId;
      detecting := true;
    }

    /** `initializeFallCount`, completed before the first poll. */
    method InitializeFallCount(baseline: Option<seq<FallInfo>>)
      modifies this`previousFallCount
      ensures previousFallCount == InitialCount(baseline)
    {
      match baseline
      case Some(list) => previousFallCount := |list|;
      case None => previousFallCount := 0;
    }

    /** `checkForNewFalls` for one fetch made at time `now`. */
    method CheckForNewFalls(fetched: Option<seq<FallInfo>>, now: int)
      modifies this`previousFallCount, this`alarmsRaised, prefs`store
      ensures var c := FallCheck(old(previousFallCount), fetched);
        && previousFallCount == c.count
        && alarmsRaised == old(alarmsRaised) + (if c.alarm.Some? then [c.alarm.value] else [])
        && prefs.store == if c.alarm.Some? then AlarmRaisedAt(old(prefs.store), now) else old(prefs.store)
    {
      if fetched.None? {
        return;
      }
      var falls := fetched.value;
      var count := |falls|;
      if count > previousFallCount && previousFallCount >= 0 {
        if falls != [] {
          alarmsRaised := alarmsRaised + [falls[0]];
          UpdateUIState(true, now);
        }
      }
      previousFallCount := count;
    }

    /** `updateUIState`: the alarm flag and the time of the fall, for the dashboard. */
    method UpdateUIState(alarmActive: bool, now: int)
      modifies prefs`store
      ensures prefs.store == old(prefs.store)[AlarmActiveKey := PBool(alarmActive)][LastFallTimeKey := PLong(now)]
      ensures WellTyped(old(prefs.store)) ==> WellTyped(prefs.store)
    {
      prefs.store := prefs.store[AlarmActiveKey := PBool(alarmActive)][LastFallTimeKey := PLong(now)];
    }

    /**
     * The polling loop, for as many turns as `polls` has entries; turn `i` runs at time
     * `times[i]`. Offline turns fetch nothing.
     */
    method PollingLoop(polls: seq<Poll>, times: seq<int>)
      requires Valid() && detecting
      requires |times| == |polls|
      modifies this`previousFallCount, this`alarmsRaised, prefs`store
      ensures previousFallCount == Monitor(old(previousFallCount), polls).count
      ensures alarmsRaised == old(alarmsRaised) + Fired(Monitor(old(previousFallCount), polls).alarms)
      ensures prefs.store == StoreAfter(old(prefs.store), Monitor(old(previousFallCount), polls).alarms, times)
      ensures Fired(Monitor(old(previousFallCount), polls).alarms) == [] ==> prefs.store == old(prefs.store)
      ensures Fired(Monitor(old(previousFallCount), polls).alarms) != [] ==> AlarmFlagged(prefs.store)
      ensures Valid()
    {
      ghost var start := previousFallCount;
      ghost var raised := alarmsRaised;
      ghost var store := prefs.store;
      ghost var run := Run([], start);
      assert polls[..0] == [];
      for i := 0 to |polls|
        invariant run == Monitor(start, polls[..i])
        invariant previousFallCount == run.count && previousFallCount >= 0
        invariant alarmsRaised == raised + Fired(run.alarms)
        invariant prefs.store == StoreAfter(store, run.alarms, times)
      {
        MonitorStep(start, polls, i);
        ghost var a := PollOnce(run, polls[i], times[i]);
        FiredAppend(run.alarms, a);
        StoreAfterAppend(store, run.alarms, a, times);
        run := Step(run, polls[i]);
      }
      assert polls[..|polls|] == polls;
    }

    /** One turn of the polling loop at time `now`: checks for new falls when online. */
    method PollOnce(ghost run: Run, poll: Poll, now: int) returns (ghost a: Option<FallInfo>)
      requires previousFallCount == run.count && previousFallCount >= 0
      modifies this`previousFallCount, this`alarmsRaised, prefs`store
      ensures Step(run, poll) == Run(run.alarms + [a], previousFallCount) && previousFallCount >= 0
      ensures alarmsRaised == old(alarmsRaised) + (if a.Some? then [a.value] else [])
      ensures prefs.store == if a.Some? then AlarmRaisedAt(old(prefs.store), now) else old(prefs.store)
    {
      a := Step(run, poll).alarms[|run.alarms|];
      if poll.Online? {
        CheckForNewFalls(poll.answer, now);
      }
    }

    /** `stopDetection`: cancels the loop and releases the wake lock. */
    method StopDetection()
      requires Valid()
      modifies this`detecting, this`wakeLockHeld
      ensures State() == old(State()).(detecting := false, wakeLockHeld := false)
      ensures Valid()
    {
      detecting := false;
      wakeLockHeld := false;
    }

    /** `onDestroy`. */
    method OnDestroy()
      requires Valid()
      modifies this`detecting, this`wakeLockHeld
      ensures State() == old(State()).(detecting := false, wakeLockHeld := false)
      ensures Valid()
    {
      StopDetection();
    }
  }

  /** The preferences after an alarm at time `now`. */
  function AlarmRaisedAt(store: map<string, PrefValue>, now: int): (r: map<string, PrefValue>)
    ensures AlarmFlagged(r)
    ensures LastFallTimeKey in r && r[LastFallTimeKey] == PLong(now)
    ensures forall k :: k in store && k != AlarmActiveKey && k != LastFallTimeKey ==> k in r && r[k] == store[k]
  {
    assert AlarmActiveKey[0] != LastFallTimeKey[0];
    store[AlarmActiveKey := PBool(true)][LastFallTimeKey := PLong(now)]
  }

  /** A later alarm overwrites both keys an earlier one wrote. */
  lemma AlarmRaisedTwice(store: map<string, PrefValue>, earlier: int, later: int)
    ensures AlarmRaisedAt(AlarmRaisedAt(store, earlier), later) == AlarmRaisedAt(store, later)
  {
  }

  /**
   * The preferences after turns that alarmed on `alarms`, turn i at time `times[i]`:
   * each alarming turn writes the flag and its time over what came before.
   */
  function StoreAfter(store: map<string, PrefValue>, alarms: seq<Option<FallInfo>>, times: seq<int>): (r: map<string, PrefValue>)
    requires |alarms| <= |times|
    ensures Fired(alarms) == [] ==> r == store
    ensures Fired(alarms) != [] ==> AlarmFlagged(r)
  {
    if alarms == [] then store
    else
      var before := StoreAfter(store, alarms[..|alarms| - 1], times);
      if alarms[|alarms| - 1].Some? then AlarmRaisedAt(before, times[|alarms| - 1]) else before
  }

  lemma StoreAfterAppend(store: map<string, PrefValue>, alarms: seq<Option<FallInfo>>, a: Option<FallInfo>, times: seq<int>)
    requires |alarms| < |times|
    ensures var before := StoreAfter(store, alarms, times);
      StoreAfter(store, alarms + [a], times) == if a.Some? then AlarmRaisedAt(before, times[|alarms|]) else before
  {
    assert (alarms + [a])[..|alarms|] == alarms;
  }

  /** A run that fired has a last alarming turn. */
  lemma {:induction false} LastAlarm(alarms: seq<Option<FallInfo>>) returns (k: nat)
    requires Fired(alarms) != []
    ensures k < |alarms| && alarms[k].Some?
    ensures forall j :: k < j < |alarms| ==> alarms[j].None?
  {
    var n := |alarms| - 1;
    if alarms[n].Some? {
      k := n;
    } else {
      var init := alarms[..n];
      assert Fired(alarms) == Fired(init);
      k := LastAlarm(init);
      assert init[k] == alarms[k];
      assert forall j :: k < j < n ==> init[j] == alarms[j];
    }
  }

  /**
   * After a run that raised any alarm, the preferences are those the last alarming turn
   * wrote: the flag set, and that turn's time as the time of the fall.
   */
  lemma {:induction false} StoreAfterLastAlarm(store: map<string, PrefValue>, alarms: seq<Option<FallInfo>>, times: seq<int>, k: nat)
    requires |alarms| <= |times|
    requires k < |alarms| && alarms[k].Some?
    requires forall j :: k < j < |alarms| ==> alarms[j].None?
    ensures StoreAfter(store, alarms, times) == AlarmRaisedAt(store, times[k])
  {
    var n := |alarms| - 1;
    var init := alarms[..n];
    if k == n {
      if Fired(init) == [] {
      } else {
        var last := LastAlarm(init);
        StoreAfterLastAlarm(store, init, times, last);
        AlarmRaisedTwice(store, times[last], times[k]);
      }
    } else {
      assert alarms[n].None?;
      assert init[k] == alarms[k];
      StoreAfterLastAlarm(store, init, times, k);
    }
  }
}
