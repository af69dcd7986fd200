/** eye_tracking/eye_tracking.py: the stream of surface gaze data from the eye tracker,
    the choice of the gaze position to use, and the calibration handshake. The sockets are
    not modelled: received messages and notifications are given as sequences, and the
    requests sent are recorded. */
module EyeTracking {
  import opened Wrappers
  import opened Text

  /** One entry of a surface datum's `gaze_on_srf` list. */
  datatype GazeOnSurface = GazeOnSurface(onSrf: bool, confidence: real, normPos: (real, real))

  /** A surface datum, reduced to its `gaze_on_srf` list. */
  type SurfaceDatum = seq<GazeOnSurface>

  /** `[g for g in gazes if g["on_srf"]]`. */
  function OnSurface(gazes: seq<GazeOnSurface>): (r: seq<GazeOnSurface>)
    ensures |r| <= |gazes|
    ensures forall g :: g in r <==> g in gazes && g.onSrf
  {
    if gazes == [] then []
    else (if gazes[0].onSrf then [gazes[0]] else []) + OnSurface(gazes[1..])
  }

  /** The filter keeps the relative order of the gazes. */
  lemma {:induction false} OnSurfaceAppend(a: seq<GazeOnSurface>, b: seq<GazeOnSurface>)
    ensures OnSurface(a + b) == OnSurface(a) + OnSurface(b)
    decreases |a|
  {
    if a == [] {
      assert a + b == b;
    } else {
      assert (a + b)[0] == a[0] && (a + b)[1..] == a[1..] + b;
      OnSurfaceAppend(a[1..], b);
    }
  }

  /** The first element of `sorted(s, key=confidence, reverse=True)`: Python's sort is
      stable, so among equally confident gazes the earliest comes first. */
  function FirstMaximal(s: seq<GazeOnSurface>): (k: nat)
    requires |s| > 0
    ensures k < |s|
    ensures forall j :: 0 <= j < |s| ==> s[j].confidence <= s[k].confidence
    ensures forall j :: 0 <= j < k ==> s[j].confidence < s[k].confidence
    decreases |s|
  {
    if |s| == 1 then 0
    else
      var k := FirstMaximal(s[..|s| - 1]);
      if s[|s| - 1].confidence > s[k].confidence then |s| - 1 else k
  }

  /** The position reported for a chosen gaze: `(x, 1 - y)` in pygame coordinates (y
      downwards), otherwise `norm_pos` as it is. */
  function Coordinates(g: GazeOnSurface, usePygameCoordinates: bool): (real, real) {
    if usePygameCoordinates then (g.normPos.0, 1.0 - g.normPos.1) else g.normPos
  }

  /** The confidence below which a gaze is not used. */
  const MIN_CONFIDENCE := 0.5

  /** The gaze `read_position` uses: the most confident on-surface gaze, if there is one. */
  function BestOnSurface(gazes: seq<GazeOnSurface>): (r: Option<GazeOnSurface>)
    ensures r.None? <==> forall g :: g in gazes ==> !g.onSrf
    ensures r.Some? ==> r.value in gazes && r.value.onSrf
    ensures r.Some? ==> forall h :: h in gazes && h.onSrf ==> h.confidence <= r.value.confidence
  {
    var candidates := OnSurface(gazes);
    if |candidates| == 0 then None
    else
      var k := FirstMaximal(candidates);
      assert forall h :: h in candidates ==> exists j :: 0 <= j < |candidates| && candidates[j] == h;
      Some(candidates[k])
  }

  /** `read_position` as intended: `None` without a datum, without an on-surface gaze, or
      when the most confident one is below 0.5; otherwise that gaze's coordinates. */
  function ReadPosition(datum: Option<SurfaceDatum>, usePygameCoordinates: bool): (r: Option<(real, real)>)
    ensures r.None? <==> datum.None? || forall g :: g in datum.value && g.onSrf ==> g.confidence < MIN_CONFIDENCE
    ensures r.Some? ==> exists g :: (g in datum.value && g.onSrf && g.confidence >= MIN_CONFIDENCE
      && (forall h :: h in datum.value && h.onSrf ==> h.confidence <= g.confidence)
      && r.value == Coordinates(g, usePygameCoordinates))
  {
    if datum.None? then None
    else
      match BestOnSurface(datum.value)
      case None => None
      case Some(g) => if g.confidence < MIN_CONFIDENCE then None else Some(Coordinates(g, usePygameCoordinates))
  }

  /** Ties go to the earliest gaze: a gaze more confident than every on-surface gaze before it
      and at least as confident as every one after it is the one reported. */
  lemma ReadPositionTieBreak(a: seq<GazeOnSurface>, g: GazeOnSurface, b: seq<GazeOnSurface>, usePygameCoordinates: bool)
    requires g.onSrf && g.confidence >= MIN_CONFIDENCE
    requires forall h :: h in a && h.onSrf ==> h.confidence < g.confidence
    requires forall h :: h in b && h.onSrf ==> h.confidence <= g.confidence
    ensures ReadPosition(Some(a + [g] + b), usePygameCoordinates) == Some(Coordinates(g, usePygameCoordinates))
  {
    var onA, onB := OnSurface(a), OnSurface(b);
    OnSurfaceAround(a, g, b);
    FirstMaximalAround(onA, g, onB);
    assert (onA + [g] + onB)[|onA|] == g;
  }

  /** Filtering `a + [g] + b` for an on-surface `g` keeps `g` between the filtered halves. */
  lemma OnSurfaceAround(a: seq<GazeOnSurface>, g: GazeOnSurface, b: seq<GazeOnSurface>)
    requires g.onSrf
    ensures OnSurface(a + [g] + b) == OnSurface(a) + [g] + OnSurface(b)
  {
    OnSurfaceAppend(a + [g], b);
    OnSurfaceAppend(a, [g]);
    assert OnSurface([g]) == [g] by {
      assert [g][1..] == [];
    }
  }

  /** A position more confident than all before it and at least as confident as all after it
      is the first maximal one. */
  lemma FirstMaximalAround(before: seq<GazeOnSurface>, g: GazeOnSurface, after: seq<GazeOnSurface>)
    requires forall h :: h in before ==> h.confidence < g.confidence
    requires forall h :: h in after ==> h.confidence <= g.confidence
    ensures FirstMaximal(before + [g] + after) == |before|
  {
    var s := before + [g] + after;
    var n := |before|;
    assert s[n] == g;
    assert forall j :: 0 <= j < n ==> s[j] == before[j];
    assert forall j :: n < j < |s| ==> s[j] == after[j - n - 1];
  }

  /** The value `read_position` returns as written: the conditional expression binds tighter
      than the tuple comma, so without pygame coordinates the result is the pair
      `(tuple(norm_pos), 1 - y)` rather than `norm_pos`. */
  datatype PositionValue = Flat(x: real, y: real) | Nested(normPos: (real, real), y: real)

  function ReadPositionAsWritten(datum: Option<SurfaceDatum>, usePygameCoordinates: bool): (r: Option<PositionValue>)
    ensures r.None? <==> ReadPosition(datum, usePygameCoordinates).None?
    ensures r.Some? && usePygameCoordinates ==>
      r.value == Flat(ReadPosition(datum, true).value.0, ReadPosition(datum, true).value.1)
    ensures r.Some? && !usePygameCoordinates ==> r.value.Nested?
  {
    if datum.None? then None
    else
      match BestOnSurface(datum.value)
      case None => None
      case Some(g) =>
        if g.confidence < MIN_CONFIDENCE then None
        else if usePygameCoordinates then Some(Flat(g.normPos.0, 1.0 - g.normPos.1))
        else Some(Nested(g.normPos, 1.0 - g.normPos.1))
  }

  /** One gaze at (0.25, 0.75): asked for raw coordinates, the code as written returns
      `((0.25, 0.75), 0.25)` where `(0.25, 0.75)` is meant. */
  lemma ReadPositionPrecedence()
    ensures ReadPositionAsWritten(Some([GazeOnSurface(true, 0.9, (0.25, 0.75))]), false)
      == Some(Nested((0.25, 0.75), 0.25))
    ensures ReadPosition(Some([GazeOnSurface(true, 0.9, (0.25, 0.75))]), false) == Some((0.25, 0.75))
  {
    var g := GazeOnSurface(true, 0.9, (0.25, 0.75));
    assert OnSurface([g]) == [g] by {
      assert [g][1..] == [];
    }
  }

  /** A message from the eye tracker's SUB socket: its topic and, for surface topics, the
      datum it carries. */
  datatype SubscriberMessage = SubscriberMessage(topic: string, datum: SurfaceDatum)

  /** The dispatch of `update`: only a topic starting with "surfaces" replaces the datum;
      "gaze" and every other topic are only printed. */
  function DispatchTopic(current: Option<SurfaceDatum>, m: SubscriberMessage): (r: Option<SurfaceDatum>)
    ensures r != current ==> StartsWith(m.topic, "surfaces") && r == Some(m.datum)
    ensures StartsWith(m.topic, "surfaces") ==> r == Some(m.datum)
  {
    if StartsWith(m.topic, "gaze") then
      assert m.topic[0] == "gaze"[0];
      current
    else if StartsWith(m.topic, "surfaces") then Some(m.datum)
    else current
  }

  /** The datum after `update` has processed `messages` in order. */
  function AfterUpdate(current: Option<SurfaceDatum>, messages: seq<SubscriberMessage>): Option<SurfaceDatum>
    decreases |messages|
  {
    if messages == [] then current
    else DispatchTopic(AfterUpdate(current, messages[..|messages| - 1]), messages[|messages| - 1])
  }

  /** Without a surface message the datum is untouched. */
  lemma {:induction false} UpdateWithoutSurfaceTopics(current: Option<SurfaceDatum>, messages: seq<SubscriberMessage>)
    requires forall i :: 0 <= i < |messages| ==> !StartsWith(messages[i].topic, "surfaces")
    ensures AfterUpdate(current, messages) == current
    decreases |messages|
  {
    if messages != [] {
      UpdateWithoutSurfaceTopics(current, messages[..|messages| - 1]);
    }
  }

  /** The datum kept is the one of the last surface message. */
  lemma LastSurfaceDatumWins(current: Option<SurfaceDatum>, a: seq<SubscriberMessage>, m: SubscriberMessage, b: seq<SubscriberMessage>)
    requires StartsWith(m.topic, "surfaces")
    requires forall i :: 0 <= i < |b| ==> !StartsWith(b[i].topic, "surfaces")
    ensures AfterUpdate(current, a + [m] + b) == Some(m.datum)
  {
    UpdateWithoutSurfaceTopicsAfter(current, a + [m], b);
    assert (a + [m])[..|a + [m]| - 1] == a;
  }

  lemma {:induction false} UpdateWithoutSurfaceTopicsAfter(current: Option<SurfaceDatum>, a: seq<SubscriberMessage>, b: seq<SubscriberMessage>)
    requires forall i :: 0 <= i < |b| ==> !StartsWith(b[i].topic, "surfaces")
    ensures AfterUpdate(current, a + b) == AfterUpdate(current, a)
    decreases |b|
  {
    if b == [] {
      assert a + b == a;
    } else {
      var n := |b| - 1;
      assert (a + b)[..|a + b| - 1] == a + b[..n];
      UpdateWithoutSurfaceTopicsAfter(current, a, b[..n]);
    }
  }

  /** The notification `start_surface_tracker_plugin` sends. */
  datatype PluginRequest = PluginRequest(subject: string, name: string, minMarkerPerimeter: int)

  const START_SURFACE_TRACKER := PluginRequest("start_plugin", "Surface_Tracker", 50)

  /** `SurfaceGazeStream`: the latest surface datum, the stopped flag and the once-only plugin
      start. */
  class SurfaceGazeStream {
    const name: string
    const subscriptionTopics: seq<string>
    var stopped: bool
    var subscriberStarted: bool
    var surfaceGazeDatum: Option<SurfaceDatum>
    var startedPlugin: bool
    var pluginRequests: seq<PluginRequest>

    /** The plugin has been asked to start exactly when the flag says so, and only once. */
    ghost predicate Valid()
      reads this
    {
      pluginRequests == if startedPlugin then [START_SURFACE_TRACKER] else []
    }

    /** The stream subscribes to the error and warning logs, to gaze and to its surface. */
    constructor (surfaceName: string, streamName: string)
      ensures Valid()
      ensures name == streamName
      ensures subscriptionTopics == ["logging.error", "logging.warning", "gaze", "surfaces." + surfaceName]
      ensures !stopped && !subscriberStarted && surfaceGazeDatum.None? && !startedPlugin
    {
      name := streamName;
      subscriptionTopics := ["logging.error", "logging.warning", "gaze", "surfaces." + surfaceName];
      stopped := false;
      subscriberStarted := false;
      surfaceGazeDatum := None;
      startedPlugin := false;
      pluginRequests := [];
    }

    /** `start_surface_tracker_plugin`: the request is sent on the first call only. */
    method StartSurfaceTrackerPlugin()
      requires Valid()
      modifies this`startedPlugin, this`pluginRequests
      ensures Valid() && startedPlugin
      ensures pluginRequests == [START_SURFACE_TRACKER]
      ensures old(startedPlugin) ==> pluginRequests == old(pluginRequests)
    {
      if !startedPlugin {
        pluginRequests := pluginRequests + [START_SURFACE_TRACKER];
        startedPlugin := true;
      }
    }

    /** `start`: plugin (once), subscriber, and the stream runs. The update thread is not
        modelled; `Update` stands for its work. */
    method Start()
      requires Valid()
      modifies this`startedPlugin, this`pluginRequests, this`subscriberStarted, this`stopped
      ensures Valid() && startedPlugin && subscriberStarted && !stopped
      ensures pluginRequests == [START_SURFACE_TRACKER]
    {
      StartSurfaceTrackerPlugin();
      subscriberStarted := true;
      stopped := false;
    }

    method Stop()
      modifies this`stopped
      ensures stopped
    {
      stopped := true;
    }

    /** `read`: the latest surface datum, `None` before the first one. */
    function Read(): Option<SurfaceDatum>
      reads this
    {
      surfaceGazeDatum
    }

    /** `read_position` on the stream's latest datum. */
    function ReadPositionOfStream(usePygameCoordinates: bool): (r: Option<(real, real)>)
      reads this
      ensures surfaceGazeDatum.None? ==> r.None?
    {
      ReadPosition(surfaceGazeDatum, usePygameCoordinates)
    }

    /** `update`: a stopped stream returns at once; otherwise each received message is
        dispatched on its topic. */
    method Update(messages: seq<SubscriberMessage>)
      modifies this`surfaceGazeDatum
      ensures surfaceGazeDatum == if stopped then old(surfaceGazeDatum) else AfterUpdate(old(surfaceGazeDatum), messages)
    {
      if stopped {
        return;
      }
      var datum := surfaceGazeDatum;
      for i := 0 to |messages|
        invariant datum == AfterUpdate(old(surfaceGazeDatum), messages[..i])
      {
        assert messages[..i + 1][..i] == messages[..i];
        datum := DispatchTopic(datum, messages[i]);
      }
      assert messages[..|messages|] == messages;
      surfaceGazeDatum := datum;
    }
  }

  /** The subjects `calibrate` tells apart. */
  datatype Subject = ShouldStartSubject | StartedSubject | FailedSubject | StoppedSubject | OtherSubject

  /** What the calibration subscriber delivers: nothing within the timeout, or a notification,
      given by the subject its topic names (see `NotificationOf`). */
  datatype CalibrationEvent = TimedOut | Notification(subject: Subject)

  /** The notifications `calibrate` sends: `calibration.should_start` and
      `calibration.should_stop`. */
  datatype CalibrationRequest = ShouldStart | ShouldStop

  /** `Failed` is `sys.exit(1)`; `AwaitingEvents` means the given events ran out while the
      calibration was still waiting. */
  datatype CalibrationOutcome = Finished | Failed | AwaitingEvents

  datatype CalibrationRun = CalibrationRun(requests: seq<CalibrationRequest>, waits: seq<int>, outcome: CalibrationOutcome, consumed: nat)

  const START_TIMEOUT := 5000
  const END_TIMEOUT := 90000
  const MAX_RETRIES := 3

  /** `topic[19:]`: the topic without "notify.calibration.". */
  function CalibrationSubject(topic: string): (s: string)
    ensures StartsWith(topic, "notify.calibration.") ==> topic == "notify.calibration." + s
    ensures |topic| <= 19 ==> s == ""
  {
    if |topic| <= 19 then "" else topic[19..]
  }

  /** `topic = topic[19:]` and its comparisons with the four subjects `calibrate` checks:
      each subject is recognised exactly when the topic, past its first 19 characters,
      spells it. */
  function SubjectOf(topic: string): (k: Subject)
    ensures k == ShouldStartSubject <==> CalibrationSubject(topic) == "should_start"
    ensures k == StartedSubject <==> CalibrationSubject(topic) == "started"
    ensures k == FailedSubject <==> CalibrationSubject(topic) == "failed"
    ensures k == StoppedSubject <==> CalibrationSubject(topic) == "stopped"
  {
    var subject := CalibrationSubject(topic);
    if subject == "should_start" then ShouldStartSubject
    else if subject == "started" then StartedSubject
    else if subject == "failed" then FailedSubject
    else if subject == "stopped" then StoppedSubject
    else OtherSubject
  }

  /** The event for a received notification topic. */
  function NotificationOf(topic: string): CalibrationEvent {
    Notification(SubjectOf(topic))
  }

  /** A calibration notification carries the subject its topic names: each of the four
      subjects `calibrate` compares against for its own name, and none of them for any
      other name. */
  lemma NotificationOfCalibrationTopic(name: string)
    ensures name == "should_start" ==> NotificationOf("notify.calibration." + name) == Notification(ShouldStartSubject)
    ensures name == "started" ==> NotificationOf("notify.calibration." + name) == Notification(StartedSubject)
    ensures name == "failed" ==> NotificationOf("notify.calibration." + name) == Notification(FailedSubject)
    ensures name == "stopped" ==> NotificationOf("notify.calibration." + name) == Notification(StoppedSubject)
    ensures name !in {"should_start", "started", "failed", "stopped"} ==>
      NotificationOf("notify.calibration." + name) == Notification(OtherSubject)
  {
    var topic := "notify.calibration." + name;
    assert StartsWith(topic, "notify.calibration.");
    assert CalibrationSubject(topic) == name by {
      assert topic == "notify.calibration." + CalibrationSubject(topic);
      assert topic[19..] == name;
    }
  }

  /** `run` preceded by what was already requested, waited for and consumed. */
  function Prefixed(requests: seq<CalibrationRequest>, waits: seq<int>, consumed: nat, run: CalibrationRun): CalibrationRun {
    CalibrationRun(requests + run.requests, waits + run.waits, run.outcome, consumed + run.consumed)
  }

  /** One call of `calibrate` reading the subscriber from position `from`: request the start,
      then listen. A retry reuses the subscriber, so it continues where the failed attempt
      stopped reading. */
  function CalibrateSpec(events: seq<CalibrationEvent>, from: nat, retries: int): CalibrationRun
    decreases |events| - from, 1
  {
    Prefixed([ShouldStart], [], 0, ListenSpec(events, from, retries, false))
  }

  /** Composing prefixes. */
  lemma PrefixedTwice(r1: seq<CalibrationRequest>, w1: seq<int>, c1: nat, r2: seq<CalibrationRequest>, w2: seq<int>, c2: nat, run: CalibrationRun)
    ensures Prefixed(r1, w1, c1, Prefixed(r2, w2, c2, run)) == Prefixed(r1 + r2, w1 + w2, c1 + c2, run)
  {
    assert r1 + (r2 + run.requests) == (r1 + r2) + run.requests;
    assert w1 + (w2 + run.waits) == (w1 + w2) + run.waits;
  }

  /** The `while True` of `calibrate` from position `from` on. A timeout before the start is
      retried by a new call while fewer than three retries were made, any other timeout
      fails; of the notifications, "should_start" is ignored and "started" sets the flag,
      anything else fails before the start, and after it "failed" fails, "stopped" finishes
      and the rest is ignored. */
  function ListenSpec(events: seq<CalibrationEvent>, from: nat, retries: int, started: bool): CalibrationRun
    decreases |events| - from, 0
  {
    if from >= |events| then CalibrationRun([], [], AwaitingEvents, 0)
    else
      var wait := if started then END_TIMEOUT else START_TIMEOUT;
      match events[from]
      case TimedOut =>
        if retries < MAX_RETRIES && !started then Prefixed([ShouldStop], [wait], 1, CalibrateSpec(events, from + 1, retries + 1))
        else CalibrationRun([ShouldStop], [wait], Failed, 1)
      case Notification(subject) =>
        if subject == ShouldStartSubject || subject == StartedSubject then
          Prefixed([], [wait], 1, ListenSpec(events, from + 1, retries, started || subject == StartedSubject))
        else if !started || subject == FailedSubject then CalibrationRun([], [wait], Failed, 1)
        else if subject == StoppedSubject then CalibrationRun([], [wait], Finished, 1)
        else Prefixed([], [wait], 1, ListenSpec(events, from + 1, retries, started))
  }

  /** `calibrate`: its loop over the events the subscriber delivers from position `from` on,
      with the retry as a recursive call on the same subscriber. */
  method Calibrate(events: seq<CalibrationEvent>, from: nat, retries: int) returns (run: CalibrationRun)
    ensures run == CalibrateSpec(events, from, retries)
    decreases |events| - from
  {
    var requests := [ShouldStart];
    var waits: seq<int> := [];
    var started := false;
    var i := from;
    while i < |events|
      invariant from <= i && (from <= |events| ==> i <= |events|)
      invariant CalibrateSpec(events, from, retries) == Prefixed(requests, waits, i - from, ListenSpec(events, i, retries, started))
    {
      var wait := if started then END_TIMEOUT else START_TIMEOUT;
      match events[i]
      case TimedOut =>
        if retries < MAX_RETRIES && !started {
          var retry := Calibrate(events, i + 1, retries + 1);
          PrefixedTwice(requests, waits, i - from, [ShouldStop], [wait], 1, retry);
          return Prefixed(requests + [ShouldStop], waits + [wait], i + 1 - from, retry);
        }
        return CalibrationRun(requests + [ShouldStop], waits + [wait], Failed, i + 1 - from);
      case Notification(subject) =>
        if subject == ShouldStartSubject {
        } else if subject == StartedSubject {
          started := true;
        } else if !started {
          return CalibrationRun(requests, waits + [wait], Failed, i + 1 - from);
        } else if subject == FailedSubject {
          return CalibrationRun(requests, waits + [wait], Failed, i + 1 - from);
        } else if subject == StoppedSubject {
          return CalibrationRun(requests, waits + [wait], Finished, i + 1 - from);
        }
        PrefixedTwice(requests, waits, i - from, [], [wait], 1, ListenSpec(events, i + 1, retries, started));
        assert requests + [] == requests;
      waits := waits + [wait];
      i := i + 1;
    }
    return CalibrationRun(requests, waits, AwaitingEvents, i - from);
  }

  /** How many `calibration.should_start` requests were sent. */
  function CountStarts(requests: seq<CalibrationRequest>): nat
    decreases |requests|
  {
    if requests == [] then 0 else (if requests[0] == ShouldStart then 1 else 0) + CountStarts(requests[1..])
  }

  lemma {:induction false} CountStartsAppend(a: seq<CalibrationRequest>, b: seq<CalibrationRequest>)
    ensures CountStarts(a + b) == CountStarts(a) + CountStarts(b)
    decreases |a|
  {
    if a == [] {
      assert a + b == b;
    } else {
      assert (a + b)[1..] == a[1..] + b;
      CountStartsAppend(a[1..], b);
    }
  }

  /** Calibration is attempted at most four times: the first call and three retries. */
  lemma {:induction false} CalibrationAttemptsBounded(events: seq<CalibrationEvent>, from: nat, retries: int)
    requires retries <= MAX_RETRIES
    ensures CountStarts(CalibrateSpec(events, from, retries).requests) <= MAX_RETRIES + 1 - retries
    decreases |events| - from, 1
  {
    ListenAttemptsBounded(events, from, retries, false);
    CountStartsAppend([ShouldStart], ListenSpec(events, from, retries, false).requests);
  }

  lemma {:induction false} ListenAttemptsBounded(events: seq<CalibrationEvent>, from: nat, retries: int, started: bool)
    requires retries <= MAX_RETRIES
    ensures CountStarts(ListenSpec(events, from, retries, started).requests) <= MAX_RETRIES - retries
    decreases |events| - from, 0
  {
    if from < |events| {
      match events[from]
      case TimedOut =>
        if retries < MAX_RETRIES && !started {
          CalibrationAttemptsBounded(events, from + 1, retries + 1);
          CountStartsAppend([ShouldStop], CalibrateSpec(events, from + 1, retries + 1).requests);
        }
      case Notification(subject) =>
        if subject == ShouldStartSubject || subject == StartedSubject || (started && subject != FailedSubject && subject != StoppedSubject) {
          var started' := subject == StartedSubject || started;
          ListenAttemptsBounded(events, from + 1, retries, started');
          assert [] + ListenSpec(events, from + 1, retries, started').requests == ListenSpec(events, from + 1, retries, started').requests;
        }
    }
  }

  /** Four timeouts while waiting for the start exhaust the retries: four start requests,
      four stop requests, each after a 5000 ms wait, and the calibration fails. */
  lemma FourStartTimeoutsFail()
    ensures CalibrateSpec([TimedOut, TimedOut, TimedOut, TimedOut], 0, 0) == CalibrationRun(
      [ShouldStart, ShouldStop, ShouldStart, ShouldStop, ShouldStart, ShouldStop, ShouldStart, ShouldStop],
      [START_TIMEOUT, START_TIMEOUT, START_TIMEOUT, START_TIMEOUT], Failed, 4)
  {
    var e := [TimedOut, TimedOut, TimedOut, TimedOut];
    assert ListenSpec(e, 3, 3, false) == CalibrationRun([ShouldStop], [START_TIMEOUT], Failed, 1);
    assert ListenSpec(e, 2, 2, false) == Prefixed([ShouldStop], [START_TIMEOUT], 1, CalibrateSpec(e, 3, 3));
    assert ListenSpec(e, 1, 1, false) == Prefixed([ShouldStop], [START_TIMEOUT], 1, CalibrateSpec(e, 2, 2));
  }

  /** Whether an event is a notification with the given subject. */
  predicate IsSubject(e: CalibrationEvent, subject: Subject) {
    e == Notification(subject)
  }

  /** A calibration finishes only on a "stopped" notification that follows a "started" one,
      both read by this call or its retries. */
  lemma {:induction false} FinishedNeedsStartAndStop(events: seq<CalibrationEvent>, from: nat, retries: int)
    ensures from + CalibrateSpec(events, from, retries).consumed <= |events| || CalibrateSpec(events, from, retries).consumed == 0
    ensures CalibrateSpec(events, from, retries).outcome == Finished ==>
      exists i, j :: from <= i < j < from + CalibrateSpec(events, from, retries).consumed && j < |events|
        && IsSubject(events[i], StartedSubject) && IsSubject(events[j], StoppedSubject)
    decreases |events| - from, 1
  {
    ListenFinishedNeedsStop(events, from, retries, false);
  }

  lemma {:induction false} ListenFinishedNeedsStop(events: seq<CalibrationEvent>, from: nat, retries: int, started: bool)
    ensures from + ListenSpec(events, from, retries, started).consumed <= |events| || ListenSpec(events, from, retries, started).consumed == 0
    ensures ListenSpec(events, from, retries, started).outcome == Finished ==>
      exists j :: from <= j < from + ListenSpec(events, from, retries, started).consumed && j < |events|
        && IsSubject(events[j], StoppedSubject)
        && (started || exists i :: from <= i < j && IsSubject(events[i], StartedSubject))
    decreases |events| - from, 0
  {
    if from < |events| {
      var run := ListenSpec(events, from, retries, started);
      match events[from]
      case TimedOut =>
        if retries < MAX_RETRIES && !started {
          FinishedNeedsStartAndStop(events, from + 1, retries + 1);
        }
      case Notification(subject) =>
        if subject == ShouldStartSubject || subject == StartedSubject || (started && subject != FailedSubject && subject != StoppedSubject) {
          var started' := subject == StartedSubject || started;
          ListenFinishedNeedsStop(events, from + 1, retries, started');
          if run.outcome == Finished && !started && subject == StartedSubject {
            assert IsSubject(events[from], StartedSubject);
          }
        } else if started && subject == StoppedSubject {
          assert IsSubject(events[from], StoppedSubject);
        }
    }
  }
}
