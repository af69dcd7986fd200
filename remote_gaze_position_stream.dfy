/** The peer gaze table of messaging/remote_gaze_position_stream.py: the text format
    `"<sender>:<x>,<y>"` is parsed into a table that keeps the latest position per sender
    (last value wins), served by `read`/`read_list`, and filled either by the subnet
    subscriber's receive loop or by the Pyre group task's event dispatch. */
module GazeStream {
  import opened Wrappers
  import opened Text

  const TOPIC_GAZE_EXCHANGE := "gaze_exchange"
  const GROUP_GAZE_EXCHANGE := "GAZE_EXCHANGE"
  const STOP_MESSAGE := "$$STOP"
  const DEFAULT_STREAM_NAME := "RemoteGazePositionStream"

  /** A normalised point of regard, a Python `(float, float)` tuple. */
  datatype Gaze = Gaze(x: real, y: real)

  /** Python's `str(float)` and `float(str)`, which this model does not define: `render`
      writes a float as text, `parse` reads text back or fails with ValueError (`None`). */
  datatype FloatText = FloatText(render: real -> string, parse: string -> Option<real>)

  /** What the gaze round trip needs of the float text at one value: the rendered float
      reads back as itself and contains neither of the two field separators. */
  predicate RoundTripsAt(f: FloatText, x: real) {
    f.parse(f.render(x)) == Some(x) && ':' !in f.render(x) && ',' !in f.render(x)
  }

  /** The exceptions `save_gaze_from_message` can raise. */
  datatype ParseError =
    | SenderFieldCount(pieces: nat)   // `sender_id, pos_msg = message.split(":")` does not unpack (ValueError)
    | NotANumber(text: string)        // `float(...)` rejects a coordinate (ValueError)
    | MissingCoordinate               // `positions[1]` on a one-field list (IndexError)

  /** A parsed message; `warned` records the "Wrong gaze received" print for a comma-field
      count other than two. */
  datatype Received = Received(sender: string, gaze: Gaze, warned: bool)

  /** The parsing half of `save_gaze_from_message`: split once on `':'`, then on `','`,
      then convert the first two fields, left to right, as the tuple expression does. */
  function ParseGazeMessage(f: FloatText, message: string): (r: Result<Received, ParseError>)
    ensures |Split(message, ':')| != 2 ==> r == Failure(SenderFieldCount(|Split(message, ':')|))
    ensures r.Success? ==> ':' !in r.value.sender && StartsWith(message, r.value.sender + ":")
    ensures |Split(message, ':')| == 2 && |Split(Split(message, ':')[1], ',')| == 1 ==> r.Failure?
    ensures r.Success? ==> (r.value.warned <==> |Split(Split(message, ':')[1], ',')| > 2)
  {
    var parts := Split(message, ':');
    if |parts| != 2 then Failure(SenderFieldCount(|parts|))
    else
      assert message == parts[0] + ":" + parts[1] by {
        assert Join(parts, ':') == parts[0] + [':'] + Join(parts[1..], ':');
      }
      assert (parts[0] + ":")[..] == message[..|parts[0]| + 1];
      var positions := Split(parts[1], ',');
      match f.parse(positions[0])
      case None => Failure(NotANumber(positions[0]))
      case Some(x) =>
        if |positions| < 2 then Failure(MissingCoordinate)
        else
          match f.parse(positions[1])
          case None => Failure(NotANumber(positions[1]))
          case Some(y) => Success(Received(parts[0], Gaze(x, y), |positions| != 2))
  }

  /** `save_gaze_from_message` on the table alone: a well-formed message overwrites the
      entry of its sender and nothing else; a malformed one raises before the write. */
  function SaveGaze(table: map<string, Gaze>, f: FloatText, message: string): (r: Result<map<string, Gaze>, ParseError>)
    ensures r.Failure? <==> ParseGazeMessage(f, message).Failure?
    ensures r.Failure? ==> r.error == ParseGazeMessage(f, message).error
    ensures r.Success? ==>
      var p := ParseGazeMessage(f, message).value;
      && r.value.Keys == table.Keys + {p.sender}
      && r.value[p.sender] == p.gaze
      && forall k :: k in table && k != p.sender ==> r.value[k] == table[k]
  {
    match ParseGazeMessage(f, message)
    case Failure(e) => Failure(e)
    case Success(p) => Success(table[p.sender := p.gaze])
  }

  /** A message made of a colon-free sender and colon- and comma-free fields parses by its
      fields, left to right: a first field `float` rejects fails with `NotANumber`, a lone
      field fails with `MissingCoordinate`, a rejected second field fails with
      `NotANumber`, and otherwise the first two fields are the gaze, with the warning
      exactly when further fields follow. */
  lemma ParseGazeFields(f: FloatText, sender: string, fields: seq<string>)
    requires ':' !in sender && |fields| >= 1
    requires forall i :: 0 <= i < |fields| ==> ':' !in fields[i] && ',' !in fields[i]
    ensures var r := ParseGazeMessage(f, sender + ":" + Join(fields, ','));
      && (f.parse(fields[0]).None? ==> r == Failure(NotANumber(fields[0])))
      && (f.parse(fields[0]).Some? && |fields| == 1 ==> r == Failure(MissingCoordinate))
      && (f.parse(fields[0]).Some? && |fields| >= 2 && f.parse(fields[1]).None? ==>
            r == Failure(NotANumber(fields[1])))
      && (f.parse(fields[0]).Some? && |fields| >= 2 && f.parse(fields[1]).Some? ==>
            r == Success(Received(sender, Gaze(f.parse(fields[0]).value, f.parse(fields[1]).value), |fields| > 2)))
  {
    var payload := Join(fields, ',');
    JoinExcludes(fields, ',', ':');
    assert Join([sender, payload], ':') == sender + ":" + payload;
    SplitOfJoin([sender, payload], ':');
    SplitOfJoin(fields, ',');
  }

  /** On the table: a coordinate `float` rejects raises, so no entry is created or altered;
      two or more numeric fields store the first two under the sender, whatever follows. */
  lemma SaveGazeFields(table: map<string, Gaze>, f: FloatText, sender: string, fields: seq<string>)
    requires ':' !in sender && |fields| >= 1
    requires forall i :: 0 <= i < |fields| ==> ':' !in fields[i] && ',' !in fields[i]
    ensures var r := SaveGaze(table, f, sender + ":" + Join(fields, ','));
      && (f.parse(fields[0]).None? ==> r == Failure(NotANumber(fields[0])))
      && (f.parse(fields[0]).Some? && |fields| >= 2 && f.parse(fields[1]).None? ==>
            r == Failure(NotANumber(fields[1])))
      && (f.parse(fields[0]).Some? && |fields| >= 2 && f.parse(fields[1]).Some? ==>
            r == Success(table[sender := Gaze(f.parse(fields[0]).value, f.parse(fields[1]).value)]))
  {
    ParseGazeFields(f, sender, fields);
  }

  /** The malformed payload `peer7:notanumber`: when `float` rejects the text, saving the
      message fails with `NotANumber` and leaves no entry for `peer7`. */
  lemma NonNumericPayloadNotStored(table: map<string, Gaze>, f: FloatText)
    requires f.parse("notanumber").None?
    ensures SaveGaze(table, f, "peer7:notanumber") == Failure(NotANumber("notanumber"))
  {
    assert "peer7:notanumber" == "peer7" + ":" + Join(["notanumber"], ',');
    SaveGazeFields(table, f, "peer7", ["notanumber"]);
  }

  /** What the subscriber's receive loop leaves behind: the table, how many messages it
      took, and the error that ended it, if one did. */
  datatype ReceiveRun = ReceiveRun(table: map<string, Gaze>, consumed: nat, error: Option<ParseError>)

  /** The messages of `update`, applied in order until one raises (which ends the thread). */
  function ReceiveAll(table: map<string, Gaze>, f: FloatText, messages: seq<string>): (r: ReceiveRun)
    ensures r.consumed <= |messages|
    ensures r.error.None? ==> r.consumed == |messages|
    ensures r.error.Some? ==> r.consumed >= 1
    decreases |messages|
  {
    if messages == [] then ReceiveRun(table, 0, None)
    else
      match SaveGaze(table, f, messages[0])
      case Failure(e) => ReceiveRun(table, 1, Some(e))
      case Success(t) =>
        var rest := ReceiveAll(t, f, messages[1..]);
        ReceiveRun(rest.table, rest.consumed + 1, rest.error)
  }

  /** The position the last well-formed message from `sender` carries, if any. */
  function LastGazeFrom(f: FloatText, messages: seq<string>, sender: string): Option<Gaze>
    decreases |messages|
  {
    if messages == [] then None
    else
      var later := LastGazeFrom(f, messages[1..], sender);
      if later.Some? then later
      else match ParseGazeMessage(f, messages[0])
        case Success(p) => if p.sender == sender then Some(p.gaze) else None
        case Failure(_) => None
  }

  /** Last value wins: after a run without errors, each sender's entry holds the position of
      its last message, and a sender with no message keeps its earlier entry (or none). */
  lemma {:induction false} LastValueWins(table: map<string, Gaze>, f: FloatText, messages: seq<string>, sender: string)
    requires ReceiveAll(table, f, messages).error.None?
    ensures var t := ReceiveAll(table, f, messages).table;
      match LastGazeFrom(f, messages, sender)
      case Some(g) => sender in t && t[sender] == g
      case None => (sender in t <==> sender in table) && (sender in table ==> t[sender] == table[sender])
    decreases |messages|
  {
    if messages != [] {
      var t1 := SaveGaze(table, f, messages[0]).value;
      LastValueWins(t1, f, messages[1..], sender);
    }
  }

  /** A group-task event: a message the foreground put on the pipe, or an event of the
      Pyre node (after its type, peer and name frames). */
  datatype NodeEvent =
    | Shout(group: string, payload: string)
    | Enter(headers: map<string, string>)
    | OtherNodeEvent(msgType: string)

  datatype TaskEvent =
    | FromPipe(message: string)
    | FromNode(peer: string, peerName: string, event: NodeEvent)

  datatype TaskOutcome = Continue | StopRequested | Crashed(error: ParseError)

  /** The effect of one loop iteration: new table, what was shouted to the group. */
  datatype TaskStep = TaskStep(table: map<string, Gaze>, shout: Option<string>, outcome: TaskOutcome)

  /** One iteration of `gaze_exchange_task`. */
  function DispatchEvent(table: map<string, Gaze>, f: FloatText, e: TaskEvent): (r: TaskStep)
    ensures e == FromPipe(STOP_MESSAGE) ==> r == TaskStep(table, None, StopRequested)
    ensures r.outcome.Crashed? ==> r.table == table && r.shout.None?
    ensures r.outcome.StopRequested? ==> e == FromPipe(STOP_MESSAGE)
    ensures r.shout.Some? ==> e.FromPipe? && r.shout.value == e.message && r.outcome.Continue?
    ensures e.FromPipe? && e.message != STOP_MESSAGE ==>
      (r.shout.Some? <==> SaveGaze(table, f, e.message).Success?)
    ensures e.FromNode? && !e.event.Shout? ==> r == TaskStep(table, None, Continue)
    ensures GazePayload(e).Some? ==>
      match SaveGaze(table, f, GazePayload(e).value)
      case Success(t) => r.table == t && r.outcome.Continue?
      case Failure(err) => r.table == table && r.outcome == Crashed(err)
  {
    match e
    case FromPipe(message) =>
      if message == STOP_MESSAGE then TaskStep(table, None, StopRequested)
      else (
        match SaveGaze(table, f, message)
        case Failure(err) => TaskStep(table, None, Crashed(err))
        case Success(t) => TaskStep(t, Some(message), Continue))
    case FromNode(_, _, Shout(_, payload)) => (
      match SaveGaze(table, f, payload)
      case Failure(err) => TaskStep(table, None, Crashed(err))
      case Success(t) => TaskStep(t, None, Continue))
    case FromNode(_, _, _) => TaskStep(table, None, Continue)
  }

  /** The gaze message an event hands to the parser: a pipe message other than the stop
      sentinel, or the payload of a SHOUT. */
  function GazePayload(e: TaskEvent): Option<string> {
    match e
    case FromPipe(message) => if message == STOP_MESSAGE then None else Some(message)
    case FromNode(_, _, Shout(_, payload)) => Some(payload)
    case FromNode(_, _, _) => None
  }

  /** How the group task ended, the table it left and what it shouted. */
  datatype TaskEnding = EventsExhausted | StoppedBySentinel | TaskCrashed(error: ParseError)
  datatype TaskRun = TaskRun(table: map<string, Gaze>, shouts: seq<string>, consumed: nat, ending: TaskEnding)

  /** The group task's loop over an event trace, until the sentinel or an exception. */
  function RunTask(table: map<string, Gaze>, f: FloatText, events: seq<TaskEvent>): (r: TaskRun)
    ensures r.consumed <= |events|
    ensures r.ending.EventsExhausted? ==> r.consumed == |events|
    ensures !r.ending.EventsExhausted? ==> r.consumed >= 1
    ensures |r.shouts| <= r.consumed
    decreases |events|
  {
    if events == [] then TaskRun(table, [], 0, EventsExhausted)
    else
      var step := DispatchEvent(table, f, events[0]);
      match step.outcome
      case StopRequested => TaskRun(table, [], 1, StoppedBySentinel)
      case Crashed(err) => TaskRun(table, [], 1, TaskCrashed(err))
      case Continue =>
        var rest := RunTask(step.table, f, events[1..]);
        var shouts := if step.shout.Some? then [step.shout.value] + rest.shouts else rest.shouts;
        TaskRun(rest.table, shouts, rest.consumed + 1, rest.ending)
  }

  /** `RunTask` on the events from position `i` on, unfolded by one event. */
  lemma RunTaskAt(table: map<string, Gaze>, f: FloatText, events: seq<TaskEvent>, i: nat)
    requires i < |events|
    ensures var step := DispatchEvent(table, f, events[i]);
      var r := RunTask(table, f, events[i..]);
      && (step.outcome.StopRequested? ==> r == TaskRun(table, [], 1, StoppedBySentinel))
      && (step.outcome.Crashed? ==> r == TaskRun(table, [], 1, TaskCrashed(step.outcome.error)))
      && (step.outcome.Continue? ==>
            var rest := RunTask(step.table, f, events[i + 1..]);
            r == TaskRun(rest.table, (if step.shout.Some? then [step.shout.value] else []) + rest.shouts, rest.consumed + 1, rest.ending))
  {
    assert events[i..][0] == events[i];
    assert events[i..][1..] == events[i + 1..];
    var step := DispatchEvent(table, f, events[i]);
    if step.outcome.Continue? && step.shout.None? {
      assert [] + RunTask(step.table, f, events[i + 1..]).shouts == RunTask(step.table, f, events[i + 1..]).shouts;
    }
  }

  /** The gaze messages a trace of group events carries, in order. */
  function Payloads(events: seq<TaskEvent>): seq<string> {
    if events == [] then []
    else match GazePayload(events[0])
      case Some(m) => [m] + Payloads(events[1..])
      case None => Payloads(events[1..])
  }

  /** The group variant keeps the same table as the subscriber variant: without a stop
      sentinel, the group task's table is what the receive loop makes of the same messages,
      and both stop at the same malformed message. */
  lemma {:induction false} GroupTableMatchesSubscriber(table: map<string, Gaze>, f: FloatText, events: seq<TaskEvent>)
    requires forall i :: 0 <= i < |events| ==> events[i] != FromPipe(STOP_MESSAGE)
    ensures var run := RunTask(table, f, events);
      var recv := ReceiveAll(table, f, Payloads(events));
      && run.table == recv.table
      && (run.ending.TaskCrashed? <==> recv.error.Some?)
      && (run.ending.TaskCrashed? ==> run.ending.error == recv.error.value)
    decreases |events|
  {
    if events != [] {
      var step := DispatchEvent(table, f, events[0]);
      if step.outcome.Continue? {
        GroupTableMatchesSubscriber(step.table, f, events[1..]);
        if GazePayload(events[0]).Some? {
          assert Payloads(events)[1..] == Payloads(events[1..]);
        }
      }
    }
  }

  /** The stop sentinel ends the group task: once every earlier event has been handled without a
      crash, the group task stops at the sentinel, keeps the table those events made, and ignores
      everything after it. */
  lemma {:induction false} StopSentinelEndsTask(table: map<string, Gaze>, f: FloatText, events: seq<TaskEvent>, k: nat)
    requires k < |events| && events[k] == FromPipe(STOP_MESSAGE)
    requires RunTask(table, f, events[..k]).ending.EventsExhausted?
    ensures RunTask(table, f, events).ending.StoppedBySentinel?
    ensures RunTask(table, f, events).consumed == k + 1
    ensures RunTask(table, f, events).table == RunTask(table, f, events[..k]).table
    ensures RunTask(table, f, events).shouts == RunTask(table, f, events[..k]).shouts
    decreases k
  {
    assert events[0..] == events;
    RunTaskAt(table, f, events, 0);
    if k > 0 {
      var step := DispatchEvent(table, f, events[0]);
      assert events[..k][0..] == events[..k];
      RunTaskAt(table, f, events[..k], 0);
      assert events[..k][1..] == events[1..][..k - 1];
      StopSentinelEndsTask(step.table, f, events[1..], k - 1);
    }
  }

  datatype Transport = SubscriberTransport | PyreTransport

  /** The subscriber `setup_subscriber` returns (its sockets are not modelled): the topics
      it filters on and whether it was started. */
  datatype Subscription = Subscription(topics: seq<string>, started: bool)

  datatype StreamError =
    | StreamNotRunning   // `read` while stopped (ValueError)
    | PipeMissing        // `pyre_pipe` is still None (AttributeError)

  /** `AbstractRemoteGazePositionStream` with its two subclasses: `transport` says which
      subclass it is, `mocked` whether the mock overlay of mock/gaze_exchange_mock.py is on. */
  class RemoteGazePositionStream {
    const transport: Transport
    const mocked: bool
    const name: string
    var stopped: bool
    var receivedGazePositions: map<string, Gaze>
    var subscriber: Option<Subscription>
    /** Pyre only: the node's identifier, set by the group task. */
    var publisherId: Option<string>
    /** Pyre only: the messages handed to the group task over the pipe; None before `start`. */
    var pyrePipe: Option<seq<string>>
    /** Pyre only: the messages the group task shouted to the group. */
    var shouted: seq<string>

    /** A fresh stream is stopped, has an empty table and no subscriber. */
    constructor (transport: Transport, mocked: bool, name: string)
      ensures this.transport == transport && this.mocked == mocked && this.name == name
      ensures stopped && receivedGazePositions == map[] && subscriber.None?
      ensures publisherId.None? && pyrePipe.None? && shouted == []
    {
      this.transport := transport;
      this.mocked := mocked;
      this.name := name;
      stopped := true;
      receivedGazePositions := map[];
      subscriber := None;
      publisherId := None;
      pyrePipe := None;
      shouted := [];
    }

    /** `start`: the subscriber variant subscribes to the gaze topic and starts its
        subscriber, the Pyre variant opens the pipe to its task; both clear `stopped`.
        Starting the background thread is not modelled. */
    method Start()
      modifies this`stopped, this`subscriber, this`pyrePipe
      ensures !stopped
      ensures transport == SubscriberTransport ==>
        subscriber == Some(Subscription([TOPIC_GAZE_EXCHANGE], true)) && pyrePipe == old(pyrePipe)
      ensures transport == PyreTransport ==> pyrePipe == Some([]) && subscriber == old(subscriber)
    {
      if transport == SubscriberTransport {
        subscriber := Some(Subscription([TOPIC_GAZE_EXCHANGE], true));
      } else {
        pyrePipe := Some([]);
      }
      stopped := false;
    }

    /** `stop`: sets `stopped`; the Pyre variant then sends the stop sentinel on its pipe,
        which raises when the stream was never started. */
    method Stop() returns (r: Option<StreamError>)
      modifies this`stopped, this`pyrePipe
      ensures stopped
      ensures transport == SubscriberTransport ==> r.None? && pyrePipe == old(pyrePipe)
      ensures transport == PyreTransport ==>
        && (r.Some? <==> old(pyrePipe).None?)
        && (r.Some? ==> r.value == PipeMissing && pyrePipe == old(pyrePipe))
        && (r.None? ==> pyrePipe == Some(old(pyrePipe).value + [STOP_MESSAGE]))
    {
      stopped := true;
      r := None;
      if transport == PyreTransport {
        if pyrePipe.None? {
          r := Some(PipeMissing);
        } else {
          pyrePipe := Some(pyrePipe.value + [STOP_MESSAGE]);
        }
      }
    }

    /** `save_gaze_from_message`: the table changes exactly as `SaveGaze` says, and not at
        all when the message raises. */
    method SaveGazeFromMessage(f: FloatText, message: string) returns (err: Option<ParseError>)
      modifies this`receivedGazePositions
      ensures err.None? <==> SaveGaze(old(receivedGazePositions), f, message).Success?
      ensures err.None? ==> receivedGazePositions == SaveGaze(old(receivedGazePositions), f, message).value
      ensures err.Some? ==>
        receivedGazePositions == old(receivedGazePositions) && err.value == SaveGaze(old(receivedGazePositions), f, message).error
    {
      var r := SaveGaze(receivedGazePositions, f, message);
      if r.Success? {
        receivedGazePositions := r.value;
        err := None;
      } else {
        err := Some(r.error);
      }
    }

    /** `read`: fails while stopped, otherwise the table itself. */
    function Read(): (r: Result<map<string, Gaze>, StreamError>)
      reads this
      ensures r.Failure? <==> stopped
      ensures r.Failure? ==> r.error == StreamNotRunning
      ensures r.Success? ==> r.value == receivedGazePositions
    {
      if stopped then Failure(StreamNotRunning) else Success(receivedGazePositions)
    }

    /** `read_list`: the table's values, one per key, in some order of the keys (Python's
        dictionary insertion order is not modelled). */
    method ReadList() returns (r: Result<seq<Gaze>, StreamError>, ghost keys: seq<string>)
      ensures r.Failure? <==> stopped
      ensures r.Success? ==>
        && |keys| == |r.value|
        && (forall i, j :: 0 <= i < j < |keys| ==> keys[i] != keys[j])
        && (forall i :: 0 <= i < |keys| ==> keys[i] in receivedGazePositions && r.value[i] == receivedGazePositions[keys[i]])
        && (forall k :: k in receivedGazePositions ==> k in keys)
    {
      keys := [];
      var table := Read();
      if table.Failure? {
        return Failure(table.error), keys;
      }
      var m := table.value;
      var values: seq<Gaze> := [];
      var rest := m.Keys;
      while rest != {}
        invariant rest <= m.Keys
        invariant |keys| == |values|
        invariant forall i, j :: 0 <= i < j < |keys| ==> keys[i] != keys[j]
        invariant forall i :: 0 <= i < |keys| ==> keys[i] in m && keys[i] !in rest && values[i] == m[keys[i]]
        invariant forall k :: k in m ==> k in rest || k in keys
        decreases rest
      {
        var k :| k in rest;
        keys := keys + [k];
        values := values + [m[k]];
        rest := rest - {k};
      }
      r := Success(values);
    }

    /** The subscriber variant's `update` loop over the messages it receives: each is saved
        in turn while the stream runs; the first one that raises ends the thread. */
    method Update(f: FloatText, messages: seq<string>) returns (consumed: nat, err: Option<ParseError>)
      modifies this`receivedGazePositions
      ensures old(stopped) ==> consumed == 0 && err.None? && receivedGazePositions == old(receivedGazePositions)
      ensures !old(stopped) ==>
        var run := ReceiveAll(old(receivedGazePositions), f, messages);
        receivedGazePositions == run.table && consumed == run.consumed && err == run.error
    {
      consumed, err := 0, None;
      ghost var run := ReceiveAll(receivedGazePositions, f, messages);
      while !stopped && consumed < |messages|
        invariant consumed <= |messages|
        invariant err.None?
        invariant old(stopped) ==> consumed == 0 && receivedGazePositions == old(receivedGazePositions)
        invariant !old(stopped) ==>
          var rest := ReceiveAll(receivedGazePositions, f, messages[consumed..]);
          run.table == rest.table && run.consumed == consumed + rest.consumed && run.error == rest.error
        decreases |messages| - consumed
      {
        assert messages[consumed..][1..] == messages[consumed + 1..];
        var e := SaveGazeFromMessage(f, messages[consumed]);
        consumed := consumed + 1;
        if e.Some? {
          err := e;
          return;
        }
      }
    }

    /** The Pyre variant's `gaze_exchange_task`: takes the node's identifier, then handles
        events until the sentinel, an exception or the end of the trace; the messages it
        shouts are appended to `shouted`. Joining the group and the poller are not modelled. */
    method GazeExchangeTask(f: FloatText, nodeId: string, events: seq<TaskEvent>) returns (consumed: nat, ending: TaskEnding)
      modifies this`publisherId, this`receivedGazePositions, this`shouted
      ensures publisherId == Some(nodeId)
      ensures old(stopped) ==>
        consumed == 0 && ending.EventsExhausted? && receivedGazePositions == old(receivedGazePositions) && shouted == old(shouted)
      ensures !old(stopped) ==>
        var run := RunTask(old(receivedGazePositions), f, events);
        && receivedGazePositions == run.table && shouted == old(shouted) + run.shouts
        && consumed == run.consumed && ending == run.ending
    {
      publisherId := Some(nodeId);
      consumed, ending := 0, EventsExhausted;
      if stopped {
        return;
      }
      var table := receivedGazePositions;
      var out: seq<string> := [];
      ghost var run := RunTask(table, f, events);
      while consumed < |events|
        invariant consumed <= |events|
        invariant publisherId == Some(nodeId) && shouted == old(shouted)
        invariant var rest := RunTask(table, f, events[consumed..]);
          run == TaskRun(rest.table, out + rest.shouts, consumed + rest.consumed, rest.ending)
        decreases |events| - consumed
      {
        RunTaskAt(table, f, events, consumed);
        var step := DispatchEvent(table, f, events[consumed]);
        consumed := consumed + 1;
        if !step.outcome.Continue? {
          ending := if step.outcome.StopRequested? then StoppedBySentinel else TaskCrashed(step.outcome.error);
          assert out + [] == out;
          break;
        }
        table := step.table;
        if step.shout.Some? {
          out := out + [step.shout.value];
        }
      }
      assert run == TaskRun(table, out, consumed, ending);
      receivedGazePositions := table;
      shouted := shouted + out;
    }
  }
}
