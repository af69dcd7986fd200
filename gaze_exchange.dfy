/** messaging/gaze_exchange.py: the text a player sends for its own gaze, the lazily
    created identity and publisher held in module globals, and the choice among the four
    stream variants. */
module GazeExchange {
  import opened Wrappers
  import opened Text
  import opened GazeStream

  /** `",".join([str(pos) for pos in gaze])`. */
  function GazeString(f: FloatText, g: Gaze): string {
    f.render(g.x) + "," + f.render(g.y)
  }

  /** `"{}:{}".format(publisher_id, gaze_string)`. */
  function GazeMessage(publisherId: string, f: FloatText, g: Gaze): string {
    publisherId + ":" + GazeString(f, g)
  }

  /** What a receiver parses out of a sent gaze is the sender's id and the gaze itself,
      provided the id has no `':'` and the text of both coordinates round-trips. */
  lemma GazeMessageRoundTrip(publisherId: string, f: FloatText, g: Gaze)
    requires RoundTripsAt(f, g.x) && RoundTripsAt(f, g.y) && ':' !in publisherId
    ensures ParseGazeMessage(f, GazeMessage(publisherId, f, g)) == Success(Received(publisherId, g, false))
  {
    var gs := GazeString(f, g);
    assert ':' !in gs by {
      assert forall i :: 0 <= i < |gs| ==> gs[i] in f.render(g.x) || gs[i] == ',' || gs[i] in f.render(g.y);
    }
    assert Join([publisherId, gs], ':') == GazeMessage(publisherId, f, g);
    SplitOfJoin([publisherId, gs], ':');
    assert Join([f.render(g.x), f.render(g.y)], ',') == gs;
    SplitOfJoin([f.render(g.x), f.render(g.y)], ',');
  }

  /** Hence a received gaze is stored under its sender, replacing what was there. */
  lemma ReceivedGazeIsStored(table: map<string, Gaze>, publisherId: string, f: FloatText, g: Gaze)
    requires RoundTripsAt(f, g.x) && RoundTripsAt(f, g.y) && ':' !in publisherId
    ensures SaveGaze(table, f, GazeMessage(publisherId, f, g)) == Success(table[publisherId := g])
  {
    GazeMessageRoundTrip(publisherId, f, g);
  }

  /** The group task's events for what was written into the Pyre pipe, in order. */
  function PipeEvents(pipe: seq<string>): (events: seq<TaskEvent>)
    ensures |events| == |pipe|
  {
    if pipe == [] then [] else [FromPipe(pipe[0])] + PipeEvents(pipe[1..])
  }

  /** Reading two stretches of the pipe one after the other. */
  lemma {:induction false} PipeEventsAppend(a: seq<string>, b: seq<string>)
    ensures PipeEvents(a + b) == PipeEvents(a) + PipeEvents(b)
    decreases |a|
  {
    if a != [] {
      assert (a + b)[1..] == a[1..] + b;
      PipeEventsAppend(a[1..], b);
    } else {
      assert a + b == b;
    }
  }

  /** The messages successive `send_gaze` calls of one player put into the pipe. */
  function SentMessages(publisherId: string, f: FloatText, gazes: seq<Gaze>): (ms: seq<string>)
    ensures |ms| == |gazes|
  {
    if gazes == [] then [] else [GazeMessage(publisherId, f, gazes[0])] + SentMessages(publisherId, f, gazes[1..])
  }

  /** What `send_gaze` writes into the pipe reaches the group task: the task stores each
      sent gaze under the sender, so the last one remains, shouts every message to the
      group in order, and waits for more. */
  lemma {:induction false} SentGazesReachGroupTask(table: map<string, Gaze>, publisherId: string, f: FloatText, gazes: seq<Gaze>)
    requires ':' !in publisherId
    requires forall i :: 0 <= i < |gazes| ==> RoundTripsAt(f, gazes[i].x) && RoundTripsAt(f, gazes[i].y)
    ensures var run := RunTask(table, f, PipeEvents(SentMessages(publisherId, f, gazes)));
      && run.ending.EventsExhausted?
      && run.shouts == SentMessages(publisherId, f, gazes)
      && run.table == if gazes == [] then table else table[publisherId := gazes[|gazes| - 1]]
    decreases |gazes|
  {
    if gazes != [] {
      SentGazesReachGroupTask(table[publisherId := gazes[0]], publisherId, f, gazes[1..]);
      SentGazeThenRest(table, publisherId, f, gazes);
    } else {
      assert PipeEvents(SentMessages(publisherId, f, gazes)) == [];
    }
  }

  /** The inductive step of `SentGazesReachGroupTask`: the first sent gaze is stored and
      shouted, then the rest of the pipe behaves as it does from the updated table. */
  lemma SentGazeThenRest(table: map<string, Gaze>, publisherId: string, f: FloatText, gazes: seq<Gaze>)
    requires gazes != [] && ':' !in publisherId
    requires RoundTripsAt(f, gazes[0].x) && RoundTripsAt(f, gazes[0].y)
    requires var tail := gazes[1..];
      var r := RunTask(table[publisherId := gazes[0]], f, PipeEvents(SentMessages(publisherId, f, tail)));
      && r.ending.EventsExhausted?
      && r.shouts == SentMessages(publisherId, f, tail)
      && r.table == if tail == [] then table[publisherId := gazes[0]] else table[publisherId := gazes[0]][publisherId := tail[|tail| - 1]]
    ensures var run := RunTask(table, f, PipeEvents(SentMessages(publisherId, f, gazes)));
      && run.ending.EventsExhausted?
      && run.shouts == SentMessages(publisherId, f, gazes)
      && run.table == table[publisherId := gazes[|gazes| - 1]]
  {
    var g, tail := gazes[0], gazes[1..];
    var m := GazeMessage(publisherId, f, g);
    var sent := SentMessages(publisherId, f, tail);
    assert ([m] + sent)[1..] == sent;
    assert SentMessages(publisherId, f, gazes) == [m] + sent;
    assert PipeEvents([m] + sent) == [FromPipe(m)] + PipeEvents(sent);
    PipedGazeStep(table, publisherId, f, g, PipeEvents(sent));
    if tail != [] {
      assert tail[|tail| - 1] == gazes[|gazes| - 1];
      OverwriteTwice(table, publisherId, g, gazes[|gazes| - 1]);
    }
  }

  /** Writing a key twice leaves only the second value. */
  lemma OverwriteTwice<K, V>(m: map<K, V>, k: K, a: V, b: V)
    ensures m[k := a][k := b] == m[k := b]
  {
  }

  /** One sent gaze at the head of the pipe: the group task stores it, shouts it and goes on. */
  lemma PipedGazeStep(table: map<string, Gaze>, publisherId: string, f: FloatText, g: Gaze, rest: seq<TaskEvent>)
    requires ':' !in publisherId && RoundTripsAt(f, g.x) && RoundTripsAt(f, g.y)
    ensures var m := GazeMessage(publisherId, f, g);
      var r := RunTask(table[publisherId := g], f, rest);
      RunTask(table, f, [FromPipe(m)] + rest) == TaskRun(r.table, [m] + r.shouts, r.consumed + 1, r.ending)
  {
    var m := GazeMessage(publisherId, f, g);
    assert m[|publisherId|] == ':';
    assert m != STOP_MESSAGE;
    ReceivedGazeIsStored(table, publisherId, f, g);
    var events := [FromPipe(m)] + rest;
    assert events[0] == FromPipe(m);
    assert events[1..] == rest;
  }

  /** Followed by the sentinel `stop` appends, the sent gazes are all stored and shouted
      before the group task stops, and whatever the pipe holds after the sentinel is
      ignored. */
  lemma SentGazesThenStop(table: map<string, Gaze>, publisherId: string, f: FloatText, gazes: seq<Gaze>, later: seq<string>)
    requires ':' !in publisherId
    requires forall i :: 0 <= i < |gazes| ==> RoundTripsAt(f, gazes[i].x) && RoundTripsAt(f, gazes[i].y)
    ensures var run := RunTask(table, f, PipeEvents(SentMessages(publisherId, f, gazes) + [STOP_MESSAGE] + later));
      && run.ending.StoppedBySentinel?
      && run.consumed == |gazes| + 1
      && run.shouts == SentMessages(publisherId, f, gazes)
      && run.table == if gazes == [] then table else table[publisherId := gazes[|gazes| - 1]]
  {
    var sent := SentMessages(publisherId, f, gazes);
    var events := PipeEvents(sent + [STOP_MESSAGE] + later);
    var k := |gazes|;
    PipeEventsAppend(sent, [STOP_MESSAGE] + later);
    assert sent + [STOP_MESSAGE] + later == sent + ([STOP_MESSAGE] + later);
    assert PipeEvents([STOP_MESSAGE] + later)[0] == FromPipe(STOP_MESSAGE);
    assert events[..k] == PipeEvents(sent);
    SentGazesReachGroupTask(table, publisherId, f, gazes);
    StopSentinelEndsTask(table, f, events, k);
  }

  /** The subnet variant's id: own address, `'_'`, publish port. Its characters come from the
      address, the underscore and the decimal text of the port. */
  function SubnetPublisherId(ownIp: string, pubPort: int): (id: string)
    ensures forall i :: 0 <= i < |id| ==> id[i] in ownIp || id[i] == '_' || id[i] == '-' || IsDigit(id[i])
    ensures ':' !in ownIp ==> ':' !in id
  {
    var port := IntToString(pubPort);
    assert forall i :: 0 <= i < |port| ==> port[i] == '-' || IsDigit(port[i]);
    ownIp + "_" + port
  }

  /** `str(publisher_id)` as `format` writes it: an id not yet known prints as "None". */
  function IdText(publisherId: Option<string>): string {
    if publisherId.Some? then publisherId.value else "None"
  }

  /** The publisher `setup_publisher` returns (its socket is not modelled): its port and
      the (topic, payload) pairs it sent. */
  datatype Publisher = Publisher(pubPort: int, sent: seq<(string, string)>)

  /** Which of the four stream classes `setup_gaze_exchange` instantiates. */
  datatype StreamKind = StreamKind(transport: Transport, mocked: bool)

  function SelectStreamKind(usePyre: bool, mockPlayers: int): (k: StreamKind)
    ensures k.transport.PyreTransport? <==> usePyre
    ensures k.mocked <==> mockPlayers > 0
  {
    if usePyre then
      if mockPlayers > 0 then StreamKind(PyreTransport, true) else StreamKind(PyreTransport, false)
    else
      if mockPlayers > 0 then StreamKind(SubscriberTransport, true) else StreamKind(SubscriberTransport, false)
  }

  /** The four configurations choose four different classes. */
  lemma StreamKindsDistinct(usePyre1: bool, mock1: int, usePyre2: bool, mock2: int)
    requires SelectStreamKind(usePyre1, mock1) == SelectStreamKind(usePyre2, mock2)
    ensures usePyre1 == usePyre2 && (mock1 > 0 <==> mock2 > 0)
  {
  }

  datatype SendError =
    | NoStream      // `remote_gaze_position_stream` is still None (AttributeError)
    | NoPipe        // the stream's `pyre_pipe` is still None (AttributeError)

  /** The module globals of gaze_exchange.py, with the configuration they read. */
  class GazeExchangeState {
    const usePyreNetworking: bool
    const mockPlayers: int
    var publisher: Option<Publisher>
    var publisherId: Option<string>
    var remoteGazePositionStream: RemoteGazePositionStream?

    /** The subnet variant creates publisher and id together; the Pyre variant never
        creates a publisher. */
    ghost predicate Valid()
      reads this
    {
      if usePyreNetworking then publisher.None? else publisher.Some? == publisherId.Some?
    }

    constructor (usePyreNetworking: bool, mockPlayers: int)
      ensures this.usePyreNetworking == usePyreNetworking && this.mockPlayers == mockPlayers
      ensures Valid() && publisher.None? && publisherId.None? && remoteGazePositionStream == null
    {
      this.usePyreNetworking := usePyreNetworking;
      this.mockPlayers := mockPlayers;
      publisher := None;
      publisherId := None;
      remoteGazePositionStream := null;
    }

    /** `setup_gaze_exchange`: a new stream of the configured kind, kept in the global and
        returned. */
    method SetupGazeExchange() returns (s: RemoteGazePositionStream)
      modifies this`remoteGazePositionStream
      ensures fresh(s) && remoteGazePositionStream == s
      ensures StreamKind(s.transport, s.mocked) == SelectStreamKind(usePyreNetworking, mockPlayers)
      ensures s.name == DEFAULT_STREAM_NAME && s.stopped && s.receivedGazePositions == map[]
    {
      var kind := SelectStreamKind(usePyreNetworking, mockPlayers);
      s := new RemoteGazePositionStream(kind.transport, kind.mocked, DEFAULT_STREAM_NAME);
      remoteGazePositionStream := s;
    }

    /** `send_gaze`. Subnet variant: the first call creates the publisher (whose port is
        `pubPort`) and the id from `ownIp`, later calls reuse both; the message is published
        on the gaze topic. Pyre variant: the id is taken from the stream once it has one,
        and the message goes to the stream's pipe, not to any publisher. */
    method SendGaze(f: FloatText, g: Gaze, ownIp: string, pubPort: int) returns (err: Option<SendError>)
      requires Valid()
      modifies this`publisher, this`publisherId, remoteGazePositionStream
      ensures Valid()
      ensures remoteGazePositionStream == old(remoteGazePositionStream)
      ensures old(publisherId).Some? ==> publisherId == old(publisherId)
      ensures !usePyreNetworking ==>
        && err.None?
        && publisherId == (if old(publisher).None? then Some(SubnetPublisherId(ownIp, pubPort)) else old(publisherId))
        && var p := if old(publisher).None? then Publisher(pubPort, []) else old(publisher).value;
           publisher == Some(p.(sent := p.sent + [(TOPIC_GAZE_EXCHANGE, GazeMessage(IdText(publisherId), f, g))]))
      ensures !usePyreNetworking && remoteGazePositionStream != null ==>
        remoteGazePositionStream.pyrePipe == old(remoteGazePositionStream.pyrePipe)
      ensures usePyreNetworking ==> publisher == old(publisher)
      ensures usePyreNetworking && old(remoteGazePositionStream) == null ==> err == Some(NoStream)
      ensures usePyreNetworking && old(remoteGazePositionStream) != null ==>
        var s := remoteGazePositionStream;
        && publisherId == (if old(publisherId).None? then s.publisherId else old(publisherId))
        && (old(s.pyrePipe).None? <==> err == Some(NoPipe))
        && (old(s.pyrePipe).None? ==> s.pyrePipe == old(s.pyrePipe))
        && (old(s.pyrePipe).Some? ==>
              err.None? && s.pyrePipe == Some(old(s.pyrePipe).value + [GazeMessage(IdText(publisherId), f, g)]))
      ensures remoteGazePositionStream != null ==>
        var s := remoteGazePositionStream;
        && s.stopped == old(s.stopped) && s.receivedGazePositions == old(s.receivedGazePositions)
        && s.publisherId == old(s.publisherId) && s.subscriber == old(s.subscriber) && s.shouted == old(s.shouted)
    {
      err := None;
      if !usePyreNetworking {
        if publisher.None? {
          publisher := Some(Publisher(pubPort, []));
          publisherId := Some(SubnetPublisherId(ownIp, pubPort));
        }
        var message := GazeMessage(IdText(publisherId), f, g);
        publisher := Some(publisher.value.(sent := publisher.value.sent + [(TOPIC_GAZE_EXCHANGE, message)]));
      } else {
        var s := remoteGazePositionStream;
        if s == null {
          return Some(NoStream);
        }
        if publisherId.None? {
          publisherId := s.publisherId;
        }
        var message := GazeMessage(IdText(publisherId), f, g);
        if s.pyrePipe.None? {
          return Some(NoPipe);
        }
        s.pyrePipe := Some(s.pyrePipe.value + [message]);
      }
    }
  }
}
