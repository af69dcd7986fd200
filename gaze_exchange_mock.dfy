/** mock/gaze_exchange_mock.py: a stream whose `read` first writes the positions of
    `MOCK_PLAYERS` simulated players into the peer table. The configuration values
    `MOCK_PLAYERS` and `MOCK_POSITIONS` are parameters here. */
module GazeExchangeMock {
  import opened Wrappers
  import opened Text
  import opened GazeStream

  /** `"Mock_{}".format(i)`. */
  function MockKey(i: nat): string {
    "Mock_" + NatToString(i)
  }

  /** Different mock players get different keys, so no mock entry overwrites another. */
  lemma MockKeyInjective(i: nat, j: nat)
    requires MockKey(i) == MockKey(j)
    ensures i == j
  {
    assert MockKey(i)[5..] == NatToString(i);
    assert MockKey(j)[5..] == NatToString(j);
    NatToStringInjective(i, j);
  }

  /** A configured mock position as the mock stores it: y flipped to pygame coordinates. */
  function ConfiguredMockGaze(p: Gaze): (g: Gaze)
    ensures g.x == p.x && g.y + p.y == 1.0
  {
    Gaze(p.x, 1.0 - p.y)
  }

  function Hundredths(k: int): real {
    k as real / 100.0
  }

  /** `round(rand(), 2)` can only give a multiple of 0.01 in [0, 1]. */
  ghost predicate IsRoundedUnit(v: real) {
    exists k: int :: 0 <= k <= 100 && v == Hundredths(k)
  }

  /** The loop of the mock `read`: for each mock player, its configured position if there is
      one, otherwise a random one rounded to two decimals; other keys are left alone. */
  method WriteMockEntries(s: RemoteGazePositionStream, mockPlayers: int, mockPositions: seq<Gaze>)
    modifies s`receivedGazePositions
    ensures s.receivedGazePositions.Keys == old(s.receivedGazePositions).Keys + set i | 0 <= i < mockPlayers :: MockKey(i)
    ensures forall i :: 0 <= i < mockPlayers && i < |mockPositions| ==>
      s.receivedGazePositions[MockKey(i)] == ConfiguredMockGaze(mockPositions[i])
    ensures forall i :: 0 <= i < mockPlayers && i >= |mockPositions| ==>
      IsRoundedUnit(s.receivedGazePositions[MockKey(i)].x) && IsRoundedUnit(s.receivedGazePositions[MockKey(i)].y)
    ensures forall k :: k in old(s.receivedGazePositions) && (forall i :: 0 <= i < mockPlayers ==> k != MockKey(i)) ==>
      s.receivedGazePositions[k] == old(s.receivedGazePositions)[k]
  {
    var table := s.receivedGazePositions;
    ghost var before := table;
    var i := 0;
    while i < mockPlayers
      invariant 0 <= i <= if mockPlayers < 0 then 0 else mockPlayers
      invariant EntriesWritten(before, table, i, mockPositions, MockKey)
    {
      var pos: Gaze;
      if i < |mockPositions| {
        pos := ConfiguredMockGaze(mockPositions[i]);
      } else {
        var kx: int :| 0 <= kx <= 100;
        var ky: int :| 0 <= ky <= 100;
        pos := Gaze(Hundredths(kx), Hundredths(ky));
      }
      MockKeyFresh(i);
      EntryStep(before, table, i, mockPositions, MockKey, pos);
      table := table[MockKey(i) := pos];
      i := i + 1;
    }
    s.receivedGazePositions := table;
  }

  /** The table after the first `n` mock players were written into `before` under `key`. */
  ghost predicate EntriesWritten<K>(before: map<K, Gaze>, table: map<K, Gaze>, n: int, mockPositions: seq<Gaze>, key: nat -> K) {
    && table.Keys == before.Keys + (set j: nat | j < n :: key(j))
    && (forall j: nat :: j < n && j < |mockPositions| ==> table[key(j)] == ConfiguredMockGaze(mockPositions[j]))
    && (forall j: nat :: j < n && j >= |mockPositions| ==>
          IsRoundedUnit(table[key(j)].x) && IsRoundedUnit(table[key(j)].y))
    && (forall k :: k in before && (forall j: nat :: j < n ==> k != key(j)) ==> table[k] == before[k])
  }

  /** Writing player `n` under a key none of the first `n` players has keeps their entries. */
  lemma EntryStep<K>(before: map<K, Gaze>, table: map<K, Gaze>, n: nat, mockPositions: seq<Gaze>, key: nat -> K, pos: Gaze)
    requires EntriesWritten(before, table, n, mockPositions, key)
    requires forall j: nat :: j < n ==> key(j) != key(n)
    requires n < |mockPositions| ==> pos == ConfiguredMockGaze(mockPositions[n])
    requires n >= |mockPositions| ==> IsRoundedUnit(pos.x) && IsRoundedUnit(pos.y)
    ensures EntriesWritten(before, table[key(n) := pos], n + 1, mockPositions, key)
  {
    assert (set j: nat | j < n + 1 :: key(j)) == (set j: nat | j < n :: key(j)) + {key(n)};
  }

  /** The key of player `n` is none of the keys of the players before it. */
  lemma MockKeyFresh(n: nat)
    ensures forall j: nat :: j < n ==> MockKey(j) != MockKey(n)
  {
    forall j: nat | j < n
      ensures MockKey(j) != MockKey(n)
    {
      if MockKey(j) == MockKey(n) {
        MockKeyInjective(j, n);
      }
    }
  }

  /** Rounded values lie in the unit interval. */
  lemma RoundedUnitInRange(v: real)
    requires IsRoundedUnit(v)
    ensures 0.0 <= v <= 1.0
  {
    var k: int :| 0 <= k <= 100 && v == Hundredths(k);
  }

  datatype MockReadError = ReadFailed(error: StreamError) | ReadArgumentMismatch

  /** The mock `read` as written: after writing the entries it calls the base `read` with an
      argument the base method does not take, which raises TypeError on every call. */
  method MockReadAsWritten(s: RemoteGazePositionStream, mockPlayers: int, mockPositions: seq<Gaze>)
    returns (r: Result<map<string, Gaze>, MockReadError>)
    modifies s`receivedGazePositions
    ensures r == Failure(ReadArgumentMismatch)
    ensures s.receivedGazePositions.Keys == old(s.receivedGazePositions).Keys + set i | 0 <= i < mockPlayers :: MockKey(i)
    ensures forall i :: 0 <= i < mockPlayers && i < |mockPositions| ==>
      s.receivedGazePositions[MockKey(i)] == ConfiguredMockGaze(mockPositions[i])
    ensures forall i :: 0 <= i < mockPlayers && i >= |mockPositions| ==>
      IsRoundedUnit(s.receivedGazePositions[MockKey(i)].x) && IsRoundedUnit(s.receivedGazePositions[MockKey(i)].y)
    ensures forall k :: k in old(s.receivedGazePositions) && (forall i :: 0 <= i < mockPlayers ==> k != MockKey(i)) ==>
      s.receivedGazePositions[k] == old(s.receivedGazePositions)[k]
  {
    WriteMockEntries(s, mockPlayers, mockPositions);
    r := Failure(ReadArgumentMismatch);
  }

  /** The mock `read` as intended: the entries are written, then the base `read` serves the
      table, which now holds every mock player (or fails while the stream is stopped). */
  method MockRead(s: RemoteGazePositionStream, mockPlayers: int, mockPositions: seq<Gaze>)
    returns (r: Result<map<string, Gaze>, MockReadError>)
    modifies s`receivedGazePositions
    ensures r.Failure? <==> s.stopped
    ensures r.Failure? ==> r.error == ReadFailed(StreamNotRunning)
    ensures r.Success? ==> r.value == s.receivedGazePositions
    ensures s.receivedGazePositions.Keys == old(s.receivedGazePositions).Keys + set i | 0 <= i < mockPlayers :: MockKey(i)
    ensures forall i :: 0 <= i < mockPlayers && i < |mockPositions| ==>
      s.receivedGazePositions[MockKey(i)] == ConfiguredMockGaze(mockPositions[i])
    ensures forall i :: 0 <= i < mockPlayers && i >= |mockPositions| ==>
      IsRoundedUnit(s.receivedGazePositions[MockKey(i)].x) && IsRoundedUnit(s.receivedGazePositions[MockKey(i)].y)
    ensures forall k :: k in old(s.receivedGazePositions) && (forall i :: 0 <= i < mockPlayers ==> k != MockKey(i)) ==>
      s.receivedGazePositions[k] == old(s.receivedGazePositions)[k]
  {
    WriteMockEntries(s, mockPlayers, mockPositions);
    var table := s.Read();
    r := if table.Success? then Success(table.value) else Failure(ReadFailed(table.error));
  }

  /** `read` on the stream `setup_gaze_exchange` created: a mock class overrides it with the
      mock `read` (as intended), the other classes keep the base `read`, which changes
      nothing. Either way it fails exactly while the stream is stopped. */
  method ReadStream(s: RemoteGazePositionStream, mockPlayers: int, mockPositions: seq<Gaze>)
    returns (r: Result<map<string, Gaze>, MockReadError>)
    modifies s`receivedGazePositions
    ensures r.Failure? <==> s.stopped
    ensures r.Failure? ==> r.error == ReadFailed(StreamNotRunning)
    ensures r.Success? ==> r.value == s.receivedGazePositions
    ensures !s.mocked ==> s.receivedGazePositions == old(s.receivedGazePositions)
    ensures s.mocked ==>
      s.receivedGazePositions.Keys == old(s.receivedGazePositions).Keys + set i | 0 <= i < mockPlayers :: MockKey(i)
    ensures s.mocked ==> forall i :: 0 <= i < mockPlayers && i < |mockPositions| ==>
      s.receivedGazePositions[MockKey(i)] == ConfiguredMockGaze(mockPositions[i])
    ensures s.mocked ==> forall i :: 0 <= i < mockPlayers && i >= |mockPositions| ==>
      IsRoundedUnit(s.receivedGazePositions[MockKey(i)].x) && IsRoundedUnit(s.receivedGazePositions[MockKey(i)].y)
    ensures s.mocked ==> forall k :: k in old(s.receivedGazePositions) && (forall i :: 0 <= i < mockPlayers ==> k != MockKey(i)) ==>
      s.receivedGazePositions[k] == old(s.receivedGazePositions)[k]
  {
    if s.mocked {
      r := MockRead(s, mockPlayers, mockPositions);
    } else {
      var table := s.Read();
      r := if table.Success? then Success(table.value) else Failure(ReadFailed(table.error));
    }
  }
}
