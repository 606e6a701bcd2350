/** The IGameBuilder region: ConsoleBuilder reads the race set-up once (lap count, checkpoint
    count, one "x y" line per checkpoint) and, each round, two player pod lines followed by
    two opponent pod lines. The console is a sequence of lines read front to back; a read
    past its end gives null, as Console.ReadLine does at end of input. */
module GameBuilder {
  import opened Wrappers
  import opened Text
  import opened Geometry
  import opened Pods

  const COUNT_PLAYER_POD: nat := 2
  const COUNT_OPPONENT_POD: nat := 2

  datatype GlobalInput = GlobalInput(Laps: int32, CheckpointList: seq<Point>)

  datatype RoundGameInput = RoundGameInput(PlayerPod: seq<Pod>, OpponentPod: seq<Pod>)

  /** The k-th line of the console, null once the input is exhausted. */
  function LineAt(input: seq<Line>, k: nat): (line: Line)
    ensures k >= |input| ==> line.None?
  {
    if k < |input| then input[k] else None
  }

  /** The n lines read one after another starting at line `from`. */
  function Lines(input: seq<Line>, from: nat, n: nat): (lines: seq<Line>)
    ensures |lines| == n && forall i :: 0 <= i < n ==> lines[i] == LineAt(input, from + i)
  {
    seq(n, i requires 0 <= i < n => LineAt(input, from + i))
  }

  /** int.Parse applied to a console line: a null line raises ArgumentNullException, while an
      empty one is a FormatException, unlike in the CreateFromLine parsers. */
  function IntFromLine(line: Line): (r: Result<int32, ParseError>)
    ensures line.None? ==> r == Failure(ArgumentNull)
    ensures line == Some([]) ==> r == Failure(BadNumber)
  {
    if line.None? then Failure(ArgumentNull) else ParseInt32(line.value)
  }

  /** How many times `for (var i = 0; i < count; i++)` runs. */
  function LoopCount(count: int32): nat {
    if count < 0 then 0 else count as nat
  }

  /** What GetGlobalInput reads: the laps, the checkpoint count, then that many checkpoint
      lines; the first line that fails decides the exception. A successful set-up carries
      the lap count of line 0 and as many checkpoints as the loop over line 1's count runs. */
  function ReadGlobalInput(input: seq<Line>): (r: Result<GlobalInput, ParseError>)
    ensures r.Success? ==>
              IntFromLine(LineAt(input, 0)) == Success(r.value.Laps) &&
              IntFromLine(LineAt(input, 1)).Success? &&
              |r.value.CheckpointList| == LoopCount(IntFromLine(LineAt(input, 1)).value)
  {
    var laps :- IntFromLine(LineAt(input, 0));
    var checkpointCount :- IntFromLine(LineAt(input, 1));
    var checkpointList :- MapAll(Lines(input, 2, LoopCount(checkpointCount)), PointFromLine);
    Success(GlobalInput(laps, checkpointList))
  }

  /** What GetRoundInput reads from line `from` on: the player pods, then the opponent pods.
      A successful round holds exactly two pods of each side. */
  function ReadRoundInput(input: seq<Line>, from: nat): (r: Result<RoundGameInput, ParseError>)
    ensures r.Success? ==>
              |r.value.PlayerPod| == COUNT_PLAYER_POD && |r.value.OpponentPod| == COUNT_OPPONENT_POD
  {
    var playerPod :- MapAll(Lines(input, from, COUNT_PLAYER_POD), PodFromLine);
    var opponentPod :- MapAll(Lines(input, from + COUNT_PLAYER_POD, COUNT_OPPONENT_POD), PodFromLine);
    Success(RoundGameInput(playerPod, opponentPod))
  }

  /** The `for` loop that reads `count` lines and adds the parse of each to a new list. */
  method ReadEach<T>(input: seq<Line>, from: nat, count: nat, parse: Line -> Result<T, ParseError>)
    returns (r: Result<seq<T>, ParseError>)
    ensures r == MapAll(Lines(input, from, count), parse)
  {
    var list: seq<T> := [];
    for i := 0 to count
      invariant |list| == i
      invariant forall j :: 0 <= j < i ==> parse(LineAt(input, from + j)) == Success(list[j])
    {
      var item := parse(LineAt(input, from + i));
      if item.Failure? {
        assert forall j :: 0 <= j < i ==> parse(Lines(input, from, count)[j]) == Success(list[j]);
        MapAllFirstFailure(Lines(input, from, count), parse, i);
        return Failure(item.error);
      }
      list := list + [item.value];
    }
    MapAllOfValues(Lines(input, from, count), parse, list);
    return Success(list);
  }

  /** ConsoleBuilder.GetGlobalInput over the console's lines. */
  method GetGlobalInput(input: seq<Line>) returns (r: Result<GlobalInput, ParseError>)
    ensures r == ReadGlobalInput(input)
  {
    var laps := IntFromLine(LineAt(input, 0));
    if laps.Failure? {
      return Failure(laps.error);
    }
    var checkpointCount := IntFromLine(LineAt(input, 1));
    if checkpointCount.Failure? {
      return Failure(checkpointCount.error);
    }
    var checkpointList := ReadEach(input, 2, LoopCount(checkpointCount.value), PointFromLine);
    if checkpointList.Failure? {
      return Failure(checkpointList.error);
    }
    return Success(GlobalInput(laps.value, checkpointList.value));
  }

  /** ConsoleBuilder.GetPlayerPodList: the next two pod lines. */
  method GetPlayerPodList(input: seq<Line>, from: nat) returns (r: Result<seq<Pod>, ParseError>)
    ensures r == MapAll(Lines(input, from, COUNT_PLAYER_POD), PodFromLine)
  {
    r := ReadEach(input, from, COUNT_PLAYER_POD, PodFromLine);
  }

  /** ConsoleBuilder.GetOpponentPodList: the next two pod lines. */
  method GetOpponentPodList(input: seq<Line>, from: nat) returns (r: Result<seq<Pod>, ParseError>)
    ensures r == MapAll(Lines(input, from, COUNT_OPPONENT_POD), PodFromLine)
  {
    r := ReadEach(input, from, COUNT_OPPONENT_POD, PodFromLine);
  }

  /** ConsoleBuilder.GetRoundInput from line `from`; `next` is the first line of the next round. */
  method GetRoundInput(input: seq<Line>, from: nat) returns (r: Result<RoundGameInput, ParseError>, next: nat)
    ensures r == ReadRoundInput(input, from)
    ensures next == from + COUNT_PLAYER_POD + COUNT_OPPONENT_POD
  {
    next := from + COUNT_PLAYER_POD + COUNT_OPPONENT_POD;
    var playerPod := GetPlayerPodList(input, from);
    if playerPod.Failure? {
      return Failure(playerPod.error), next;
    }
    var opponentPod := GetOpponentPodList(input, from + COUNT_PLAYER_POD);
    if opponentPod.Failure? {
      return Failure(opponentPod.error), next;
    }
    r := Success(RoundGameInput(playerPod.value, opponentPod.value));
  }

  // ---------------------------------------------------------------------------
  // What the set-up and round inputs hold.

  /** A successful set-up holds the parsed lap count and exactly checkpointCount checkpoints
      (none for a negative count), checkpoint i - 2 being the parse of line i; and it
      succeeds exactly when those lines all parse. */
  lemma GlobalInputShape(input: seq<Line>)
    requires IntFromLine(LineAt(input, 0)).Success? && IntFromLine(LineAt(input, 1)).Success?
    ensures var count := LoopCount(IntFromLine(LineAt(input, 1)).value);
            ReadGlobalInput(input).Success? <==>
              forall i :: 2 <= i < 2 + count ==> PointFromLine(LineAt(input, i)).Success?
    ensures var count := LoopCount(IntFromLine(LineAt(input, 1)).value);
            ReadGlobalInput(input).Success? ==>
              ReadGlobalInput(input).value.Laps == IntFromLine(LineAt(input, 0)).value &&
              |ReadGlobalInput(input).value.CheckpointList| == count &&
              forall i :: 2 <= i < 2 + count ==>
                PointFromLine(LineAt(input, i)) == Success(ReadGlobalInput(input).value.CheckpointList[i - 2])
  {
    var laps := IntFromLine(LineAt(input, 0)).value;
    var count := LoopCount(IntFromLine(LineAt(input, 1)).value);
    var lines := Lines(input, 2, count);
    var checkpoints := MapAll(lines, PointFromLine);
    assert ReadGlobalInput(input) ==
      if checkpoints.Failure? then Failure(checkpoints.error)
      else Success(GlobalInput(laps, checkpoints.value));
    MapAllSuccess(lines, PointFromLine);
    forall i | 2 <= i < 2 + count
      ensures LineAt(input, i) == lines[i - 2]
    {
    }
  }

  /** The first checkpoint line that fails decides the set-up's error. */
  lemma GlobalInputFirstBadCheckpoint(input: seq<Line>, k: nat)
    requires IntFromLine(LineAt(input, 0)).Success? && IntFromLine(LineAt(input, 1)).Success?
    requires 2 <= k < 2 + LoopCount(IntFromLine(LineAt(input, 1)).value)
    requires forall j :: 2 <= j < k ==> PointFromLine(LineAt(input, j)).Success?
    requires PointFromLine(LineAt(input, k)).Failure?
    ensures ReadGlobalInput(input) == Failure(PointFromLine(LineAt(input, k)).error)
  {
    var count := LoopCount(IntFromLine(LineAt(input, 1)).value);
    var lines := Lines(input, 2, count);
    assert forall j :: 0 <= j < k - 2 ==> lines[j] == LineAt(input, j + 2);
    MapAllFirstFailure(lines, PointFromLine, k - 2);
  }

  /** A set-up that announces more checkpoints than the input holds fails: every checkpoint
      read consumes a line that is really there. */
  lemma GlobalInputNeedsItsLines(input: seq<Line>)
    requires ReadGlobalInput(input).Success?
    ensures 2 + |ReadGlobalInput(input).value.CheckpointList| <= |input|
  {
    var count := LoopCount(IntFromLine(LineAt(input, 1)).value);
    GlobalInputShape(input);
    // The read at line |input| is past the end of the console: it gets null and fails.
    assert PointFromLine(LineAt(input, |input|)) == Failure(ArgumentNull);
  }

  /** A successful round holds exactly two player pods, read from lines from and from + 1,
      and exactly two opponent pods, read from lines from + 2 and from + 3. */
  lemma RoundInputShape(input: seq<Line>, from: nat)
    requires ReadRoundInput(input, from).Success?
    ensures var round := ReadRoundInput(input, from).value;
            |round.PlayerPod| == COUNT_PLAYER_POD && |round.OpponentPod| == COUNT_OPPONENT_POD &&
            (forall i :: 0 <= i < COUNT_PLAYER_POD ==>
               PodFromLine(LineAt(input, from + i)) == Success(round.PlayerPod[i])) &&
            (forall i :: 0 <= i < COUNT_OPPONENT_POD ==>
               PodFromLine(LineAt(input, from + COUNT_PLAYER_POD + i)) == Success(round.OpponentPod[i]))
  {
    MapAllSuccess(Lines(input, from, COUNT_PLAYER_POD), PodFromLine);
    MapAllSuccess(Lines(input, from + COUNT_PLAYER_POD, COUNT_OPPONENT_POD), PodFromLine);
  }

  // ---------------------------------------------------------------------------
  // Round trips: the console text of a set-up or a round reads back as that set-up or round.

  /** The console lines describing a race: laps, checkpoint count, one line per checkpoint. */
  function GlobalInputLines(global: GlobalInput): seq<Line>
    requires |global.CheckpointList| < 0x8000_0000
  {
    [Some(FormatInt(global.Laps)), Some(FormatInt(|global.CheckpointList| as int32))] +
    seq(|global.CheckpointList|, i requires 0 <= i < |global.CheckpointList| =>
      Some(PointLine(global.CheckpointList[i])))
  }

  lemma GlobalInputRoundTrip(global: GlobalInput)
    requires |global.CheckpointList| < 0x8000_0000
    ensures ReadGlobalInput(GlobalInputLines(global)) == Success(global)
  {
    var input := GlobalInputLines(global);
    var ps := global.CheckpointList;
    var count := |ps| as int32;
    ParseFormat(global.Laps);
    ParseFormat(count);
    assert IntFromLine(LineAt(input, 0)) == Success(global.Laps);
    assert IntFromLine(LineAt(input, 1)) == Success(count);
    assert LoopCount(count) == |ps|;
    var lines := Lines(input, 2, |ps|);
    forall i | 0 <= i < |ps|
      ensures PointFromLine(lines[i]) == Success(ps[i])
    {
      assert lines[i] == Some(PointLine(ps[i]));
      PointRoundTrip(ps[i]);
    }
    MapAllOfValues(lines, PointFromLine, ps);
    assert ReadGlobalInput(input) == Success(GlobalInput(global.Laps, ps));
  }

  /** The console lines of one round: the player pods, then the opponent pods. */
  function RoundInputLines(round: RoundGameInput): seq<Line> {
    seq(|round.PlayerPod|, i requires 0 <= i < |round.PlayerPod| => Some(PodLine(round.PlayerPod[i]))) +
    seq(|round.OpponentPod|, i requires 0 <= i < |round.OpponentPod| => Some(PodLine(round.OpponentPod[i])))
  }

  lemma RoundInputRoundTrip(round: RoundGameInput)
    requires |round.PlayerPod| == COUNT_PLAYER_POD && |round.OpponentPod| == COUNT_OPPONENT_POD
    ensures ReadRoundInput(RoundInputLines(round), 0) == Success(round)
  {
    var input := RoundInputLines(round);
    var players := Lines(input, 0, COUNT_PLAYER_POD);
    var opponents := Lines(input, COUNT_PLAYER_POD, COUNT_OPPONENT_POD);
    forall i | 0 <= i < COUNT_PLAYER_POD
      ensures PodFromLine(players[i]) == Success(round.PlayerPod[i])
    {
      PodRoundTrip(round.PlayerPod[i]);
    }
    forall i | 0 <= i < COUNT_OPPONENT_POD
      ensures PodFromLine(opponents[i]) == Success(round.OpponentPod[i])
    {
      PodRoundTrip(round.OpponentPod[i]);
    }
    MapAllOfValues(players, PodFromLine, round.PlayerPod);
    MapAllOfValues(opponents, PodFromLine, round.OpponentPod);
  }
}
