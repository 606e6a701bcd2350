# CoderStrikeBack telemetry parsing, modelled in Dafny

CoderStrikeBack is a bot for the "Coders Strike Back" pod race. Each turn it reads
telemetry from the console. This project models the part of `CoderStrikeBack/Program.cs`
that turns those console lines into records:

- `Point.CreateFromLine` reads a checkpoint line `"x y"`.
- `Pod.CreateFromLine` reads a pod line `"x y vx vy angle nextCheckPointId"` into a pod.
  The pod holds a `Point` position, a `Speed`, an angle and the id of the next checkpoint.
- `ConsoleBuilder` builds the race set-up: the lap count, the checkpoint count and one
  point per checkpoint line. Each round it builds two player pods and then two opponent pods.

Layout, one module per file:

- `wrappers.dfy` (`Wrappers`): `Option` stands for a null reference and `Result` for a
  value or an exception. Its `:-` operator propagates the first failure, as a C# exception
  would. `MapAll` applies such an operation to each element in order and stops at the
  first failure.
- `text.dfy` (`Text`): the library behaviour the parsers depend on. This covers
  `string.Split(' ')`, `int.Parse` (simplified, see below) and `int.ToString()`. The tests
  use `int.ToString()` to build their input lines. It also defines `int32`, C#'s `int`,
  and `ParseError`, which has one case per exception the parsers raise:
  - `ArgumentNull` for ArgumentNullException;
  - `BadLineFormat` for ArgumentException;
  - `BadNumber` for FormatException;
  - `NumberOverflow` for OverflowException.
- `geometry.dfy` (`Geometry`): `Point`, `Speed` and `PointFromLine`.
- `pod.dfy` (`Pods`): `Pod` and `PodFromLine`.
- `game_builder.dfy` (`GameBuilder`): the `ConsoleBuilder` methods. Here the console is a
  sequence of lines plus the index of the next line to read. A read past the end gives
  null, as `Console.ReadLine` does at end of input.

`Point`, `Speed` and `Pod` have settable properties in C#, but nothing changes them after
construction. They are therefore datatypes, and a constructor stores each argument in the
field of the same name. The `for`/`Add` loops of `ConsoleBuilder` are one method,
`ReadEach`, with loop invariants. `ReadEach` is proved equal to `MapAll` over the lines it
reads, and the other `ConsoleBuilder` methods call it.

The parsers check in the source's order. First, a null or empty line is rejected. Then
`Split(' ')` must give exactly the expected number of tokens. Then the tokens are parsed
left to right. The first check that fails decides the exception, so a one-token line such
as `"ddd"` fails on its token count and never reaches `int.Parse`. `Split` keeps empty
tokens, so doubled, leading or trailing spaces change the count. Because failure is a
`Result`, a partly built record can never be returned.

`Point`, `Speed` and `Pod` store C# `int` values, so the model uses `int32`. A pod's
velocity is the `Speed` record.

## Model

| member | source | states |
|---|---|---|
| `Text.Split` | CoderStrikeBack/Program.cs:132 | Splitting always yields at least one token, and no token contains the separator |
| `Text.SplitCount` | CoderStrikeBack/Program.cs:132-133 | The token count is the number of separators plus one, so every extra space adds an (empty) token |
| `Text.JoinSplit` | CoderStrikeBack/Program.cs:132 | Splitting loses nothing: joining the tokens with the separator rebuilds the line |
| `Text.SplitJoin` | CoderStrikeBack/Program.cs:132 | Separator-free tokens joined with single separators split back into exactly those tokens |
| `Text.ParseInt32` | CoderStrikeBack/Program.cs:135-136 | int.Parse fails only with a number error (FormatException or OverflowException), never with a line-level exception |
| `Text.FormatNat` | CoderStrikeBack.UnitTest/PointTest.cs:43 | The decimal text of a natural number is digits only, with no superfluous leading zero, and starts with '0' exactly for zero |
| `Text.ParseFormat` | CoderStrikeBack.UnitTest/PointTest.cs:38-46 | For every int, parsing its decimal text returns that int |
| `Text.FormatParse` | CoderStrikeBack/Program.cs:135-136 | A canonical decimal text that parses is exactly the text of the value it parses to |
| `Text.FormatInt` | CoderStrikeBack.UnitTest/TestKit.cs:12-15 | The decimal text of an int is canonical (no leading zero, no "-0"). It starts with '-' exactly for negative values and holds no space, so it stays one token under Split(' ') |
| `Wrappers.MapAll` | CoderStrikeBack/Program.cs:47-50 | Reading every element successfully yields one value per element |
| `Wrappers.MapAllSuccess` | CoderStrikeBack/Program.cs:175-180 | A run of throwing steps succeeds exactly when every step succeeds, and keeps each step's value at its position |
| `Wrappers.MapAllOfValues` | CoderStrikeBack/Program.cs:47-50 | When every step succeeds with given values, the run returns exactly those values in order |
| `Wrappers.MapAllFirstFailure` | CoderStrikeBack/Program.cs:175-180 | The first step that throws decides the exception, whatever the later steps would do |
| `Geometry.PointFromLine` | CoderStrikeBack/Program.cs:128-138 | ArgumentNullException is raised exactly when the line is null or empty |
| `Geometry.PointLine` | CoderStrikeBack.UnitTest/PointTest.cs:43 | The line "x y" splits into exactly two tokens: the decimal text of X, then that of Y |
| `Geometry.PointTokenCount` | CoderStrikeBack/Program.cs:132-133 | A non-empty line raises ArgumentException exactly when it does not hold exactly one space; a line without spaces such as "ddd" always does |
| `Geometry.PointReadsTokensInOrder` | CoderStrikeBack/Program.cs:135-137 | With two tokens, the point is the two tokens parsed left to right (X first, then Y), and the first token that fails decides the error |
| `Geometry.PointRoundTrip` | CoderStrikeBack/Program.cs:122-137 | For all ints x and y, reading the line "x y" returns the point with X = x and Y = y |
| `Pods.PodFromLine` | CoderStrikeBack/Program.cs:168-189 | ArgumentNullException is raised exactly when the line is null or empty |
| `Pods.PodValues` | CoderStrikeBack/Program.cs:175-188 | Lists the pod's six numbers in the order a line carries them. Building a pod from that list, as CreateFromLine does, gives back the same pod, so no field is lost or swapped |
| `Pods.PodLine` | CoderStrikeBack.UnitTest/TestKit.cs:12-15 | The pod line splits into exactly six tokens, the decimal texts of the pod's numbers in line order |
| `Pods.PodTokenCount` | CoderStrikeBack/Program.cs:172-173 | A non-empty line raises ArgumentException exactly when it does not hold exactly five spaces; a line without spaces such as "ddd" always does |
| `Pods.PodReadsTokensInOrder` | CoderStrikeBack/Program.cs:175-188 | With six tokens, the pod is built from the tokens parsed left to right. Tokens 0 to 5 go to position X, position Y, speed X, speed Y, angle and next checkpoint id. The first token that fails decides the error |
| `Pods.PodFirstBadToken` | CoderStrikeBack/Program.cs:175-180 | With six tokens, the first token that is not a decimal int decides the exception and no pod is returned |
| `Pods.PodAllTokensGood` | CoderStrikeBack/Program.cs:182-188 | With six tokens that all parse, the pod's six fields are the six values in line order |
| `Pods.PodRoundTrip` | CoderStrikeBack/Program.cs:146-188 | For every pod, writing its six ints with single spaces and reading the line back returns the same pod |
| `GameBuilder.LineAt` | CoderStrikeBack/Program.cs:44-49 | Reading past the last console line gives null, as Console.ReadLine does at end of input |
| `GameBuilder.IntFromLine` | CoderStrikeBack/Program.cs:44-45 | int.Parse of a null console line raises ArgumentNullException; of an empty one, FormatException |
| `GameBuilder.ReadGlobalInput` | CoderStrikeBack/Program.cs:42-57 | A successful set-up carries the lap count parsed from the first line. It holds exactly as many checkpoints as the loop over the second line's count runs (none for a negative count) |
| `GameBuilder.ReadRoundInput` | CoderStrikeBack/Program.cs:59-91 | A successful round holds exactly 2 player pods and exactly 2 opponent pods |
| `GameBuilder.ReadEach` | CoderStrikeBack/Program.cs:46-50 | The for/Add loop returns the parse of each of the count lines in order, or the exception of the first line that fails |
| `GameBuilder.GetGlobalInput` | CoderStrikeBack/Program.cs:42-57 | Reads the laps, then the checkpoint count, then that many checkpoint lines; the result is the set-up those lines describe or the first exception |
| `GameBuilder.GetPlayerPodList` | CoderStrikeBack/Program.cs:83-91 | Returns the parses of the next two console lines, or the first exception |
| `GameBuilder.GetOpponentPodList` | CoderStrikeBack/Program.cs:73-81 | Returns the parses of the next two console lines, or the first exception |
| `GameBuilder.GetRoundInput` | CoderStrikeBack/Program.cs:59-66 | Reads the player pods, then the opponent pods, consuming four lines |
| `GameBuilder.GlobalInputShape` | CoderStrikeBack/Program.cs:39-50 | A successful set-up holds the parsed lap count and exactly checkpointCount points (none if the count is negative). Point i is the parse of the i-th checkpoint line. The set-up succeeds exactly when every checkpoint line parses |
| `GameBuilder.GlobalInputFirstBadCheckpoint` | CoderStrikeBack/Program.cs:47-50 | The first checkpoint line that fails decides the set-up's exception |
| `GameBuilder.GlobalInputNeedsItsLines` | CoderStrikeBack/Program.cs:47-50 | A successful set-up never announces more checkpoints than the console holds lines for |
| `GameBuilder.RoundInputShape` | CoderStrikeBack/Program.cs:73-91 | A successful round holds exactly 2 player pods from the first two lines and exactly 2 opponent pods from the next two, in input order |
| `GameBuilder.GlobalInputRoundTrip` | CoderStrikeBack/Program.cs:42-57 | The console text of any set-up (laps, count, one "x y" line per point) reads back as that set-up |
| `GameBuilder.RoundInputRoundTrip` | CoderStrikeBack/Program.cs:59-91 | The console text of any round with two player and two opponent pods reads back as that round |

## Left out

- `Program.Main` is not modelled. It reads the set-up, then loops forever reading one round after another and calling `WriteNextRound`, which returns at once. What it reads is discarded. It ends only when a read throws, at the latest at end of input: `Console.ReadLine` then gives null and `Pod.CreateFromLine(null)` raises ArgumentNullException. The pieces it calls are modelled: `ReadGlobalInput`, `ReadRoundInput` and the null line past the end (`LineAt`).
- Console I/O is not modelled: `Console.ReadLine` is replaced by a sequence of lines and a line index.
- `Text.ParseInt32`: this is a simplified `int.Parse`. It accepts an optional `-` followed by one or more ASCII digits, with the value in the `int` range. .NET also accepts leading and trailing white space and a leading `+`, and depends on the culture. None of that is modelled. A malformed token is `BadNumber` and an out-of-range one is `NumberOverflow`.
- The exception messages are not modelled, nor the exception class hierarchy (ArgumentNullException is itself an ArgumentException). Each exception is a distinct `ParseError` case.
- The `inputs == null` test is not modelled, because `string.Split` never returns null.
- `GameBuilder.GetRoundInput`: `next` is the first line of the following round only after a successful read. After an exception, the console position is not tracked.
- `GlobalInput`, `RoundGameInput` and their `List`s are not modelled as objects with setters. They become datatypes holding sequences, because nothing changes them after construction. The field `OppenentPod` is named `OpponentPod`.
- The geometry, checkpoint, race and command classes are not part of this model: `Vector`, `Circle`, `Angle`, `Checkpoint`, `Race` and the pod commands. Other unit tests exercise them, but `Program.cs` does not contain them. This also leaves out their floating-point arithmetic.
- Tests written for other versions of the classes are not modelled: `Point.ToString`, `Speed` equality, and the ignored or mock-based tests. None of these members exist in `Program.cs`.
