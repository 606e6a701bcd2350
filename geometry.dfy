/** The Geometrie region: `Point` and `Speed` records and `Point.CreateFromLine`, which reads
    a checkpoint line "x y". Neither record is changed after construction, so both are
    values; a constructor stores its arguments in the fields of the same name. */
module Geometry {
  import opened Wrappers
  import opened Text

  const INPUT_SEPARATOR: char := ' '

  datatype Point = Point(X: int32, Y: int32)

  datatype Speed = Speed(X: int32, Y: int32)

  /** Point.CreateFromLine: null or empty line, then the token count, then each
      coordinate in order; the first check that fails decides the exception. */
  function PointFromLine(line: Line): (r: Result<Point, ParseError>)
    ensures r == Failure(ArgumentNull) <==> line.None? || line.value == []
  {
    if line.None? || line.value == [] then Failure(ArgumentNull)
    else
      var inputs := Split(line.value, INPUT_SEPARATOR);
      if |inputs| != 2 then Failure(BadLineFormat)
      else
        var checkpointX :- ParseInt32(inputs[0]);
        var checkpointY :- ParseInt32(inputs[1]);
        Success(Point(checkpointX, checkpointY))
  }

  /** The line the tests build with string.Format("{0} {1}", x, y): it splits into exactly
      the decimal texts of X and Y, in that order. */
  function PointLine(p: Point): (line: string)
    ensures Split(line, INPUT_SEPARATOR) == [FormatInt(p.X), FormatInt(p.Y)]
  {
    SplitJoin([FormatInt(p.X), FormatInt(p.Y)], INPUT_SEPARATOR);
    Join([FormatInt(p.X), FormatInt(p.Y)], INPUT_SEPARATOR)
  }

  /** A non-empty line is rejected for its format exactly when it does not hold exactly one
      space; in particular a single token such as "ddd" fails here, before any number is read. */
  lemma PointTokenCount(s: string)
    requires s != []
    ensures PointFromLine(Some(s)) == Failure(BadLineFormat) <==> multiset(s)[' '] != 1
    ensures ' ' !in s ==> PointFromLine(Some(s)) == Failure(BadLineFormat)
  {
    SplitCount(s, INPUT_SEPARATOR);
  }

  /** With the token count right, the line is read as the two tokens parsed left to right:
      the point's fields are the tokens' values in order, and the first token that is not
      a decimal int decides the error, so no partly built point is ever returned. */
  lemma PointReadsTokensInOrder(s: string)
    requires s != [] && |Split(s, INPUT_SEPARATOR)| == 2
    ensures PointFromLine(Some(s)) ==
              match MapAll(Split(s, INPUT_SEPARATOR), ParseInt32)
              case Success(v) => Success(Point(v[0], v[1]))
              case Failure(e) => Failure(e)
  {
    var inputs := Split(s, INPUT_SEPARATOR);
    MapAllSuccess(inputs, ParseInt32);
    if ParseInt32(inputs[0]).Failure? {
      MapAllFirstFailure(inputs, ParseInt32, 0);
    } else if ParseInt32(inputs[1]).Failure? {
      MapAllFirstFailure(inputs, ParseInt32, 1);
    }
  }

  /** Writing a point as "x y" and reading the line back gives the same point. */
  lemma PointRoundTrip(p: Point)
    ensures PointFromLine(Some(PointLine(p))) == Success(p)
  {
    ParseFormat(p.X);
    ParseFormat(p.Y);
  }
}
