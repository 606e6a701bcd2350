/** The Pod region: the `Pod` record and `Pod.CreateFromLine`, which reads a telemetry line
    "x y vx vy angle nextCheckPointId". */
module Pods {
  import opened Wrappers
  import opened Text
  import opened Geometry

  const POD_INPUT_SEPARATOR: char := ' '

  datatype Pod = Pod(CurrentPosition: Point, CurrentSpeed: Speed, Angle: int32, NextCheckPointId: int32)

  /** Pod.CreateFromLine: null or empty line, then the token count, then the six numbers in
      order; the first check that fails decides the exception. */
  function PodFromLine(line: Line): (r: Result<Pod, ParseError>)
    ensures r == Failure(ArgumentNull) <==> line.None? || line.value == []
  {
    if line.None? || line.value == [] then Failure(ArgumentNull)
    else
      var inputs := Split(line.value, POD_INPUT_SEPARATOR);
      if |inputs| != 6 then Failure(BadLineFormat)
      else
        var x :- ParseInt32(inputs[0]);
        var y :- ParseInt32(inputs[1]);
        var vx :- ParseInt32(inputs[2]);
        var vy :- ParseInt32(inputs[3]);
        var angle :- ParseInt32(inputs[4]);
        var nextCheckPointId :- ParseInt32(inputs[5]);
        Success(Pod(Point(x, y), Speed(vx, vy), angle, nextCheckPointId))
  }

  /** The pod CreateFromLine builds from the six numbers of a line, taken in line order. */
  function PodOfValues(v: seq<int32>): Pod
    requires |v| == 6
  {
    Pod(Point(v[0], v[1]), Speed(v[2], v[3]), v[4], v[5])
  }

  /** The six numbers in the order the line carries them; building a pod from them gives
      back the same pod, so no field is lost or swapped. */
  function PodValues(pod: Pod): (v: seq<int32>)
    ensures |v| == 6 && PodOfValues(v) == pod
  {
    [pod.CurrentPosition.X, pod.CurrentPosition.Y, pod.CurrentSpeed.X, pod.CurrentSpeed.Y,
     pod.Angle, pod.NextCheckPointId]
  }

  /** The line the tests build with string.Format("{0} {1} {2} {3} {4} {5}", ...): it splits
      into exactly six tokens, the decimal texts of the pod's numbers in line order. */
  function PodLine(pod: Pod): (line: string)
    ensures Split(line, POD_INPUT_SEPARATOR) ==
              seq(6, i requires 0 <= i < 6 => FormatInt(PodValues(pod)[i]))
  {
    var tokens := seq(6, i requires 0 <= i < 6 => FormatInt(PodValues(pod)[i]));
    SplitJoin(tokens, POD_INPUT_SEPARATOR);
    Join(tokens, POD_INPUT_SEPARATOR)
  }

  /** A non-empty line is rejected for its format exactly when it does not hold exactly five
      spaces; in particular a single token such as "ddd" fails here. */
  lemma PodTokenCount(s: string)
    requires s != []
    ensures PodFromLine(Some(s)) == Failure(BadLineFormat) <==> multiset(s)[' '] != 5
    ensures ' ' !in s ==> PodFromLine(Some(s)) == Failure(BadLineFormat)
  {
    SplitCount(s, POD_INPUT_SEPARATOR);
  }

  /** With the token count right, the line is read as its six tokens parsed left to right:
      tokens 0 to 5 become position X, position Y, speed X, speed Y, angle and next checkpoint
      id, and the first token that is not a decimal int decides the error, so no partly built
      pod is ever returned. */
  lemma PodReadsTokensInOrder(s: string)
    requires s != [] && |Split(s, POD_INPUT_SEPARATOR)| == 6
    ensures PodFromLine(Some(s)) ==
              match MapAll(Split(s, POD_INPUT_SEPARATOR), ParseInt32)
              case Success(v) => Success(PodOfValues(v))
              case Failure(e) => Failure(e)
  {
    var inputs := Split(s, POD_INPUT_SEPARATOR);
    if k :| 0 <= k < 6 && ParseInt32(inputs[k]).Failure? &&
            forall j :: 0 <= j < k ==> ParseInt32(inputs[j]).Success? {
      MapAllFirstFailure(inputs, ParseInt32, k);
      PodFirstBadToken(s, k);
    } else {
      var v := seq(6, i requires 0 <= i < 6 => ParseInt32(inputs[i]).value);
      MapAllOfValues(inputs, ParseInt32, v);
      PodAllTokensGood(s);
    }
  }

  /** The first token that fails to parse decides the error. */
  lemma PodFirstBadToken(s: string, k: nat)
    requires s != [] && |Split(s, POD_INPUT_SEPARATOR)| == 6 && k < 6
    requires forall j :: 0 <= j < k ==> ParseInt32(Split(s, POD_INPUT_SEPARATOR)[j]).Success?
    requires ParseInt32(Split(s, POD_INPUT_SEPARATOR)[k]).Failure?
    ensures PodFromLine(Some(s)) == Failure(ParseInt32(Split(s, POD_INPUT_SEPARATOR)[k]).error)
  {
  }

  /** When every token parses, token i lands in the i-th field. */
  lemma PodAllTokensGood(s: string)
    requires s != [] && |Split(s, POD_INPUT_SEPARATOR)| == 6
    requires forall i :: 0 <= i < 6 ==> ParseInt32(Split(s, POD_INPUT_SEPARATOR)[i]).Success?
    ensures PodValues(PodFromLine(Some(s)).value) ==
              seq(6, i requires 0 <= i < 6 => ParseInt32(Split(s, POD_INPUT_SEPARATOR)[i]).value)
  {
    var inputs := Split(s, POD_INPUT_SEPARATOR);
    var v := seq(6, i requires 0 <= i < 6 => ParseInt32(inputs[i]).value);
    assert PodFromLine(Some(s)) == Success(Pod(Point(v[0], v[1]), Speed(v[2], v[3]), v[4], v[5]));
  }

  /** Writing a pod's six numbers with single spaces and reading the line back gives the
      same pod: every field comes back from its own position in the line. */
  lemma PodRoundTrip(pod: Pod)
    ensures PodFromLine(Some(PodLine(pod))) == Success(pod)
  {
    var v := PodValues(pod);
    var tokens := Split(PodLine(pod), POD_INPUT_SEPARATOR);
    forall i | 0 <= i < 6
      ensures ParseInt32(tokens[i]) == Success(v[i])
    {
      ParseFormat(v[i]);
    }
    assert PodFromLine(Some(PodLine(pod))) == Success(PodOfValues(v));
  }
}
