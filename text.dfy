/** The pieces of the .NET library the parsers rely on: `string.Split(char)`, a decimal
    `int.Parse` restricted to an optional minus sign followed by digits, and
    `int.ToString()`, which the tests use to build input lines. */
module Text {
  import opened Wrappers

  /** C#'s `int`: a 32-bit two's-complement integer. */
  newtype int32 = x: int | -0x8000_0000 <= x < 0x8000_0000

  /** A line as `Console.ReadLine` returns it: None stands for null (end of input). */
  type Line = Option<string>

  /** The exceptions the parsing layer raises, one case per exception class. */
  datatype ParseError =
    | ArgumentNull     // ArgumentNullException: the line is null or empty
    | BadLineFormat    // ArgumentException: the line has the wrong number of tokens
    | BadNumber        // FormatException from int.Parse: the token is not a decimal integer
    | NumberOverflow   // OverflowException from int.Parse: the value does not fit an int

  // ---------------------------------------------------------------------------
  // string.Split(char): every separator ends a token, so empty tokens are kept.

  function Split(s: string, sep: char): (tokens: seq<string>)
    ensures |tokens| >= 1
    ensures forall i :: 0 <= i < |tokens| ==> sep !in tokens[i]
  {
    if s == [] then [[]]
    else
      var rest := Split(s[1..], sep);
      if s[0] == sep then [[]] + rest
      else [[s[0]] + rest[0]] + rest[1..]
  }

  /** The tokens written back with one separator between neighbours. */
  function Join(tokens: seq<string>, sep: char): string
    requires |tokens| >= 1
  {
    if |tokens| == 1 then tokens[0] else tokens[0] + [sep] + Join(tokens[1..], sep)
  }

  /** Split yields one token more than there are separators: a doubled, leading or
      trailing separator adds an (empty) token. */
  lemma {:induction false} SplitCount(s: string, sep: char)
    ensures |Split(s, sep)| == multiset(s)[sep] + 1
  {
    if s != [] {
      SplitCount(s[1..], sep);
      assert s == [s[0]] + s[1..];
      assert multiset(s) == multiset([s[0]]) + multiset(s[1..]);
    }
  }

  /** Splitting loses nothing: joining the tokens again gives back the line. */
  lemma {:induction false} JoinSplit(s: string, sep: char)
    ensures Join(Split(s, sep), sep) == s
  {
    if s != [] {
      var rest := Split(s[1..], sep);
      JoinSplit(s[1..], sep);
      if s[0] == sep {
        assert ([[]] + rest)[1..] == rest;
        assert s == [sep] + s[1..];
      } else {
        var tokens := [[s[0]] + rest[0]] + rest[1..];
        if |rest| > 1 {
          assert tokens[1..] == rest[1..];
        }
        assert s == [s[0]] + s[1..];
      }
    }
  }

  /** A token free of separators stays glued to whatever token follows it. */
  lemma {:induction false} SplitPrefix(t: string, rest: string, sep: char)
    requires sep !in t
    ensures Split(t + rest, sep) == [t + Split(rest, sep)[0]] + Split(rest, sep)[1..]
  {
    if t == [] {
      assert t + rest == rest;
      assert t + Split(rest, sep)[0] == Split(rest, sep)[0];
    } else {
      assert (t + rest)[1..] == t[1..] + rest;
      SplitPrefix(t[1..], rest, sep);
      assert [t[0]] + (t[1..] + Split(rest, sep)[0]) == t + Split(rest, sep)[0];
    }
  }

  /** Joining separator-free tokens and splitting again returns the same tokens. */
  lemma {:induction false} SplitJoin(tokens: seq<string>, sep: char)
    requires |tokens| >= 1
    requires forall i :: 0 <= i < |tokens| ==> sep !in tokens[i]
    ensures Split(Join(tokens, sep), sep) == tokens
  {
    if |tokens| == 1 {
      SplitPrefix(tokens[0], [], sep);
      assert tokens[0] + [] == tokens[0];
    } else {
      var tail := Join(tokens[1..], sep);
      assert forall i :: 0 <= i < |tokens| - 1 ==> tokens[1..][i] == tokens[i + 1];
      SplitJoin(tokens[1..], sep);
      assert ([sep] + tail)[1..] == tail;
      assert Split([sep] + tail, sep) == [[]] + tokens[1..];
      assert Join(tokens, sep) == tokens[0] + ([sep] + tail);
      SplitPrefix(tokens[0], [sep] + tail, sep);
      assert tokens[0] + [] == tokens[0];
      assert tokens == [tokens[0]] + tokens[1..];
    }
  }

  // ---------------------------------------------------------------------------
  // Decimal digits.

  predicate IsDigit(c: char) {
    '0' <= c <= '9'
  }

  /** One or more decimal digits. */
  predicate IsDigits(s: string) {
    |s| >= 1 && forall i :: 0 <= i < |s| ==> IsDigit(s[i])
  }

  /** Digits without a superfluous leading zero. */
  predicate IsCanonicalDigits(s: string) {
    IsDigits(s) && (s[0] == '0' ==> |s| == 1)
  }

  function DigitValue(c: char): nat
    requires IsDigit(c)
  {
    c as int - '0' as int
  }

  function DigitChar(d: nat): (c: char)
    requires d < 10
    ensures IsDigit(c) && DigitValue(c) == d
  {
    ('0' as int + d) as char
  }

  /** The number a string of digits denotes, read most significant digit first;
      None when some character is not a digit. */
  function DigitsValue(s: string): Option<nat> {
    if s == [] then Some(0)
    else
      match DigitsValue(s[..|s| - 1])
      case None => None
      case Some(high) =>
        if IsDigit(s[|s| - 1]) then Some(10 * high + DigitValue(s[|s| - 1])) else None
  }

  predicate InInt32Range(v: int) {
    -0x8000_0000 <= v < 0x8000_0000
  }

  // ---------------------------------------------------------------------------
  // int.Parse, simplified: an optional '-', then one or more digits, in the int range.

  function ParseInt32(t: string): (r: Result<int32, ParseError>)
    ensures r.Failure? ==> r.error == BadNumber || r.error == NumberOverflow
  {
    var negative := |t| >= 1 && t[0] == '-';
    var digits := if negative then t[1..] else t;
    if digits == [] then Failure(BadNumber)
    else
      match DigitsValue(digits)
      case None => Failure(BadNumber)
      case Some(magnitude) =>
        var v := if negative then -(magnitude as int) else magnitude;
        if InInt32Range(v) then Success(v as int32) else Failure(NumberOverflow)
  }

  // ---------------------------------------------------------------------------
  // int.ToString(): the shortest decimal text, with '-' for negative values.

  function FormatNat(n: nat): (s: string)
    ensures IsCanonicalDigits(s)
    ensures s[0] == '0' <==> n == 0
  {
    if n < 10 then [DigitChar(n)] else FormatNat(n / 10) + [DigitChar(n % 10)]
  }

  /** The text is canonical, starts with '-' exactly for negative values, and holds no
      space, so it stays a single token under Split(' '). */
  function FormatInt(x: int32): (t: string)
    ensures IsCanonicalDecimal(t)
    ensures t[0] == '-' <==> x < 0
    ensures ' ' !in t
  {
    if x < 0 then
      var t := "-" + FormatNat(-(x as int));
      assert t[1..] == FormatNat(-(x as int));
      assert forall i :: 1 <= i < |t| ==> t[i] == t[1..][i - 1];
      t
    else FormatNat(x as int)
  }

  /** The text of a value, read back, is the value. */
  lemma {:induction false} DigitsValueOfFormat(n: nat)
    ensures DigitsValue(FormatNat(n)) == Some(n)
  {
    if n >= 10 {
      var s := FormatNat(n);
      assert s[..|s| - 1] == FormatNat(n / 10);
      DigitsValueOfFormat(n / 10);
    }
  }

  /** Canonical digits are the text of the value they denote. */
  lemma {:induction false} FormatOfDigitsValue(s: string)
    requires IsCanonicalDigits(s)
    ensures DigitsValue(s).Some? && FormatNat(DigitsValue(s).value) == s
  {
    if |s| == 1 {
      assert s[..0] == [];
      assert s == [DigitChar(DigitValue(s[0]))];
    } else {
      var init := s[..|s| - 1];
      assert init[0] == s[0];
      FormatOfDigitsValue(init);
      var high := DigitsValue(init).value;
      assert high != 0 by {
        assert FormatNat(high)[0] != '0';
      }
      var d := DigitValue(s[|s| - 1]);
      var v := DigitsValue(s).value;
      assert v == 10 * high + d;
      assert v / 10 == high && v % 10 == d;
      assert FormatNat(v) == FormatNat(high) + [DigitChar(d)];
      assert s == init + [DigitChar(d)];
    }
  }

  /** Round trip one way: formatting any int and parsing the text gives the int back. */
  lemma ParseFormat(x: int32)
    ensures ParseInt32(FormatInt(x)) == Success(x)
  {
    var t := FormatInt(x);
    if x < 0 {
      var m := -(x as int);
      assert t == "-" + FormatNat(m);
      assert t[1..] == FormatNat(m);
      DigitsValueOfFormat(m);
      assert DigitsValue(t[1..]) == Some(m);
    } else {
      assert t == FormatNat(x as int);
      DigitsValueOfFormat(x as int);
    }
  }

  /** The texts int.ToString() produces: no leading zero, and no "-0". */
  predicate IsCanonicalDecimal(t: string) {
    if |t| >= 1 && t[0] == '-' then IsCanonicalDigits(t[1..]) && t[1..] != "0"
    else IsCanonicalDigits(t)
  }

  /** Round trip the other way: a canonical text that parses is the text of its value. */
  lemma FormatParse(t: string)
    requires IsCanonicalDecimal(t)
    requires ParseInt32(t).Success?
    ensures FormatInt(ParseInt32(t).value) == t
  {
    if |t| >= 1 && t[0] == '-' {
      var digits := t[1..];
      FormatOfDigitsValue(digits);
      var m := DigitsValue(digits).value;
      assert m != 0 by {
        assert FormatNat(m) != "0";
      }
      var v: int := -(m as int);
      assert ParseInt32(t) == Success(v as int32);
      assert FormatInt(v as int32) == "-" + FormatNat(m);
      assert t == "-" + digits;
    } else {
      FormatOfDigitsValue(t);
      assert ParseInt32(t) == Success(DigitsValue(t).value as int32);
    }
  }
}
