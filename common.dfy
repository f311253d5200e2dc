/**
 * Values shared by every part of the model: optional and failing results,
 * the Java exceptions the core raises, configuration as a flat key-value
 * map, decimal text for Java `int`s, and the identities of system streams.
 */
module Common {

  /** A Java reference that may be `null`. */
  datatype Option<T> = None | Some(value: T)
  {
    function GetOr(default: T): T
    {
      match this
      case Some(v) => v
      case None => default
    }
  }

  /**
   * The exceptions raised by the modelled code, each with its message. A
   * `ConfigException` or `SamzaException` may wrap the throwable that caused
   * it (`getCause()`); a reflection failure is known by the class involved.
   */
  datatype Exception =
    | ConfigException(message: string, cause: Option<Exception>)
    | SamzaException(message: string, cause: Option<Exception>)
    | ReflectionFailure(className: string)
    | IllegalArgumentException(message: string)
    | UnsupportedOperationException(message: string)
    | NumberFormatException(message: string)
    | IndexOutOfBoundsException(message: string)
    | NullPointerException

  /** The value a Java call returns, or the exception it throws. */
  datatype Result<T> = Ok(value: T) | Err(error: Exception)

  /** The completion of a Java `void` call: normal, or by an exception. */
  datatype Outcome = Done | Raised(error: Exception)

  /** A text result with `prefix` put in front of it; an error stays as it is. */
  function Prefixed(prefix: string, r: Result<string>): (p: Result<string>)
    ensures p.Ok? <==> r.Ok?
    ensures p.Ok? ==> p.value == prefix + r.value
    ensures p.Err? ==> p == r
  {
    match r
    case Ok(s) => Ok(prefix + s)
    case Err(e) => Err(e)
  }

  /** A Samza `Config`: a flat map from keys to string values. */
  type Config = map<string, string>

  /** `config.get(key)`: the value, or `null` when the key is absent. */
  function Get(config: Config, key: string): (r: Option<string>)
    ensures r.Some? <==> key in config
    ensures r.Some? ==> r.value == config[key]
  {
    if key in config then Some(config[key]) else None
  }

  /** `config.get(key, default)`: the value, or `default` when the key is absent. */
  function GetOrDefault(config: Config, key: string, default: Option<string>): (r: Option<string>)
    ensures key in config ==> r == Some(config[key])
    ensures key !in config ==> r == default
  {
    if key in config then Some(config[key]) else default
  }

  /** How `String.format("%s", x)` renders a string that may be `null`. */
  function FormatArg(s: Option<string>): string
  {
    match s
    case Some(v) => v
    case None => "null"
  }

  /** A sequence in which no element occurs twice. */
  predicate NoDuplicates<T(==)>(s: seq<T>)
  {
    forall i, j :: 0 <= i < j < |s| ==> s[i] != s[j]
  }

  /**
   * `order` is one iteration order of the set `s`: each element once. It
   * stands for the unspecified order of a Java `HashSet` or `HashMap`.
   */
  predicate Enumerates<T(==)>(order: seq<T>, s: set<T>)
  {
    NoDuplicates(order) && (forall x :: x in s ==> x in order) && (forall i :: 0 <= i < |order| ==> order[i] in s)
  }

  /** Iterating one more element of a set extends its iteration order by that element. */
  lemma EnumeratesAppend<T>(order: seq<T>, s: set<T>, x: T)
    requires Enumerates(order, s) && x !in s
    ensures Enumerates(order + [x], s + {x})
  {
  }

  /** An iteration order of a set has one entry per element. */
  lemma {:induction false} EnumeratesSize<T>(order: seq<T>, s: set<T>)
    requires Enumerates(order, s)
    ensures |order| == |s|
    decreases |order|
  {
    if order != [] {
      var x := order[|order| - 1];
      var init := order[..|order| - 1];
      forall y | y in s - {x}
        ensures y in init
      {
        var k :| 0 <= k < |order| && order[k] == y;
        assert k != |order| - 1;
      }
      assert Enumerates(init, s - {x});
      EnumeratesSize(init, s - {x});
    }
  }

  /** Appending to a log in two steps is appending once. */
  lemma AppendAssociative<T>(a: seq<T>, b: seq<T>, c: seq<T>)
    ensures (a + b) + c == a + (b + c)
  {
  }

  // ---------------------------------------------------------------------
  // Decimal text of integers, as Java's `String.valueOf(int)` writes it and
  // `Integer.parseInt` reads it.

  const MinInt: int := -0x8000_0000
  const MaxInt: int := 0x7fff_ffff

  predicate IsDigit(c: char)
  {
    '0' <= c <= '9'
  }

  predicate AllDigits(s: string)
  {
    forall i :: 0 <= i < |s| ==> IsDigit(s[i])
  }

  function DigitChar(d: nat): (c: char)
    requires d < 10
    ensures IsDigit(c) && (c as int) - ('0' as int) == d
  {
    (('0' as int) + d) as char
  }

  function DigitOf(c: char): (d: nat)
    requires IsDigit(c)
    ensures d < 10
  {
    (c as int) - ('0' as int)
  }

  /** The shortest decimal digits of a natural number. */
  function NatToDecimal(n: nat): (s: string)
    ensures |s| > 0 && AllDigits(s)
    decreases n
  {
    if n < 10 then [DigitChar(n)] else NatToDecimal(n / 10) + [DigitChar(n % 10)]
  }

  /** The decimal text of an integer, with a leading `-` when it is negative. */
  function IntToDecimal(n: int): (s: string)
    ensures |s| > 0
    ensures s[0] == '-' <==> n < 0
  {
    if n < 0 then "-" + NatToDecimal(-n) else NatToDecimal(n)
  }

  /** The value of a string of decimal digits, most significant first. */
  function DigitsValue(s: string): nat
    requires AllDigits(s)
  {
    if s == [] then 0 else DigitsValue(s[..|s| - 1]) * 10 + DigitOf(s[|s| - 1])
  }

  /**
   * The integer a string denotes in `Integer.parseInt`'s syntax (an optional
   * `+` or `-`, then one or more ASCII digits), before its range check.
   */
  function DecimalValue(s: string): Option<int>
  {
    if |s| > 0 && (s[0] == '-' || s[0] == '+') then
      if |s| > 1 && AllDigits(s[1..]) then
        var v: int := DigitsValue(s[1..]);
        Some(if s[0] == '-' then -v else v)
      else None
    else if |s| > 0 && AllDigits(s) then Some(DigitsValue(s))
    else None
  }

  /** `Integer.parseInt(s)`: the value, or a `NumberFormatException`. */
  function ParseInt(s: string): (r: Result<int>)
    ensures r.Ok? <==> DecimalValue(s).Some? && MinInt <= DecimalValue(s).value <= MaxInt
    ensures r.Ok? ==> r.value == DecimalValue(s).value
    ensures r.Err? ==> r.error.NumberFormatException?
  {
    match DecimalValue(s)
    case Some(v) =>
      if MinInt <= v <= MaxInt then Ok(v)
      else Err(NumberFormatException("For input string: \"" + s + "\""))
    case None => Err(NumberFormatException("For input string: \"" + s + "\""))
  }

  lemma {:induction false} NatToDecimalValue(n: nat)
    ensures DigitsValue(NatToDecimal(n)) == n
    decreases n
  {
    var s := NatToDecimal(n);
    if n >= 10 {
      NatToDecimalValue(n / 10);
      assert s[..|s| - 1] == NatToDecimal(n / 10);
    }
  }

  /** Reading back the decimal text of any integer gives that integer. */
  lemma IntToDecimalRoundTrip(n: int)
    ensures DecimalValue(IntToDecimal(n)) == Some(n)
  {
    if n < 0 {
      NatToDecimalValue(-n);
      assert IntToDecimal(n)[1..] == NatToDecimal(-n);
    } else {
      NatToDecimalValue(n);
    }
  }

  /** `Integer.parseInt` reads back every Java `int` it is given as text. */
  lemma ParseIntRoundTrip(n: int)
    requires MinInt <= n <= MaxInt
    ensures ParseInt(IntToDecimal(n)) == Ok(n)
  {
    IntToDecimalRoundTrip(n);
  }

  /** Two different integers never have the same decimal text. */
  lemma IntToDecimalInjective(a: int, b: int)
    requires IntToDecimal(a) == IntToDecimal(b)
    ensures a == b
  {
    IntToDecimalRoundTrip(a);
    IntToDecimalRoundTrip(b);
  }

  // ---------------------------------------------------------------------
  // Stream identities.

  /** A `SystemStream`: a stream of one input or output system. */
  datatype SystemStream = SystemStream(system: string, stream: string)

  /** A `Partition`, identified by its number. */
  datatype Partition = Partition(partitionId: int)

  /** A `SystemStreamPartition`: one partition of one system stream. */
  datatype SystemStreamPartition = SystemStreamPartition(systemStream: SystemStream, partition: Partition)

  /**
   * A `TaskContext` as the task adaptors use it: the task's name and the
   * set of partitions assigned to the task.
   */
  datatype TaskContext = TaskContext(taskName: string, systemStreamPartitions: set<SystemStreamPartition>)

  /** The key or the message of an envelope, as opaque text. */
  type Payload = string

  /** An `IncomingMessageEnvelope`: one message read from one partition. */
  datatype IncomingMessageEnvelope =
    IncomingMessageEnvelope(systemStreamPartition: SystemStreamPartition, offset: string, key: Payload, message: Payload)
}
