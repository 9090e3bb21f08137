/**
 * `CommandRange` (see `:h command-range`): the range a user command accepts.
 * Parsing and emission are two independent functions and are deliberately
 * not inverse: `CurrentLine` is read from "." but written as the variant
 * "CurrentLine" carrying `true`.
 */
module CommandRanges {
  import opened Wrappers

  /** Rust's `u32`. */
  newtype u32 = x: int | 0 <= x <= 0xFFFF_FFFF

  const U32_MAX: int := 0xFFFF_FFFF

  /** Rust's `u64` and `i64`, the widths serde hands a visitor. */
  newtype u64 = x: int | 0 <= x < 0x1_0000_0000_0000_0000
  newtype i64 = x: int | -0x8000_0000_0000_0000 <= x < 0x8000_0000_0000_0000

  /** The three ranges: the current line, the whole file, or a line count. */
  datatype CommandRange = CurrentLine | WholeFile | Count(n: u32)

  /**
   * What a deserializer can hand to a visitor (serde's data model, without
   * floats, chars and bytes). A visitor error reports the offending content.
   */
  datatype Content = Bool(b: bool) | Unsigned(u: u64) | Signed(i: i64) | Str(s: string) | Unit | Seq | Map

  /** serde's `de::Error` constructors used on this path. */
  datatype DeError =
    | InvalidValue(unexpected: Content, expected: string)
    | InvalidType(unexpected: Content, expected: string)

  /** The text of the visitor's `expecting`, also used for rejected strings. */
  const Expecting: string := "\".\", \"%\" or an integer"

  // ---------------------------------------------------------------------
  // `u32::from_str`, decimal radix
  // ---------------------------------------------------------------------

  predicate IsDigit(c: char) {
    '0' <= c <= '9'
  }

  function DigitValue(c: char): (d: nat)
    requires IsDigit(c)
    ensures d <= 9
  {
    (c as int) - ('0' as int)
  }

  predicate AllDigits(s: string) {
    forall i :: 0 <= i < |s| ==> IsDigit(s[i])
  }

  function Pow10(k: nat): (p: nat)
    ensures p >= 1
  {
    if k == 0 then 1 else 10 * Pow10(k - 1)
  }

  /** The number a string of decimal digits denotes, most significant digit first. */
  function DecimalValue(s: string): nat
    requires AllDigits(s)
  {
    if s == [] then 0 else DigitValue(s[0]) * Pow10(|s| - 1) + DecimalValue(s[1..])
  }

  /** The digits of a literal: everything after one optional leading '+'. */
  function DigitsOf(s: string): (d: string)
    ensures |d| <= |s|
  {
    if |s| > 0 && s[0] == '+' then s[1..] else s
  }

  /**
   * Reference definition of the strings `u32::from_str` accepts: one
   * optional '+', then at least one ASCII digit and nothing else, denoting
   * at most 4294967295. Leading zeros are allowed; '-' never is.
   */
  predicate IsU32Literal(s: string) {
    var d := DigitsOf(s);
    |d| > 0 && AllDigits(d) && DecimalValue(d) <= U32_MAX
  }

  function LiteralValue(s: string): u32
    requires IsU32Literal(s)
  {
    DecimalValue(DigitsOf(s)) as u32
  }

  /**
   * The digit loop of `u32::from_str`: left to right, rejecting a non-digit,
   * and stopping on overflow of the multiplication or of the addition.
   */
  function Accumulate(digits: string, acc: u32): Option<u32>
    decreases |digits|
  {
    if digits == [] then Some(acc)
    else if !IsDigit(digits[0]) then None
    else if acc as int * 10 > U32_MAX then None
    else if acc as int * 10 + DigitValue(digits[0]) > U32_MAX then None
    else Accumulate(digits[1..], (acc as int * 10 + DigitValue(digits[0])) as u32)
  }

  lemma ScaleStep(acc: nat, d: nat, n: nat)
    requires n >= 1
    ensures acc * Pow10(n) + d * Pow10(n - 1) == (acc * 10 + d) * Pow10(n - 1)
    ensures (acc * 10 + d) * Pow10(n - 1) >= acc * 10 + d
  {
  }

  /**
   * The checked loop accepts exactly the digit strings whose value, appended
   * to the accumulator, fits in a u32: stopping early on overflow loses
   * nothing, because the accumulator only grows.
   */
  lemma {:induction false} AccumulateIsValue(digits: string, acc: u32)
    ensures Accumulate(digits, acc) ==
      if AllDigits(digits) && acc as int * Pow10(|digits|) + DecimalValue(digits) <= U32_MAX
      then Some((acc as int * Pow10(|digits|) + DecimalValue(digits)) as u32)
      else None
  {
    if digits == [] {
    } else if !IsDigit(digits[0]) {
    } else {
      var n := |digits|;
      var d := DigitValue(digits[0]);
      var rest := digits[1..];
      assert AllDigits(digits) <==> AllDigits(rest) by {
        forall i | 0 <= i < |rest| ensures rest[i] == digits[i + 1] { }
      }
      ScaleStep(acc as int, d, n);
      if AllDigits(digits) {
        assert DecimalValue(digits) == d * Pow10(n - 1) + DecimalValue(rest);
        assert acc as int * Pow10(n) + DecimalValue(digits)
            == (acc as int * 10 + d) * Pow10(n - 1) + DecimalValue(rest);
      }
      if acc as int * 10 + d <= U32_MAX {
        AccumulateIsValue(rest, (acc as int * 10 + d) as u32);
      }
    }
  }

  /**
   * `u32::from_str`. The error kind (empty, invalid digit, overflow) is
   * dropped: the visitor only asks whether parsing succeeded.
   */
  function ParseU32(s: string): (r: Option<u32>)
    ensures r.Some? <==> IsU32Literal(s)
    ensures r.Some? ==> r.value == LiteralValue(s)
  {
    if s == [] then None
    else if (s[0] == '+' || s[0] == '-') && |s| == 1 then None
    else
      var digits := if s[0] == '+' then s[1..] else s;
      AccumulateIsValue(digits, 0);
      Accumulate(digits, 0)
  }

  // ---------------------------------------------------------------------
  // Parsing: `CommandRangeVisitor`
  // ---------------------------------------------------------------------

  /**
   * `visit_str`: "." and "%" are matched first, then the integer parse;
   * anything else is an invalid value naming the accepted forms.
   */
  function VisitStr(v: string): (r: Result<CommandRange, DeError>)
    ensures r == Success(CurrentLine) <==> v == "."
    ensures r == Success(WholeFile) <==> v == "%"
    ensures forall n: u32 {:trigger Count(n)} :: r == Success(Count(n)) <==> IsU32Literal(v) && LiteralValue(v) == n
    ensures r.Failure? <==> v != "." && v != "%" && !IsU32Literal(v)
    ensures r.Failure? ==> r.error == InvalidValue(Str(v), Expecting)
  {
    assert !IsU32Literal(".") && !IsU32Literal("%") by {
      assert !IsDigit('.') && !IsDigit('%');
      assert DigitsOf(".")[0] == '.' && DigitsOf("%")[0] == '%';
    }
    if v == "." then Success(CurrentLine)
    else if v == "%" then Success(WholeFile)
    else match ParseU32(v)
      case Some(n) => Success(Count(n))
      case None => Failure(InvalidValue(Str(v), Expecting))
  }

  /**
   * `Deserialize for CommandRange`: the range is requested as a string and
   * only `visit_str` is implemented, so any other content is refused with
   * serde's default invalid-type error.
   */
  function Deserialize(c: Content): (r: Result<CommandRange, DeError>)
    ensures r.Success? ==> c.Str?
    ensures c.Str? ==> r == VisitStr(c.s)
    ensures !c.Str? ==> r == Failure(InvalidType(c, Expecting))
  {
    match c
    case Str(v) => VisitStr(v)
    case _ => Failure(InvalidType(c, Expecting))
  }

  // ---------------------------------------------------------------------
  // Emission: the derived `Serialize`
  // ---------------------------------------------------------------------

  /** The serializer calls that emitting a range makes; a newtype variant carries the call for its payload. */
  datatype Serialized =
    | SerializeBool(v: bool)
    | SerializeU32(n: u32)
    | SerializeUnitVariant(name: string, index: nat, variant: string)
    | SerializeNewtypeVariant(name: string, index: nat, variant: string, payload: Serialized)

  /**
   * The derived `Serialize` of the externally tagged enum. `CurrentLine` has
   * a variant-level `serialize_with`, so it becomes the newtype variant
   * "CurrentLine" (the rename to "." applies only to deserializing) whose
   * payload is `serialize_as_true`. `WholeFile` is the unit variant renamed
   * "%". `Count(n)` is the newtype variant "Count" carrying the integer
   * itself, not its text.
   */
  function Emit(cr: CommandRange): (e: Serialized)
    ensures e.SerializeUnitVariant? <==> cr.WholeFile?
    ensures e.SerializeNewtypeVariant? <==> !cr.WholeFile?
    ensures e.SerializeNewtypeVariant? ==> (e.payload.SerializeBool? <==> cr.CurrentLine?)
    ensures cr.CurrentLine? ==> e == SerializeNewtypeVariant("CommandRange", 0, "CurrentLine", SerializeBool(true))
    ensures cr.WholeFile? ==> e == SerializeUnitVariant("CommandRange", 1, "%")
    ensures cr.Count? ==> e == SerializeNewtypeVariant("CommandRange", 2, "Count", SerializeU32(cr.n))
    ensures e != SerializeUnitVariant("CommandRange", 0, ".")
  {
    match cr
    case CurrentLine => SerializeNewtypeVariant("CommandRange", 0, "CurrentLine", SerializeBool(true))
    case WholeFile => SerializeUnitVariant("CommandRange", 1, "%")
    case Count(n) => SerializeNewtypeVariant("CommandRange", 2, "Count", SerializeU32(n))
  }

  /**
   * What a self-describing format hands back when the emitted value is read
   * again: a boolean stays a boolean, an integer becomes an unsigned integer,
   * a unit variant becomes its name, and a newtype variant becomes a
   * one-entry map.
   */
  function ReadBack(e: Serialized): Content {
    match e
    case SerializeBool(v) => Bool(v)
    case SerializeU32(n) => Unsigned(n as int as u64)
    case SerializeUnitVariant(_, _, variant) => Str(variant)
    case SerializeNewtypeVariant(_, _, _, _) => Map
  }

  /** Emitting then parsing gives the range back for `WholeFile` and for no other range. */
  lemma EmitThenParse(cr: CommandRange)
    ensures Deserialize(ReadBack(Emit(cr))) == Success(cr) <==> cr == WholeFile
  {
  }

  /**
   * The asymmetry: "." parses to `CurrentLine`, but `CurrentLine` is written
   * as the variant "CurrentLine" carrying `true`, never as ".", and reading
   * that back is refused.
   */
  lemma CurrentLineIsAsymmetric()
    ensures Deserialize(Str(".")) == Success(CurrentLine)
    ensures Emit(CurrentLine).payload == SerializeBool(true)
    ensures ReadBack(Emit(CurrentLine)) != Str(".")
    ensures Deserialize(ReadBack(Emit(CurrentLine))) == Failure(InvalidType(Map, Expecting))
  {
  }

  /** Digit strings within range parse to their value: leading zeros and one '+' are allowed. */
  lemma AcceptedExamples()
    ensures VisitStr("42") == Success(Count(42))
    ensures VisitStr("+7") == Success(Count(7))
    ensures VisitStr("007") == Success(Count(7))
  {
    assert DecimalValue("42") == 42 by { assert "42"[1..] == "2"; }
    assert DigitsOf("+7") == "7";
    assert DecimalValue("007") == 7 by { assert "007"[1..] == "07"; assert "07"[1..] == "7"; }
  }

  /** One step of the digit loop on a digit whose value `d` keeps the accumulator in range. */
  lemma AccumulateDigit(digits: string, acc: u32, d: nat)
    requires |digits| > 0 && IsDigit(digits[0]) && DigitValue(digits[0]) == d
    requires acc as int * 10 + d <= U32_MAX
    ensures Accumulate(digits, acc) == Accumulate(digits[1..], (acc as int * 10 + d) as u32)
  {
  }

  /** The largest u32 is accepted. */
  lemma LargestCountAccepted()
    ensures VisitStr("4294967295") == Success(Count(4294967295))
  {
    var s := "4294967295";
    AccumulateDigit(s[0..], 0, 4);
    assert s[0..][1..] == s[1..];
    AccumulateDigit(s[1..], 4, 2);
    assert s[1..][1..] == s[2..];
    AccumulateDigit(s[2..], 42, 9);
    assert s[2..][1..] == s[3..];
    AccumulateDigit(s[3..], 429, 4);
    assert s[3..][1..] == s[4..];
    AccumulateDigit(s[4..], 4294, 9);
    assert s[4..][1..] == s[5..];
    AccumulateDigit(s[5..], 42949, 6);
    assert s[5..][1..] == s[6..];
    AccumulateDigit(s[6..], 429496, 7);
    assert s[6..][1..] == s[7..];
    AccumulateDigit(s[7..], 4294967, 2);
    assert s[7..][1..] == s[8..];
    AccumulateDigit(s[8..], 42949672, 9);
    assert s[8..][1..] == s[9..];
    AccumulateDigit(s[9..], 429496729, 5);
    assert s[9..][1..] == s[10..];
    assert s[0..] == s && s[10..] == [];
    assert ParseU32(s) == Some(4294967295);
  }

  /** One more than the largest u32 is refused. */
  lemma OverflowRejected()
    ensures VisitStr("4294967296").Failure?
  {
    var s := "4294967296";
    assert s[0..][0] == '4' && s[0..][1..] == s[1..];
    assert Accumulate(s[0..], 0) == Accumulate(s[1..], 4);
    assert s[1..][0] == '2' && s[1..][1..] == s[2..];
    assert Accumulate(s[1..], 4) == Accumulate(s[2..], 42);
    assert s[2..][0] == '9' && s[2..][1..] == s[3..];
    assert Accumulate(s[2..], 42) == Accumulate(s[3..], 429);
    assert s[3..][0] == '4' && s[3..][1..] == s[4..];
    assert Accumulate(s[3..], 429) == Accumulate(s[4..], 4294);
    assert s[4..][0] == '9' && s[4..][1..] == s[5..];
    assert Accumulate(s[4..], 4294) == Accumulate(s[5..], 42949);
    assert s[5..][0] == '6' && s[5..][1..] == s[6..];
    assert Accumulate(s[5..], 42949) == Accumulate(s[6..], 429496);
    assert s[6..][0] == '7' && s[6..][1..] == s[7..];
    assert Accumulate(s[6..], 429496) == Accumulate(s[7..], 4294967);
    assert s[7..][0] == '2' && s[7..][1..] == s[8..];
    assert Accumulate(s[7..], 4294967) == Accumulate(s[8..], 42949672);
    assert s[8..][0] == '9' && s[8..][1..] == s[9..];
    assert Accumulate(s[8..], 42949672) == Accumulate(s[9..], 429496729);
    assert s[9..][0] == '6' && s[9..][1..] == s[10..];
    assert Accumulate(s[9..], 429496729) == None;
    assert s[0..] == s;
  }

  /** Empty strings, lone signs, '-' and other characters are refused. */
  lemma RejectedExamples()
    ensures VisitStr("") == Failure(InvalidValue(Str(""), Expecting))
    ensures VisitStr("+").Failure?
    ensures VisitStr("-1").Failure?
    ensures VisitStr("-0").Failure?
    ensures VisitStr("++1").Failure?
    ensures VisitStr("abc") == Failure(InvalidValue(Str("abc"), Expecting))
  {
    assert !IsDigit('-') && !IsDigit('+') && !IsDigit('a');
    assert DigitsOf("-1")[0] == '-';
    assert DigitsOf("-0")[0] == '-';
    assert DigitsOf("++1")[0] == '+';
    assert DigitsOf("abc")[0] == 'a';
  }
}
