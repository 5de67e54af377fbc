/**
 * Conversions between Rust values and FloTalk messages (flotalk/src/message_converters.rs).
 *
 * `()` converts to the unary message `value`; every other type converts to the one-argument
 * message `value:`. The ids of those two signatures (`VALUE_MSG` and `VALUE_COLON_MSG`, lines
 * 14-15) are interned once and are parameters here.
 *
 * The scalar `from_message` conversions read the argument through `read_argument` and then drop
 * the owned message, which releases all of its arguments; they are modelled by their result.
 * The `TalkReference` and `TalkValue` conversions take the arguments out of the message
 * (`leak`), so what they release is part of their result (`Converted`). `args[0].take()` leaves
 * `Nil` behind.
 */
module MessageConverters {
  import opened Wrappers
  import opened TalkValues
  import opened Releasables

  /** The interned ids of the signatures `value` and `value:`. */
  datatype ConverterIds = ConverterIds(value: SignatureId, valueColon: SignatureId)

  /** The types that implement `TalkMessageType` in this file (the float types are not modelled). */
  datatype ConverterType = UnitType | ReferenceType | ValueType | BoolType | I32Type | I64Type | NumberType | StringType | CharType | ErrorType

  /**
   * `supports_message` (lines 18-20, 36-38, 68-70, ...): `()` supports `value`, every other type
   * `value:`; so each type supports the message its own `to_message` builds.
   */
  function SupportsMessage(ty: ConverterType, ids: ConverterIds, id: SignatureId): (b: bool)
    ensures ty == UnitType ==> (b <==> id == UnitToMessage(ids).id)
    ensures ty != UnitType ==> forall v :: b <==> id == ValueMessage(ids, v).id
  {
    if ty == UnitType then id == ids.value else id == ids.valueColon
  }

  /** When the two ids differ, `()` and the other types support disjoint messages. */
  lemma SupportsDisjoint(ty: ConverterType, ids: ConverterIds, id: SignatureId)
    requires ids.value != ids.valueColon && ty != UnitType
    ensures !(SupportsMessage(UnitType, ids, id) && SupportsMessage(ty, ids, id))
  {
  }

  /** The one-argument message `value:` carrying `v`, as every `to_message` except `()`'s builds it. */
  function ValueMessage(ids: ConverterIds, v: TalkValue): (m: TalkMessage)
    ensures m.WithArguments? && m.id == ids.valueColon && m.args == [v]
  {
    WithArguments(ids.valueColon, [v])
  }

  /**
   * `read_argument` (lines 94-104): the argument of a message with exactly one argument;
   * otherwise `MessageNotSupported` for the message's signature.
   */
  function ReadArgument(m: TalkMessage): (r: Result<TalkValue, TalkError>)
    ensures r.Ok? <==> m.WithArguments? && |m.args| == 1
    ensures r.Ok? ==> r.value == m.args[0]
    ensures r.Err? ==> r.error == MessageNotSupported(m.id)
  {
    match m
    case WithArguments(id, args) =>
      if |args| == 1 then Ok(args[0]) else Err(MessageNotSupported(SignatureIdOf(m)))
    case Unary(_) => Err(MessageNotSupported(SignatureIdOf(m)))
  }

  /** A message with exactly one argument: the shape every `from_message` except `()`'s reads. */
  predicate OneArgument(m: TalkMessage)
  {
    m.WithArguments? && |m.args| == 1
  }

  // ---------------------------------------------------------------------------------------
  // ()

  /** `()::to_message` (lines 30-32): the unary message `value`. */
  function UnitToMessage(ids: ConverterIds): (m: TalkMessage)
    ensures m.Unary? && m.id == ids.value
    ensures UnitFromMessage(m) == Ok(())
  {
    TalkMessage.Unary(ids.value)
  }

  /** `()::from_message` (lines 22-28): any unary message, whatever its id; otherwise `MessageNotSupported`. */
  function UnitFromMessage(m: TalkMessage): (r: Result<(), TalkError>)
    ensures r.Ok? <==> m.Unary?
    ensures r.Err? ==> r.error == MessageNotSupported(m.id)
  {
    if m.Unary? then Ok(()) else Err(MessageNotSupported(SignatureIdOf(m)))
  }

  // ---------------------------------------------------------------------------------------
  // Scalars

  /** `bool::from_message` (lines 111-116). */
  function BoolFromMessage(m: TalkMessage): (r: Result<bool, TalkError>)
    ensures r.Ok? <==> OneArgument(m) && m.args[0].Bool?
    ensures r.Ok? ==> r.value == m.args[0].boolValue
    ensures OneArgument(m) && !m.args[0].Bool? ==> r == Err(NotABoolean)
    ensures !OneArgument(m) ==> r == Err(MessageNotSupported(m.id))
  {
    match ReadArgument(m)
    case Err(e) => Err(e)
    case Ok(v) => if v.Bool? then Ok(v.boolValue) else Err(NotABoolean)
  }

  /** `char::from_message` (lines 255-260). */
  function CharFromMessage(m: TalkMessage): (r: Result<char, TalkError>)
    ensures r.Ok? <==> OneArgument(m) && m.args[0].Character?
    ensures r.Ok? ==> r.value == m.args[0].character
    ensures OneArgument(m) && !m.args[0].Character? ==> r == Err(NotACharacter)
    ensures !OneArgument(m) ==> r == Err(MessageNotSupported(m.id))
  {
    match ReadArgument(m)
    case Err(e) => Err(e)
    case Ok(v) => if v.Character? then Ok(v.character) else Err(NotACharacter)
  }

  /** `String::from_message` (lines 221-226). */
  function StringFromMessage(m: TalkMessage): (r: Result<string, TalkError>)
    ensures r.Ok? <==> OneArgument(m) && m.args[0].String?
    ensures r.Ok? ==> r.value == m.args[0].text
    ensures OneArgument(m) && !m.args[0].String? ==> r == Err(NotAString)
    ensures !OneArgument(m) ==> r == Err(MessageNotSupported(m.id))
  {
    match ReadArgument(m)
    case Err(e) => Err(e)
    case Ok(v) => if v.String? then Ok(v.text) else Err(NotAString)
  }

  /** `TalkError::from_message` (lines 272-277). */
  function ErrorFromMessage(m: TalkMessage): (r: Result<TalkError, TalkError>)
    ensures r.Ok? <==> OneArgument(m) && m.args[0].Error?
    ensures r.Ok? ==> r.value == m.args[0].error
    ensures OneArgument(m) && !m.args[0].Error? ==> r == Err(NotAnError)
    ensures !OneArgument(m) ==> r == Err(MessageNotSupported(m.id))
  {
    match ReadArgument(m)
    case Err(e) => Err(e)
    case Ok(v) => if v.Error? then Ok(v.error) else Err(NotAnError)
  }

  /** `TalkNumber::from_message` (lines 200-205): the variant is kept. */
  function NumberFromMessage(m: TalkMessage): (r: Result<TalkNumber, TalkError>)
    ensures r.Ok? <==> OneArgument(m) && (m.args[0].Int? || m.args[0].Float?)
    ensures OneArgument(m) && m.args[0].Int? ==> r == Ok(TalkNumber.Int(m.args[0].intValue))
    ensures OneArgument(m) && m.args[0].Float? ==> r == Ok(TalkNumber.Float(m.args[0].floatValue))
    ensures OneArgument(m) && !m.args[0].Int? && !m.args[0].Float? ==> r == Err(NotANumber)
    ensures !OneArgument(m) ==> r == Err(MessageNotSupported(m.id))
  {
    match ReadArgument(m)
    case Err(e) => Err(e)
    case Ok(v) =>
      if v.Int? then Ok(TalkNumber.Int(v.intValue))
      else if v.Float? then Ok(TalkNumber.Float(v.floatValue))
      else Err(NotANumber)
  }

  /** `TalkNumber::to_message` (lines 208-213): the number in the matching value variant. */
  function NumberToMessage(ids: ConverterIds, n: TalkNumber): (m: TalkMessage)
    ensures OneArgument(m) && m.id == ids.valueColon
    ensures NumberFromMessage(m) == Ok(n)
  {
    match n
    case Int(i) => ValueMessage(ids, TalkValue.Int(i))
    case Float(f) => ValueMessage(ids, TalkValue.Float(f))
  }

  // ---------------------------------------------------------------------------------------
  // Integers

  /** Rust's `as i32` on an `i64`: the low 32 bits, read as a signed number. */
  function WrapI32(x: i64): (r: i32)
    ensures (r - x) % 0x1_0000_0000 == 0
  {
    (x + 0x8000_0000) % 0x1_0000_0000 - 0x8000_0000
  }

  /** Rounding toward zero. */
  function Truncate(f: real): (r: int)
    ensures f >= 0.0 ==> 0 <= r && r as real <= f < r as real + 1.0
    ensures f < 0.0 ==> r <= 0 && r as real - 1.0 < f <= r as real
  {
    if f >= 0.0 then f.Floor else -((-f).Floor)
  }

  /** Rust's float-to-integer `as`: rounding toward zero, saturating at the bounds of the range. */
  function Saturate(f: real, lo: int, hi: int): (r: int)
    requires lo <= hi
    ensures lo <= r <= hi
    ensures lo <= Truncate(f) <= hi ==> r == Truncate(f)
  {
    var t := Truncate(f);
    if t < lo then lo else if t > hi then hi else t
  }

  /**
   * `x` is `f` rounded toward zero when that lies in `lo..hi`, and the nearer bound when it
   * does not.
   */
  predicate ClampedTruncation(f: real, lo: int, hi: int, x: int)
  {
    && (lo <= Truncate(f) <= hi ==> x == Truncate(f))
    && (Truncate(f) < lo ==> x == lo)
    && (Truncate(f) > hi ==> x == hi)
  }

  /** `i32::from_message` (lines 128-134): an `Int` wraps, a `Float` rounds toward zero and saturates. */
  function I32FromMessage(m: TalkMessage): (r: Result<i32, TalkError>)
    ensures r.Ok? <==> OneArgument(m) && (m.args[0].Int? || m.args[0].Float?)
    ensures OneArgument(m) && m.args[0].Int? ==> r.Ok? && (r.value - m.args[0].intValue) % 0x1_0000_0000 == 0
    ensures OneArgument(m) && m.args[0].Int? && -0x8000_0000 <= m.args[0].intValue <= 0x7fff_ffff ==> r == Ok(m.args[0].intValue)
    ensures OneArgument(m) && m.args[0].Float? ==> r.Ok? && ClampedTruncation(m.args[0].floatValue, -0x8000_0000, 0x7fff_ffff, r.value)
    ensures OneArgument(m) && !m.args[0].Int? && !m.args[0].Float? ==> r == Err(NotAnInteger)
    ensures !OneArgument(m) ==> r == Err(MessageNotSupported(m.id))
  {
    match ReadArgument(m)
    case Err(e) => Err(e)
    case Ok(v) =>
      if v.Int? then Ok(WrapI32(v.intValue))
      else if v.Float? then Ok(Saturate(v.floatValue, -0x8000_0000, 0x7fff_ffff))
      else Err(NotAnInteger)
  }

  /** `i32::to_message` (lines 136-138): widened into an `Int`. */
  function I32ToMessage(ids: ConverterIds, x: i32): (m: TalkMessage)
    ensures OneArgument(m) && m.id == ids.valueColon
    ensures I32FromMessage(m) == Ok(x)
  {
    ValueMessage(ids, TalkValue.Int(x))
  }

  /** `i64::from_message` (lines 146-152): an `Int` as it is, a `Float` rounded toward zero and saturated. */
  function I64FromMessage(m: TalkMessage): (r: Result<i64, TalkError>)
    ensures r.Ok? <==> OneArgument(m) && (m.args[0].Int? || m.args[0].Float?)
    ensures OneArgument(m) && m.args[0].Int? ==> r == Ok(m.args[0].intValue)
    ensures OneArgument(m) && m.args[0].Float? ==>
      r.Ok? && ClampedTruncation(m.args[0].floatValue, -0x8000_0000_0000_0000, 0x7fff_ffff_ffff_ffff, r.value)
    ensures OneArgument(m) && !m.args[0].Int? && !m.args[0].Float? ==> r == Err(NotAnInteger)
    ensures !OneArgument(m) ==> r == Err(MessageNotSupported(m.id))
  {
    match ReadArgument(m)
    case Err(e) => Err(e)
    case Ok(v) =>
      if v.Int? then Ok(v.intValue)
      else if v.Float? then Ok(Saturate(v.floatValue, -0x8000_0000_0000_0000, 0x7fff_ffff_ffff_ffff))
      else Err(NotAnInteger)
  }

  /** Converting a 32-bit integer that was widened to 64 bits back gives the same integer. */
  lemma WrapI32Widened(x: i32)
    ensures WrapI32(x) == x
  {
  }

  // ---------------------------------------------------------------------------------------
  // Round trips

  /** `from_message(to_message(x)) == Ok(x)` for `()`, `bool`, `char`, `String` and `TalkError`. */
  lemma RoundTripScalars(ids: ConverterIds, b: bool, c: char, s: string, e: TalkError)
    ensures UnitFromMessage(UnitToMessage(ids)) == Ok(())
    ensures BoolFromMessage(ValueMessage(ids, Bool(b))) == Ok(b)
    ensures CharFromMessage(ValueMessage(ids, Character(c))) == Ok(c)
    ensures StringFromMessage(ValueMessage(ids, String(s))) == Ok(s)
    ensures ErrorFromMessage(ValueMessage(ids, TalkValue.Error(e))) == Ok(e)
  {
  }

  /** `from_message(to_message(x)) == Ok(x)` for `i32` and `i64`, through the `Int` variant. */
  lemma RoundTripIntegers(ids: ConverterIds, x: i32, y: i64)
    ensures I32FromMessage(I32ToMessage(ids, x)) == Ok(x)
    ensures I64FromMessage(ValueMessage(ids, TalkValue.Int(y))) == Ok(y)
  {
    WrapI32Widened(x);
  }

  /** A `TalkNumber` comes back with its variant and its value. */
  lemma RoundTripNumber(ids: ConverterIds, n: TalkNumber)
    ensures NumberFromMessage(NumberToMessage(ids, n)) == Ok(n)
  {
  }

  /** A float whose integer part fits comes back as that integer part. */
  lemma FloatToIntegerTruncates(ids: ConverterIds, f: real)
    requires -0x8000_0000 <= Truncate(f) <= 0x7fff_ffff
    ensures I32FromMessage(ValueMessage(ids, TalkValue.Float(f))) == Ok(Truncate(f))
    ensures I64FromMessage(ValueMessage(ids, TalkValue.Float(f))) == Ok(Truncate(f))
  {
  }

  /** A single argument of the wrong kind gives the converted type's own error. */
  lemma WrongKindErrors(id: SignatureId, v: TalkValue)
    ensures !v.Bool? ==> BoolFromMessage(WithArguments(id, [v])) == Err(NotABoolean)
    ensures !v.Int? && !v.Float? ==> I32FromMessage(WithArguments(id, [v])) == Err(NotAnInteger)
    ensures !v.Int? && !v.Float? ==> I64FromMessage(WithArguments(id, [v])) == Err(NotAnInteger)
    ensures !v.Int? && !v.Float? ==> NumberFromMessage(WithArguments(id, [v])) == Err(NotANumber)
    ensures !v.String? ==> StringFromMessage(WithArguments(id, [v])) == Err(NotAString)
    ensures !v.Character? ==> CharFromMessage(WithArguments(id, [v])) == Err(NotACharacter)
    ensures !v.Error? ==> ErrorFromMessage(WithArguments(id, [v])) == Err(NotAnError)
  {
  }

  /** A message without exactly one argument is not supported by any scalar conversion. */
  lemma WrongShapeErrors(m: TalkMessage)
    requires !(m.WithArguments? && |m.args| == 1)
    ensures BoolFromMessage(m) == Err(MessageNotSupported(m.id))
    ensures I32FromMessage(m) == Err(MessageNotSupported(m.id))
    ensures I64FromMessage(m) == Err(MessageNotSupported(m.id))
    ensures NumberFromMessage(m) == Err(MessageNotSupported(m.id))
    ensures StringFromMessage(m) == Err(MessageNotSupported(m.id))
    ensures CharFromMessage(m) == Err(MessageNotSupported(m.id))
    ensures ErrorFromMessage(m) == Err(MessageNotSupported(m.id))
  {
  }

  // ---------------------------------------------------------------------------------------
  // TalkReference and TalkValue

  /** The result of a conversion that takes the arguments out of the message, and the values it releases. */
  datatype Converted<T> = Converted(result: Result<T, TalkError>, released: seq<TalkValue>)

  /**
   * `TalkReference::from_message` as written (lines 41-60). With one argument that is not a
   * reference, the argument has already been taken out when the arguments are released, so
   * only the `Nil` left behind is released and the taken value is dropped.
   */
  function ReferenceFromMessageAsWritten(m: TalkMessage): (r: Converted<TalkReference>)
    ensures r.result == ReferenceFromMessage(m).result
    ensures OneArgument(m) && !m.args[0].Reference? ==> r.released == [Nil]
    ensures !(OneArgument(m) && !m.args[0].Reference?) ==> r == ReferenceFromMessage(m)
  {
    match m
    case Unary(id) => Converted(Err(MessageNotSupported(id)), [])
    case WithArguments(id, args) =>
      if |args| == 1 then
        if args[0].Reference? then Converted(Ok(args[0].reference), [])
        else Converted(Err(NotAReference), [Nil])
      else Converted(Err(MessageNotSupported(id)), args)
  }

  /**
   * `TalkReference::from_message` with the taken argument released on the `NotAReference` path;
   * otherwise as written.
   */
  function ReferenceFromMessage(m: TalkMessage): (r: Converted<TalkReference>)
    ensures r.result.Ok? <==> m.WithArguments? && |m.args| == 1 && m.args[0].Reference?
    ensures r.result.Ok? ==> r.result.value == m.args[0].reference && r.released == []
    ensures m.WithArguments? && |m.args| == 1 && !m.args[0].Reference? ==> r.result == Err(NotAReference)
  {
    match m
    case Unary(id) => Converted(Err(MessageNotSupported(id)), [])
    case WithArguments(id, args) =>
      if |args| == 1 then
        if args[0].Reference? then Converted(Ok(args[0].reference), [])
        else Converted(Err(NotAReference), args)
      else Converted(Err(MessageNotSupported(id)), args)
  }

  /**
   * `TalkValue::from_message` (lines 73-86): the single argument is taken out and returned
   * without being released (the caller owns it); any other number of arguments is released.
   */
  function ValueFromMessage(m: TalkMessage): (r: Converted<TalkValue>)
    ensures r.result.Ok? <==> m.WithArguments? && |m.args| == 1
    ensures r.result.Ok? ==> r.result.value == m.args[0] && r.released == []
  {
    match m
    case Unary(id) => Converted(Err(MessageNotSupported(id)), [])
    case WithArguments(id, args) =>
      if |args| == 1 then Converted(Ok(args[0]), [])
      else Converted(Err(MessageNotSupported(id)), args)
  }

  /**
   * A conversion conserves references when every reference the message's arguments held is
   * either handed to the caller in the result or released, and nothing else is released.
   */
  predicate ConservesReferences(m: TalkMessage, resultRefs: seq<TalkReference>, released: seq<TalkValue>)
  {
    multiset(resultRefs) + multiset(ReferencesOfAll(released)) == multiset(ReferencesOfAll(ToArguments(m)))
  }

  /** The references a converted reference hands to the caller. */
  function ReferenceResultRefs(r: Result<TalkReference, TalkError>): seq<TalkReference>
  {
    if r.Ok? then [r.value] else []
  }

  /** The references a converted value hands to the caller. */
  function ValueResultRefs(r: Result<TalkValue, TalkError>): seq<TalkReference>
  {
    if r.Ok? then References(r.value) else []
  }

  lemma ReferencesOfSingle(v: TalkValue)
    ensures ReferencesOfAll([v]) == References(v)
  {
    assert [v][..0] == [];
  }

  /** The corrected `TalkReference::from_message` conserves references for every message. */
  lemma ReferenceFromMessageConserves(m: TalkMessage)
    ensures var c := ReferenceFromMessage(m);
      ConservesReferences(m, ReferenceResultRefs(c.result), c.released)
  {
    if m.WithArguments? && |m.args| == 1 {
      ReferencesOfSingle(m.args[0]);
    }
  }

  /** `TalkValue::from_message` conserves references for every message. */
  lemma ValueFromMessageConserves(m: TalkMessage)
    ensures var c := ValueFromMessage(m);
      ConservesReferences(m, ValueResultRefs(c.result), c.released)
  {
    if m.WithArguments? && |m.args| == 1 {
      ReferencesOfSingle(m.args[0]);
    }
  }

  /**
   * As written, `TalkReference::from_message` loses the references inside an array argument:
   * neither handed to the caller nor released.
   */
  lemma ReferenceFromMessageAsWrittenLeaks(id: SignatureId, r: TalkReference)
    ensures var m := WithArguments(id, [Array([Reference(r)])]);
      var c := ReferenceFromMessageAsWritten(m);
      && c.result == Err(NotAReference)
      && !ConservesReferences(m, ReferenceResultRefs(c.result), c.released)
  {
    var m := WithArguments(id, [Array([Reference(r)])]);
    ReferencesOfSingle(Array([Reference(r)]));
    ReferencesOfSingle(Reference(r));
    ReferencesOfSingle(Nil);
    assert r in multiset(ReferencesOfAll(ToArguments(m)));
  }

  /** The two versions differ only on the `NotAReference` path. */
  lemma ReferenceFromMessageCorrection(m: TalkMessage)
    ensures ReferenceFromMessage(m).result == ReferenceFromMessageAsWritten(m).result
    ensures !(m.WithArguments? && |m.args| == 1 && !m.args[0].Reference?) ==> ReferenceFromMessage(m) == ReferenceFromMessageAsWritten(m)
  {
  }

  /** A reference or value in a `value:` message comes back unchanged, and nothing is released. */
  lemma RoundTripReferenceAndValue(ids: ConverterIds, r: TalkReference, v: TalkValue)
    ensures ReferenceFromMessage(ValueMessage(ids, Reference(r))) == Converted(Ok(r), [])
    ensures ValueFromMessage(ValueMessage(ids, v)) == Converted(Ok(v), [])
  {
  }

  /**
   * Any number of arguments other than one gives `MessageNotSupported`, and every argument is
   * released (lines 53-55, 79-81).
   */
  lemma WrongArgumentCountReleases(id: SignatureId, args: seq<TalkValue>)
    requires |args| != 1
    ensures ReferenceFromMessage(WithArguments(id, args)) == Converted(Err(MessageNotSupported(id)), args)
    ensures ValueFromMessage(WithArguments(id, args)) == Converted(Err(MessageNotSupported(id)), args)
  {
  }

  /**
   * `TalkReference::to_message` (lines 62-64) and `TalkValue::to_message` (lines 88-90): the
   * message holds a clone of the value, so each of its references gains one count.
   */
  method ValueToMessage(ids: ConverterIds, v: TalkValue, context: TalkContext) returns (m: TalkMessage)
    modifies context
    ensures m == ValueMessage(ids, v)
    ensures context.callbacks == old(context.callbacks)
    ensures context.counts == AdjustAll(old(context.counts), context.callbacks, References(v), 1)
  {
    var clone := context.CloneValue(v);
    m := WithArguments(ids.valueColon, [clone]);
  }
}
