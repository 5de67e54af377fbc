/**
 * The FloTalk value types the modelled files share.
 *
 * `TalkMessage`, `TalkMessageSignature` and `TalkMessageSignatureId` are declared in
 * src/flotalk/message.rs and `TalkClass` in flotalk/src/class.rs; the others come from files
 * that are not part of this model (value.rs, error.rs, reference.rs, symbol.rs, number.rs,
 * continuation.rs), so only the variants the modelled code builds or inspects are listed.
 * They live in one module because values hold errors, errors hold signature ids and messages
 * hold values.
 */
module TalkValues {

  /** A 64-bit signed integer, the payload of `TalkValue::Int`. */
  type i64 = x: int | -0x8000_0000_0000_0000 <= x < 0x8000_0000_0000_0000

  /** A 32-bit signed integer. */
  type i32 = x: int | -0x8000_0000 <= x < 0x8000_0000

  /** `TalkSymbol`: an interned name, modelled by the name itself. */
  datatype TalkSymbol = TalkSymbol(name: string)

  /** `TalkMessageSignatureId` */
  datatype SignatureId = SignatureId(id: nat)

  /** `TalkClass`: a class identifier. */
  datatype TalkClass = TalkClass(id: nat)

  /** `TalkDataHandle`: the handle of an object's data in its class's allocator. */
  datatype TalkDataHandle = TalkDataHandle(id: nat)

  /** `TalkReference(class, handle)` */
  datatype TalkReference = TalkReference(classId: TalkClass, handle: TalkDataHandle)

  /** `TalkError` */
  datatype TalkError =
    | MessageNotSupported(signature: SignatureId)
    | NotABoolean
    | NotAnInteger
    | NotAFloat
    | NotANumber
    | NotAString
    | NotACharacter
    | NotAnError
    | NotAReference

  /** `TalkValue`; floats are finite reals (NaN and infinities are not modelled). */
  datatype TalkValue =
    | Nil
    | Reference(reference: TalkReference)
    | Bool(boolValue: bool)
    | Int(intValue: i64)
    | Float(floatValue: real)
    | String(text: string)
    | Character(character: char)
    | Symbol(symbol: TalkSymbol)
    | Selector(selector: SignatureId)
    | Array(elements: seq<TalkValue>)
    | Error(error: TalkError)

  /** `TalkNumber` */
  datatype TalkNumber = Int(intValue: i64) | Float(floatValue: real)

  /** `TalkMessageSignature` */
  datatype TalkMessageSignature = Unary(symbol: TalkSymbol) | Arguments(symbols: seq<TalkSymbol>)

  /** `TalkMessage` */
  datatype TalkMessage =
    | Unary(id: SignatureId)
    | WithArguments(id: SignatureId, args: seq<TalkValue>)

  /** `TalkMessage::signature_id` */
  function SignatureIdOf(message: TalkMessage): SignatureId
  {
    message.id
  }

  /** `TalkMessage::to_arguments`: a unary message has no arguments. */
  function ToArguments(message: TalkMessage): seq<TalkValue>
  {
    match message
    case Unary(_) => []
    case WithArguments(_, args) => args
  }

  /**
   * `TalkContinuation`. The deferred continuations the modelled code builds are named by what
   * they will do when run: send a message to a class, or produce a class's class object.
   */
  datatype TalkContinuation =
    | Ready(value: TalkValue)
    | SendToClass(target: TalkClass, message: TalkMessage)
    | ClassObjectOf(classToRead: TalkClass)

  /** `impl From<TalkError> for TalkContinuation`: a ready error value. */
  function ErrorContinuation(error: TalkError): (r: TalkContinuation)
    ensures r.Ready? && r.value.Error? && r.value.error == error
  {
    Ready(TalkValue.Error(error))
  }
}
