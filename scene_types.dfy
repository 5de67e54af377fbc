/**
 * Types of the scene crate that the modelled files use but do not define.
 *
 * `TypeId` values (and the downcasts of `Box<dyn Any>` that compare them) are modelled as
 * `TypeTag` values compared for equality. A tag names a type; the tags of the generic
 * wrappers the code asks for (`Mutex<InputStreamCore<T>>`, `SerializedMessage<T>`) are built
 * from the tag of their parameter, so they differ from it and from each other.
 */
module SceneTypes {

  datatype TypeTag =
    | Named(name: string)
    | InputStreamCoreOf(message: TypeTag)
    | SerializedMessageOf(serialized: TypeTag)

  /** The name `std::any::type_name` gives a tag. */
  function TypeName(t: TypeTag): string
  {
    match t
    case Named(n) => n
    case InputStreamCoreOf(m) => "std::sync::Mutex<flo_scene::InputStreamCore<" + TypeName(m) + ">>"
    case SerializedMessageOf(s) => "flo_scene::SerializedMessage<" + TypeName(s) + ">"
  }

  /** Where a stream is sent (stream_target.rs is not part of this model: targets are opaque). */
  datatype StreamTarget = StreamTarget(key: nat)

  /** A task waker taken out of a stream core (opaque). */
  datatype Waker = Waker(key: nat)

  /** The connection errors the modelled code produces (error.rs is not part of this model). */
  datatype ConnectionError =
    | UnexpectedConnectionType
    | TargetNotAvailable
    | Other(reason: string)
}
