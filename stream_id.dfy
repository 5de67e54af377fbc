/**
 * Stream identifiers and the per-message-type connection functions (scene/src/stream_id.rs).
 *
 * `STREAM_TYPE_FUNCTIONS` maps a message type to the closures `for_message_type` builds for it.
 * Those closures are generic only in the message type, so the entry for a type is modelled as
 * `StreamTypeFunctions(messageType)` and calling one of its closures is a method taking that
 * message type. The `Arc<dyn Any>` a closure receives is an `AnyCore`; downcasting it to
 * `Mutex<OutputSinkCore<T>>` or `Mutex<InputStreamCore<T>>` succeeds exactly when it is a core
 * of that kind whose message type is `T`.
 */
module StreamIds {
  import opened Wrappers
  import opened SceneTypes

  /** The closures `for_message_type::<T>()` creates, identified by `T`. */
  datatype StreamTypeFunctions = StreamTypeFunctions(messageType: TypeTag)

  /** `StreamIdType` */
  datatype StreamIdType = MessageType | Target(target: StreamTarget)

  /** `StreamId` */
  datatype StreamId = StreamId(
    streamIdType: StreamIdType,
    messageTypeName: string,
    messageType: TypeTag,
    inputStreamCoreType: TypeTag)

  /** The input core of a stream (input_stream.rs is not part of this model). */
  class InputStreamCore {
    const messageType: TypeTag
    var closed: bool
    var waker: Option<Waker>

    constructor (messageType: TypeTag)
      ensures this.messageType == messageType && !closed && waker == None
    {
      this.messageType := messageType;
      closed := false;
      waker := None;
    }

    /** `InputStreamCore::close`: marks the stream closed and hands back its waker. */
    method Close() returns (w: Option<Waker>)
      modifies this
      ensures closed && waker == None && w == old(waker)
    {
      closed := true;
      w := waker;
      waker := None;
    }
  }

  /** Where an output sink sends its messages (`OutputSinkTarget`; weak references as plain references). */
  datatype OutputSinkTarget =
    | Input(stream: InputStreamCore)
    | CloseWhenDropped(stream: InputStreamCore)
    | Discard
    | Disconnected

  /** The shared core of an output sink (output_sink.rs is not part of this model). */
  class OutputSinkCore {
    const messageType: TypeTag
    var target: OutputSinkTarget
    var whenTargetChanged: Option<Waker>

    constructor (messageType: TypeTag, target: OutputSinkTarget, whenTargetChanged: Option<Waker>)
      ensures this.messageType == messageType && this.target == target
      ensures this.whenTargetChanged == whenTargetChanged
    {
      this.messageType := messageType;
      this.target := target;
      this.whenTargetChanged := whenTargetChanged;
    }
  }

  /** An `Arc<dyn Send + Sync + Any>` handed to a connection function. */
  datatype AnyCore =
    | SinkCore(sink: OutputSinkCore)
    | StreamCore(stream: InputStreamCore)
    | OtherCore(tag: TypeTag)

  /** `downcast::<Mutex<OutputSinkCore<T>>>()` */
  function DowncastSink(any: AnyCore, messageType: TypeTag): (r: Option<OutputSinkCore>)
    ensures r.Some? <==> any.SinkCore? && any.sink.messageType == messageType
    ensures r.Some? ==> r.value == any.sink
  {
    if any.SinkCore? && any.sink.messageType == messageType then Some(any.sink) else None
  }

  /** `downcast::<Mutex<InputStreamCore<T>>>()` */
  function DowncastStream(any: AnyCore, messageType: TypeTag): (r: Option<InputStreamCore>)
    ensures r.Some? <==> any.StreamCore? && any.stream.messageType == messageType
    ensures r.Some? ==> r.value == any.stream
  {
    if any.StreamCore? && any.stream.messageType == messageType then Some(any.stream) else None
  }

  /** The objects a connection function may change when it is given `any`. */
  function Cores(any: AnyCore): set<object>
  {
    match any
    case SinkCore(s) => {s}
    case StreamCore(s) => {s}
    case OtherCore(_) => {}
  }

  // ---------------------------------------------------------------------------------------
  // The closures built by `for_message_type`

  /**
   * `connect_output_to_input` for message type `messageType` (lines 70-89): both cores must
   * have that type; the sink's target becomes the stream (closing it when the sink is dropped
   * if asked to) and the sink's waker is taken and returned.
   */
  method ConnectOutputToInput(messageType: TypeTag, outputSink: AnyCore, inputStream: AnyCore, closeWhenDropped: bool)
    returns (r: Result<Option<Waker>, ConnectionError>)
    modifies Cores(outputSink)
    ensures DowncastSink(outputSink, messageType).None? || DowncastStream(inputStream, messageType).None?
      ==> r == Err(UnexpectedConnectionType) && unchanged(Cores(outputSink))
    ensures DowncastSink(outputSink, messageType).Some? && DowncastStream(inputStream, messageType).Some? ==>
      && r == Ok(old(outputSink.sink.whenTargetChanged))
      && outputSink.sink.target == (if !closeWhenDropped then Input(inputStream.stream) else CloseWhenDropped(inputStream.stream))
      && outputSink.sink.whenTargetChanged == None
  {
    var sink := DowncastSink(outputSink, messageType);
    if sink.None? {
      return Err(UnexpectedConnectionType);
    }
    var stream := DowncastStream(inputStream, messageType);
    if stream.None? {
      return Err(UnexpectedConnectionType);
    }
    var core := sink.value;
    core.target := if !closeWhenDropped then Input(stream.value) else CloseWhenDropped(stream.value);
    var waker := core.whenTargetChanged;
    core.whenTargetChanged := None;
    r := Ok(waker);
  }

  /** Sets the sink's target and takes its waker; shared by the discard and disconnect closures. */
  method Retarget(messageType: TypeTag, outputSink: AnyCore, target: OutputSinkTarget)
    returns (r: Result<Option<Waker>, ConnectionError>)
    modifies Cores(outputSink)
    ensures DowncastSink(outputSink, messageType).None? ==> r == Err(UnexpectedConnectionType) && unchanged(Cores(outputSink))
    ensures DowncastSink(outputSink, messageType).Some? ==>
      && r == Ok(old(outputSink.sink.whenTargetChanged))
      && outputSink.sink.target == target
      && outputSink.sink.whenTargetChanged == None
  {
    var sink := DowncastSink(outputSink, messageType);
    if sink.None? {
      return Err(UnexpectedConnectionType);
    }
    var core := sink.value;
    core.target := target;
    var waker := core.whenTargetChanged;
    core.whenTargetChanged := None;
    r := Ok(waker);
  }

  /** `connect_output_to_discard` for message type `messageType` (lines 91-103). */
  method ConnectOutputToDiscard(messageType: TypeTag, outputSink: AnyCore)
    returns (r: Result<Option<Waker>, ConnectionError>)
    modifies Cores(outputSink)
    ensures DowncastSink(outputSink, messageType).None? ==> r == Err(UnexpectedConnectionType) && unchanged(Cores(outputSink))
    ensures DowncastSink(outputSink, messageType).Some? ==>
      && r == Ok(old(outputSink.sink.whenTargetChanged))
      && outputSink.sink.target == Discard
      && outputSink.sink.whenTargetChanged == None
  {
    r := Retarget(messageType, outputSink, Discard);
  }

  /** `disconnect_output` for message type `messageType` (lines 105-117). */
  method DisconnectOutput(messageType: TypeTag, outputSink: AnyCore)
    returns (r: Result<Option<Waker>, ConnectionError>)
    modifies Cores(outputSink)
    ensures DowncastSink(outputSink, messageType).None? ==> r == Err(UnexpectedConnectionType) && unchanged(Cores(outputSink))
    ensures DowncastSink(outputSink, messageType).Some? ==>
      && r == Ok(old(outputSink.sink.whenTargetChanged))
      && outputSink.sink.target == Disconnected
      && outputSink.sink.whenTargetChanged == None
  {
    r := Retarget(messageType, outputSink, Disconnected);
  }

  /** `close_input` for message type `messageType` (lines 119-124). */
  method CloseInput(messageType: TypeTag, inputStream: AnyCore)
    returns (r: Result<Option<Waker>, ConnectionError>)
    modifies Cores(inputStream)
    ensures DowncastStream(inputStream, messageType).None? ==> r == Err(UnexpectedConnectionType) && unchanged(Cores(inputStream))
    ensures DowncastStream(inputStream, messageType).Some? ==>
      && r == Ok(old(inputStream.stream.waker))
      && inputStream.stream.closed
      && inputStream.stream.waker == None
  {
    var stream := DowncastStream(inputStream, messageType);
    if stream.None? {
      return Err(UnexpectedConnectionType);
    }
    var waker := stream.value.Close();
    r := Ok(waker);
  }

  // ---------------------------------------------------------------------------------------
  // The registry

  /** `STREAM_TYPE_FUNCTIONS` */
  class StreamTypeRegistry {
    var functions: map<TypeTag, StreamTypeFunctions>

    /** Every entry holds the functions built for its own type. */
    ghost predicate Valid()
      reads this
    {
      forall t :: t in functions ==> functions[t] == StreamTypeFunctions(t)
    }

    constructor ()
      ensures Valid() && functions == map[]
    {
      functions := map[];
    }

    /**
     * `StreamTypeFunctions::add` (lines 131-140): `or_insert_with`, so an existing entry is
     * never replaced and only a missing one is added.
     */
    method Add(messageType: TypeTag)
      requires Valid()
      modifies this
      ensures Valid()
      ensures messageType in functions
      ensures messageType in old(functions) ==> functions == old(functions)
      ensures messageType !in old(functions) ==> functions == old(functions)[messageType := StreamTypeFunctions(messageType)]
    {
      if messageType !in functions {
        functions := functions[messageType := StreamTypeFunctions(messageType)];
      }
    }

    /**
     * The four lookups (lines 145-172): each gives the registered functions' closure of its
     * kind, or `None` for an unregistered type.
     */
    function Lookup(messageType: TypeTag): (r: Option<StreamTypeFunctions>)
      reads this
      requires Valid()
      ensures r.None? <==> messageType !in functions
      ensures r.Some? ==> r.value.messageType == messageType
    {
      if messageType in functions then Some(functions[messageType]) else None
    }

    /** `StreamId::with_message_type` (lines 179-191). */
    method WithMessageType(messageType: TypeTag) returns (id: StreamId)
      requires Valid()
      modifies this
      ensures Valid() && messageType in functions
      ensures messageType in old(functions) ==> functions == old(functions)
      ensures forall t :: t in old(functions) ==> t in functions && functions[t] == old(functions[t])
      ensures id == StreamId(MessageType, TypeName(messageType), messageType, InputStreamCoreOf(messageType))
    {
      Add(messageType);
      id := StreamId(MessageType, TypeName(messageType), messageType, InputStreamCoreOf(messageType));
    }

    /** `StreamId::for_target` (lines 196-208): as `with_message_type` but for a target. */
    method ForTarget(messageType: TypeTag, target: StreamTarget) returns (id: StreamId)
      requires Valid()
      modifies this
      ensures Valid() && messageType in functions
      ensures messageType in old(functions) ==> functions == old(functions)
      ensures forall t :: t in old(functions) ==> t in functions && functions[t] == old(functions[t])
      ensures id == StreamId(Target(target), TypeName(messageType), messageType, InputStreamCoreOf(messageType))
    {
      Add(messageType);
      id := StreamId(Target(target), TypeName(messageType), messageType, InputStreamCoreOf(messageType));
    }

    /** `StreamId::connect_output_to_input` (lines 237-247). */
    method StreamConnectOutputToInput(id: StreamId, outputSink: AnyCore, inputStream: AnyCore, closeWhenDropped: bool)
      returns (r: Result<Option<Waker>, ConnectionError>)
      requires Valid()
      modifies Cores(outputSink)
      ensures id.messageType !in functions ==> r == Err(UnexpectedConnectionType) && unchanged(Cores(outputSink))
      ensures (id.messageType in functions && DowncastSink(outputSink, id.messageType).Some?
        && DowncastStream(inputStream, id.messageType).Some?) ==>
        && r == Ok(old(outputSink.sink.whenTargetChanged))
        && outputSink.sink.target == (if !closeWhenDropped then Input(inputStream.stream) else CloseWhenDropped(inputStream.stream))
        && outputSink.sink.whenTargetChanged == None
      ensures DowncastSink(outputSink, id.messageType).None? || DowncastStream(inputStream, id.messageType).None?
        ==> r == Err(UnexpectedConnectionType) && unchanged(Cores(outputSink))
    {
      var fns := Lookup(id.messageType);
      if fns.None? {
        return Err(UnexpectedConnectionType);
      }
      r := ConnectOutputToInput(fns.value.messageType, outputSink, inputStream, closeWhenDropped);
    }

    /** `StreamId::connect_output_to_discard` (lines 254-264). */
    method StreamConnectOutputToDiscard(id: StreamId, outputSink: AnyCore)
      returns (r: Result<Option<Waker>, ConnectionError>)
      requires Valid()
      modifies Cores(outputSink)
      ensures id.messageType !in functions || DowncastSink(outputSink, id.messageType).None?
        ==> r == Err(UnexpectedConnectionType) && unchanged(Cores(outputSink))
      ensures id.messageType in functions && DowncastSink(outputSink, id.messageType).Some? ==>
        && r == Ok(old(outputSink.sink.whenTargetChanged))
        && outputSink.sink.target == Discard
        && outputSink.sink.whenTargetChanged == None
    {
      var fns := Lookup(id.messageType);
      if fns.None? {
        return Err(UnexpectedConnectionType);
      }
      r := ConnectOutputToDiscard(fns.value.messageType, outputSink);
    }

    /** `StreamId::disconnect_output` (lines 271-281). */
    method StreamDisconnectOutput(id: StreamId, outputSink: AnyCore)
      returns (r: Result<Option<Waker>, ConnectionError>)
      requires Valid()
      modifies Cores(outputSink)
      ensures id.messageType !in functions || DowncastSink(outputSink, id.messageType).None?
        ==> r == Err(UnexpectedConnectionType) && unchanged(Cores(outputSink))
      ensures id.messageType in functions && DowncastSink(outputSink, id.messageType).Some? ==>
        && r == Ok(old(outputSink.sink.whenTargetChanged))
        && outputSink.sink.target == Disconnected
        && outputSink.sink.whenTargetChanged == None
    {
      var fns := Lookup(id.messageType);
      if fns.None? {
        return Err(UnexpectedConnectionType);
      }
      r := DisconnectOutput(fns.value.messageType, outputSink);
    }

    /** `StreamId::close_input` (lines 283-293). */
    method StreamCloseInput(id: StreamId, inputStream: AnyCore)
      returns (r: Result<Option<Waker>, ConnectionError>)
      requires Valid()
      modifies Cores(inputStream)
      ensures id.messageType !in functions || DowncastStream(inputStream, id.messageType).None?
        ==> r == Err(UnexpectedConnectionType) && unchanged(Cores(inputStream))
      ensures id.messageType in functions && DowncastStream(inputStream, id.messageType).Some? ==>
        && r == Ok(old(inputStream.stream.waker))
        && inputStream.stream.closed
        && inputStream.stream.waker == None
    {
      var fns := Lookup(id.messageType);
      if fns.None? {
        return Err(UnexpectedConnectionType);
      }
      r := CloseInput(fns.value.messageType, inputStream);
    }
  }
}
