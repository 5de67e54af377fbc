/**
 * Serialization of scene messages (scene/src/serialization.rs).
 *
 * serde is abstract: a message type's `serialize` and `deserialize` are partial functions given
 * as parameters, and a serializer is known by the tag of its type and the tag of its `Ok` type.
 * The boxed closures the registries store are known by the types they convert between, so
 * downcasting one succeeds exactly when those types are the ones asked for. Filter handles
 * (filter.rs is not part of this model) are fresh numbers drawn from a counter.
 */
module Serialization {
  import opened Wrappers
  import opened SceneTypes
  import StreamIds

  /** `SerializedMessage(value, type_id)`: a serialized value tagged with its source type. */
  datatype SerializedMessage<S> = SerializedMessage(value: S, typeId: TypeTag)

  /** A serializer type `TSerializer`, with the tag of `TSerializer::Ok`. */
  datatype SerializerType = SerializerType(tag: TypeTag, ok: TypeTag)

  /** The boxed `Fn() -> TSerializer` that `install_serializer` stores. */
  datatype SerializerConstructor = SerializerConstructor(creates: TypeTag, key: nat)

  /** A boxed `Fn(TSource) -> Result<TTarget, TSource>` stored in `TYPED_SERIALIZERS`. */
  datatype TypedConverter = TypedConverter(source: TypeTag, target: TypeTag)

  /** `FilterHandle` */
  datatype FilterHandle = FilterHandle(id: nat)

  /** The sink-creating closure stored in `SEND_SERIALIZED`: it deserializes into `messageType`. */
  datatype SerializedSinkFactory = SerializedSinkFactory(messageType: TypeTag)

  /** A sink of serialized values that deserializes them and sends them on to `target`. */
  datatype SerializedSink = SerializedSink(messageType: TypeTag, target: StreamTarget)

  const NameUsedByAnotherType := "Serialization type name has been used by another type"
  const SerializerNotInstalled := "Serializer has not been installed by install_serializer()"
  const SerializerNotInstalledCorrectly := "Serializer was not installed correctly"
  const SerializersNotInstalled := "The requested serializers are not installed"
  const SerializerTypeUnresolved := "Could not properly resolve the type of the requested serializer"

  // ---------------------------------------------------------------------------------------
  // The filters, as functions on the sequence of messages that passes through them

  /**
   * `create_serializer_filter` (lines 72-101) before `map_stream`: each message is serialized
   * with a fresh serializer, failures are dropped and successes are tagged with the source type.
   */
  function SerializeStream<M, S>(messages: seq<M>, serialize: M -> Option<S>, typeId: TypeTag): (r: seq<SerializedMessage<S>>)
    ensures |r| <= |messages|
    ensures forall k :: 0 <= k < |r| ==> r[k].typeId == typeId
  {
    if messages == [] then []
    else SerializeOne(messages[0], serialize, typeId) + SerializeStream(messages[1..], serialize, typeId)
  }

  /** What the serializer filter emits for one message: the tagged value, or nothing on failure. */
  function SerializeOne<M, S>(message: M, serialize: M -> Option<S>, typeId: TypeTag): (r: seq<SerializedMessage<S>>)
    ensures |r| <= 1
    ensures |r| == 1 <==> serialize(message).Some?
    ensures |r| == 1 ==> r[0] == SerializedMessage(serialize(message).value, typeId)
  {
    match serialize(message)
    case Some(s) => [SerializedMessage(s, typeId)]
    case None => []
  }

  /**
   * `deserializer_filter` (lines 124-147) before `map_stream`: a message tagged with another
   * type, or one that fails to deserialize, is dropped.
   */
  function DeserializeStream<M, S>(messages: seq<SerializedMessage<S>>, deserialize: S -> Option<M>, typeId: TypeTag): (r: seq<M>)
    ensures |r| <= |messages|
  {
    if messages == [] then []
    else DeserializeOne(messages[0], deserialize, typeId) + DeserializeStream(messages[1..], deserialize, typeId)
  }

  /** What the deserializer filter emits for one tagged value: the message, or nothing when the tag or the decoding fails. */
  function DeserializeOne<M, S>(message: SerializedMessage<S>, deserialize: S -> Option<M>, typeId: TypeTag): (r: seq<M>)
    ensures |r| <= 1
    ensures |r| == 1 <==> message.typeId == typeId && deserialize(message.value).Some?
    ensures |r| == 1 ==> r[0] == deserialize(message.value).value
  {
    if message.typeId != typeId then []
    else match deserialize(message.value)
      case Some(m) => [m]
      case None => []
  }

  /** The messages of a sequence that `serialize` accepts, in order. */
  function Serializable<M, S>(messages: seq<M>, serialize: M -> Option<S>): seq<M>
  {
    if messages == [] then []
    else (if serialize(messages[0]).Some? then [messages[0]] else []) + Serializable(messages[1..], serialize)
  }

  /** The serializer filter works message by message: it distributes over concatenation. */
  lemma {:induction false} SerializeStreamAppend<M, S>(a: seq<M>, b: seq<M>, serialize: M -> Option<S>, typeId: TypeTag)
    ensures SerializeStream(a + b, serialize, typeId) == SerializeStream(a, serialize, typeId) + SerializeStream(b, serialize, typeId)
  {
    if a != [] {
      var ab := a + b;
      assert ab[0] == a[0];
      assert ab[1..] == a[1..] + b;
      SerializeStreamAppend(a[1..], b, serialize, typeId);
      var head := SerializeOne(a[0], serialize, typeId);
      var rest := SerializeStream(a[1..], serialize, typeId);
      var tail := SerializeStream(b, serialize, typeId);
      calc {
        SerializeStream(ab, serialize, typeId);
        head + SerializeStream(a[1..] + b, serialize, typeId);
        head + (rest + tail);
        (head + rest) + tail;
      }
    } else {
      assert a + b == b;
    }
  }

  /** The deserializer filter works message by message: it distributes over concatenation. */
  lemma {:induction false} DeserializeStreamAppend<M, S>(a: seq<SerializedMessage<S>>, b: seq<SerializedMessage<S>>, deserialize: S -> Option<M>, typeId: TypeTag)
    ensures DeserializeStream(a + b, deserialize, typeId) == DeserializeStream(a, deserialize, typeId) + DeserializeStream(b, deserialize, typeId)
  {
    if a != [] {
      var ab := a + b;
      assert ab[0] == a[0];
      assert ab[1..] == a[1..] + b;
      DeserializeStreamAppend(a[1..], b, deserialize, typeId);
      var head := DeserializeOne(a[0], deserialize, typeId);
      var rest := DeserializeStream(a[1..], deserialize, typeId);
      var tail := DeserializeStream(b, deserialize, typeId);
      calc {
        DeserializeStream(ab, deserialize, typeId);
        head + DeserializeStream(a[1..] + b, deserialize, typeId);
        head + (rest + tail);
        (head + rest) + tail;
      }
    } else {
      assert a + b == b;
    }
  }

  /** When every message serializes, the filter emits one tagged value per message, in order. */
  lemma {:induction false} SerializeStreamTotal<M, S>(messages: seq<M>, serialize: M -> Option<S>, typeId: TypeTag)
    requires forall k :: 0 <= k < |messages| ==> serialize(messages[k]).Some?
    ensures var r := SerializeStream(messages, serialize, typeId);
      && |r| == |messages|
      && forall k :: 0 <= k < |r| ==> r[k] == SerializedMessage(serialize(messages[k]).value, typeId)
  {
    if messages != [] {
      SerializeStreamTotal(messages[1..], serialize, typeId);
    }
  }

  /** Values tagged with a type other than the filter's never get through the deserializer. */
  lemma {:induction false} DeserializeStreamOtherType<M, S>(messages: seq<SerializedMessage<S>>, deserialize: S -> Option<M>, typeId: TypeTag)
    requires forall k :: 0 <= k < |messages| ==> messages[k].typeId != typeId
    ensures DeserializeStream(messages, deserialize, typeId) == []
  {
    if messages != [] {
      DeserializeStreamOtherType(messages[1..], deserialize, typeId);
    }
  }

  /**
   * Round trip: when deserializing a serialized message gives it back, the deserializer filter
   * applied to the serializer filter's output gives back every message that could be
   * serialized, in the original order.
   */
  lemma {:induction false} DeserializeSerializeStream<M, S>(messages: seq<M>, serialize: M -> Option<S>, deserialize: S -> Option<M>, typeId: TypeTag)
    requires forall k :: 0 <= k < |messages| && serialize(messages[k]).Some? ==>
      deserialize(serialize(messages[k]).value) == Some(messages[k])
    ensures DeserializeStream(SerializeStream(messages, serialize, typeId), deserialize, typeId) == Serializable(messages, serialize)
  {
    if messages != [] {
      var head := SerializeOne(messages[0], serialize, typeId);
      DeserializeStreamAppend(head, SerializeStream(messages[1..], serialize, typeId), deserialize, typeId);
      DeserializeSerializeStream(messages[1..], serialize, deserialize, typeId);
    }
  }

  // ---------------------------------------------------------------------------------------
  // Specifications of the registry updates

  /**
   * The name check of `install_serializable_type` (lines 198-208) on the name table: a type
   * that already has a different name is refused and the table is unchanged; otherwise the
   * first recorded name stays and a type without a name gets this one.
   */
  function RecordTypeName(names: map<TypeTag, string>, messageType: TypeTag, name: string): (r: Result<map<TypeTag, string>, string>)
  {
    if messageType in names then
      if names[messageType] != name then Err(NameUsedByAnotherType) else Ok(names)
    else Ok(names[messageType := name])
  }

  /** A type's first name is kept for good: no later name replaces it. */
  lemma RecordTypeNameFirstWins(names: map<TypeTag, string>, messageType: TypeTag, first: string, later: string)
    ensures var r := RecordTypeName(names, messageType, first);
      r.Ok? ==> (
        && messageType in r.value
        && (messageType in names ==> r.value == names && names[messageType] == first)
        && (messageType !in names ==> r.value[messageType] == first)
        && var r2 := RecordTypeName(r.value, messageType, later);
           (r2.Ok? <==> later == first) && (r2.Ok? ==> r2.value == r.value))
  {
  }

  /** A recorded name may be installed again any number of times; another name is refused. */
  lemma RecordTypeNameErrors(names: map<TypeTag, string>, messageType: TypeTag, name: string)
    ensures RecordTypeName(names, messageType, name).Err? <==> messageType in names && names[messageType] != name
    ensures RecordTypeName(names, messageType, name).Err? ==> RecordTypeName(names, messageType, name).error == NameUsedByAnotherType
    ensures forall t :: t in names && t != messageType ==>
      RecordTypeName(names, messageType, name).Ok? ==> RecordTypeName(names, messageType, name).value[t] == names[t]
  {
  }

  /**
   * `serializer_filter` (lines 264-300) on the cache, the typed serializers and the handle
   * counter: a cached handle is returned as it is; otherwise a missing or mistyped converter
   * is an error; otherwise a fresh handle is cached and returned.
   */
  function FilterFor(
    cache: map<(TypeTag, TypeTag), FilterHandle>,
    typed: map<(TypeTag, TypeTag), TypedConverter>,
    nextHandle: nat,
    source: TypeTag, target: TypeTag): (Result<FilterHandle, string>, map<(TypeTag, TypeTag), FilterHandle>, nat)
  {
    if (source, target) in cache then (Ok(cache[(source, target)]), cache, nextHandle)
    else if (source, target) !in typed then (Err(SerializersNotInstalled), cache, nextHandle)
    else if typed[(source, target)] != TypedConverter(source, target) then (Err(SerializerTypeUnresolved), cache, nextHandle)
    else (Ok(FilterHandle(nextHandle)), cache[(source, target) := FilterHandle(nextHandle)], nextHandle + 1)
  }

  /**
   * Asking twice for the same filter gives the same handle and the second call changes
   * nothing; asking when no converter is installed and nothing is cached is an error.
   */
  lemma FilterForIsCached(
    cache: map<(TypeTag, TypeTag), FilterHandle>,
    typed: map<(TypeTag, TypeTag), TypedConverter>,
    nextHandle: nat, source: TypeTag, target: TypeTag)
    ensures var (r1, cache1, next1) := FilterFor(cache, typed, nextHandle, source, target);
      var (r2, cache2, next2) := FilterFor(cache1, typed, next1, source, target);
      r1.Ok? ==> r2 == r1 && cache2 == cache1 && next2 == next1
    ensures (source, target) !in cache && (source, target) !in typed ==>
      FilterFor(cache, typed, nextHandle, source, target).0 == Err(SerializersNotInstalled)
  {
  }

  /** A newly created filter handle differs from every cached one, given the counter is ahead of them. */
  lemma FilterForFresh(
    cache: map<(TypeTag, TypeTag), FilterHandle>,
    typed: map<(TypeTag, TypeTag), TypedConverter>,
    nextHandle: nat, source: TypeTag, target: TypeTag)
    requires forall k :: k in cache ==> cache[k].id < nextHandle
    ensures var (r, cache', next') := FilterFor(cache, typed, nextHandle, source, target);
      && (forall k :: k in cache' ==> cache'[k].id < next')
      && ((source, target) !in cache && r.Ok? ==> forall k :: k in cache ==> cache[k] != r.value)
  {
  }

  // ---------------------------------------------------------------------------------------
  // The registries

  /**
   * `SERIALIZABLE_MESSAGE_TYPE_NAMES`, `SEND_SERIALIZED`, `CREATE_ANY_SERIALIZER`,
   * `TYPED_SERIALIZERS`, the `FILTERS_FOR_TYPE` cache of `serializer_filter`, the cache of the
   * same name inside `install_serializers`, and the filter-handle counter.
   */
  class SerializationRegistry {
    var typeNames: map<TypeTag, string>
    var sendSerialized: map<(TypeTag, string), SerializedSinkFactory>
    var createAnySerializer: map<TypeTag, SerializerConstructor>
    var typedSerializers: map<(TypeTag, TypeTag), TypedConverter>
    var filtersForType: map<(TypeTag, TypeTag), FilterHandle>
    var installedFilters: map<(TypeTag, TypeTag), (FilterHandle, FilterHandle)>
    var nextFilterHandle: nat

    /** Every stored closure is keyed by the types it works on, and handles are below the counter. */
    ghost predicate Valid()
      reads this
    {
      && (forall t :: t in createAnySerializer ==> createAnySerializer[t].creates == t)
      && (forall k :: k in typedSerializers ==> typedSerializers[k] == TypedConverter(k.0, k.1))
      && (forall k :: k in filtersForType ==> filtersForType[k].id < nextFilterHandle)
      && (forall k :: k in installedFilters ==>
            installedFilters[k].0.id < nextFilterHandle && installedFilters[k].1.id < nextFilterHandle)
    }

    constructor ()
      ensures Valid()
      ensures typeNames == map[] && sendSerialized == map[] && createAnySerializer == map[]
      ensures typedSerializers == map[] && filtersForType == map[] && installedFilters == map[]
    {
      typeNames := map[];
      sendSerialized := map[];
      createAnySerializer := map[];
      typedSerializers := map[];
      filtersForType := map[];
      installedFilters := map[];
      nextFilterHandle := 0;
    }

    /** `install_serializer` (lines 158-172): stores the constructor, replacing any earlier one. */
    method InstallSerializer(serializer: SerializerType, key: nat)
      requires Valid()
      modifies this
      ensures Valid()
      ensures createAnySerializer == old(createAnySerializer)[serializer.tag := SerializerConstructor(serializer.tag, key)]
      ensures typeNames == old(typeNames) && typedSerializers == old(typedSerializers)
      ensures filtersForType == old(filtersForType) && installedFilters == old(installedFilters)
      ensures sendSerialized == old(sendSerialized) && nextFilterHandle == old(nextFilterHandle)
    {
      createAnySerializer := createAnySerializer[serializer.tag := SerializerConstructor(serializer.tag, key)];
    }

    /**
     * `install_serializable_type` (lines 187-257). The name is checked (and recorded) first, so
     * a missing serializer constructor leaves a newly recorded name behind.
     */
    method InstallSerializableType(messageType: TypeTag, serializer: SerializerType, name: string)
      returns (r: Result<(), string>)
      requires Valid()
      modifies this
      ensures Valid()
      ensures RecordTypeName(old(typeNames), messageType, name).Err? ==>
        r == Err(NameUsedByAnotherType) && typeNames == old(typeNames) && typedSerializers == old(typedSerializers)
      ensures RecordTypeName(old(typeNames), messageType, name).Ok? ==>
        typeNames == RecordTypeName(old(typeNames), messageType, name).value
      ensures RecordTypeName(old(typeNames), messageType, name).Ok? && serializer.tag !in createAnySerializer ==>
        r == Err(SerializerNotInstalled) && typedSerializers == old(typedSerializers)
      ensures RecordTypeName(old(typeNames), messageType, name).Ok? && serializer.tag in createAnySerializer ==>
        && r == Ok(())
        && typedSerializers == old(typedSerializers)
             [(messageType, serializer.ok) := TypedConverter(messageType, serializer.ok)]
             [(serializer.ok, messageType) := TypedConverter(serializer.ok, messageType)]
      ensures r != Err(SerializerNotInstalledCorrectly)
      ensures createAnySerializer == old(createAnySerializer) && filtersForType == old(filtersForType)
      ensures installedFilters == old(installedFilters) && sendSerialized == old(sendSerialized)
      ensures nextFilterHandle == old(nextFilterHandle)
    {
      var named := RecordTypeName(typeNames, messageType, name);
      if named.Err? {
        return Err(named.error);
      }
      typeNames := named.value;

      if serializer.tag !in createAnySerializer {
        return Err(SerializerNotInstalled);
      }
      var create := createAnySerializer[serializer.tag];
      if create.creates != serializer.tag {
        return Err(SerializerNotInstalledCorrectly);
      }

      var typed := typedSerializers
        [(messageType, serializer.ok) := TypedConverter(messageType, serializer.ok)]
        [(serializer.ok, messageType) := TypedConverter(serializer.ok, messageType)];
      assert forall k :: k in typed ==> typed[k] == TypedConverter(k.0, k.1);
      typedSerializers := typed;
      r := Ok(());
    }

    /** `serializer_filter` (lines 264-300), specified by `FilterFor`. */
    method SerializerFilter(source: TypeTag, target: TypeTag) returns (r: Result<FilterHandle, string>)
      requires Valid()
      modifies this
      ensures Valid()
      ensures (r, filtersForType, nextFilterHandle)
        == FilterFor(old(filtersForType), typedSerializers, old(nextFilterHandle), source, target)
      ensures r != Err(SerializerTypeUnresolved)
      ensures typeNames == old(typeNames) && typedSerializers == old(typedSerializers)
      ensures createAnySerializer == old(createAnySerializer) && installedFilters == old(installedFilters)
      ensures sendSerialized == old(sendSerialized)
    {
      if (source, target) in filtersForType {
        return Ok(filtersForType[(source, target)]);
      }
      if (source, target) !in typedSerializers {
        return Err(SerializersNotInstalled);
      }
      if typedSerializers[(source, target)] != TypedConverter(source, target) {
        return Err(SerializerTypeUnresolved);
      }
      var handle := FilterHandle(nextFilterHandle);
      nextFilterHandle := nextFilterHandle + 1;
      filtersForType := filtersForType[(source, target) := handle];
      r := Ok(handle);
    }

    /**
     * The registry part of `install_serializers` (lines 321-377): the cached pair of filters, or
     * two fresh handles that are then cached; and the sink factory stored for (serialized
     * type, name).
     */
    method CacheFilters(messageType: TypeTag, serializer: SerializerType, name: string) returns (filters: (FilterHandle, FilterHandle))
      requires Valid()
      modifies this
      ensures Valid()
      ensures (messageType, serializer.tag) in old(installedFilters) ==>
        filters == old(installedFilters)[(messageType, serializer.tag)] && installedFilters == old(installedFilters)
      ensures (messageType, serializer.tag) !in old(installedFilters) ==>
        && filters == (FilterHandle(old(nextFilterHandle)), FilterHandle(old(nextFilterHandle) + 1))
        && installedFilters == old(installedFilters)[(messageType, serializer.tag) := filters]
      ensures sendSerialized == old(sendSerialized)[(serializer.ok, name) := SerializedSinkFactory(messageType)]
      ensures typeNames == old(typeNames) && typedSerializers == old(typedSerializers)
      ensures createAnySerializer == old(createAnySerializer) && filtersForType == old(filtersForType)
    {
      if (messageType, serializer.tag) in installedFilters {
        filters := installedFilters[(messageType, serializer.tag)];
      } else {
        filters := (FilterHandle(nextFilterHandle), FilterHandle(nextFilterHandle + 1));
        nextFilterHandle := nextFilterHandle + 2;
        installedFilters := installedFilters[(messageType, serializer.tag) := filters];
      }
      sendSerialized := sendSerialized[(serializer.ok, name) := SerializedSinkFactory(messageType)];
    }

    /**
     * `install_serializers` (lines 309-384). The pair of filters for (message type, serializer)
     * is reused if it was made before and made (two fresh handles) and cached otherwise; the
     * sink factory for (serialized type, name) is stored, replacing any earlier one; then the
     * two filters are connected. `connectSerializer` and `connectDeserializer` are the outcomes
     * of the two `connect_programs` calls (the scene is not part of this model); the second is
     * not attempted when the first fails. Each `StreamId::with_message_type` call registers its
     * type's stream functions.
     */
    method InstallSerializers(
      streams: StreamIds.StreamTypeRegistry,
      messageType: TypeTag, serializer: SerializerType, name: string,
      connectSerializer: Result<(), ConnectionError>, connectDeserializer: Result<(), ConnectionError>)
      returns (r: Result<(), ConnectionError>, filters: (FilterHandle, FilterHandle))
      requires Valid() && streams.Valid()
      modifies this, streams
      ensures Valid() && streams.Valid()
      ensures (messageType, serializer.tag) in old(installedFilters) ==>
        filters == old(installedFilters)[(messageType, serializer.tag)] && installedFilters == old(installedFilters)
      ensures (messageType, serializer.tag) !in old(installedFilters) ==>
        && filters == (FilterHandle(old(nextFilterHandle)), FilterHandle(old(nextFilterHandle) + 1))
        && installedFilters == old(installedFilters)[(messageType, serializer.tag) := filters]
      ensures sendSerialized == old(sendSerialized)[(serializer.ok, name) := SerializedSinkFactory(messageType)]
      ensures r == (if connectSerializer.Err? then connectSerializer else connectDeserializer)
      ensures messageType in streams.functions
      ensures connectSerializer.Ok? ==> SerializedMessageOf(serializer.ok) in streams.functions
      ensures forall t :: t in old(streams.functions) ==> t in streams.functions && streams.functions[t] == old(streams.functions[t])
      ensures typeNames == old(typeNames) && typedSerializers == old(typedSerializers)
      ensures createAnySerializer == old(createAnySerializer) && filtersForType == old(filtersForType)
    {
      filters := CacheFilters(messageType, serializer, name);
      var serializerStream := streams.WithMessageType(messageType);
      if connectSerializer.Err? {
        return connectSerializer, filters;
      }
      var deserializerStream := streams.WithMessageType(SerializedMessageOf(serializer.ok));
      r := connectDeserializer;
    }

    /**
     * `SceneContext::send_serialized` (lines 392-409): with nothing installed for
     * (serialized type, name) the target is not available; otherwise the result is that of
     * creating a sink for the installed message type (`createSink`, the scene's answer).
     */
    function SendSerialized(serializedType: TypeTag, name: string, target: StreamTarget, createSink: Result<(), ConnectionError>)
      : (r: Result<SerializedSink, ConnectionError>)
      reads this
      ensures (serializedType, name) !in sendSerialized ==> r == Err(TargetNotAvailable)
      ensures (serializedType, name) in sendSerialized && createSink.Ok? ==>
        r == Ok(SerializedSink(sendSerialized[(serializedType, name)].messageType, target))
      ensures (serializedType, name) in sendSerialized && createSink.Err? ==> r == Err(createSink.error)
    {
      if (serializedType, name) in sendSerialized then
        match createSink
        case Ok(_) => Ok(SerializedSink(sendSerialized[(serializedType, name)].messageType, target))
        case Err(e) => Err(e)
      else Err(TargetNotAvailable)
    }
  }

  /** `StreamId::serialization_type_name` (lines 416-418): not implemented, always `None`. */
  function SerializationTypeName(id: StreamIds.StreamId): (r: Option<string>)
    ensures r == None
  {
    None
  }

  /** `StreamId::with_serialization_type` (lines 423-425): not implemented, always `None`. */
  function WithSerializationType(name: string): (r: Option<StreamIds.StreamId>)
    ensures r == None
  {
    None
  }
}
