/**
 * The class registry of FloTalk (flotalk/src/class.rs).
 *
 * The globals `NEXT_CLASS_ID`, `CLASS_DEFINITIONS`, `CLASS_CALLBACKS` and `CLASS_DATA_READERS`
 * and the thread-local `LOCAL_CLASS_CALLBACKS` are the fields of `ClassRegistry`, updated in
 * place as the source does. Definitions, callbacks and data readers are opaque values; the type
 * of a definition and the target type of a reader are `TypeTag`s, and downcasting a boxed
 * definition compares tags. Locks are not modelled: each operation runs on its own.
 */
module TalkClasses {
  import opened Wrappers
  import opened SceneTypes
  import opened TalkValues
  import opened DispatchTables

  /** A class definition, known by the tag of its Rust type. */
  datatype ClassDefinition = ClassDefinition(definitionType: TypeTag, key: nat)

  /** `TalkClassCallbacks`: created for one class from its definition. */
  datatype ClassCallbacks = ClassCallbacks(classId: TalkClass, definition: ClassDefinition)

  /** A function registered with `talk_add_class_data_reader` (opaque). */
  datatype DataReader = DataReader(key: nat)

  /** What reading the data of an object yields: the reader applied to the data at the handle. */
  datatype ReadData = ReadData(reader: DataReader, handle: TalkDataHandle)

  /**
   * `s` extended with `None` until index `idx` exists (the `while len <= idx { push(None) }`
   * loops at lines 346-348, 361-363 and 383-385): existing entries are kept and every added one
   * is `None`.
   */
  method PadWithNone<T>(s: seq<Option<T>>, idx: nat) returns (r: seq<Option<T>>)
    ensures |r| == if |s| <= idx then idx + 1 else |s|
    ensures r[..|s|] == s
    ensures forall i :: |s| <= i < |r| ==> r[i] == None
  {
    r := s;
    while |r| <= idx
      invariant |s| <= |r| <= if |s| <= idx then idx + 1 else |s|
      invariant r[..|s|] == s
      invariant forall i :: |s| <= i < |r| ==> r[i] == None
      decreases idx + 1 - |r|
    {
      r := r + [None];
    }
  }

  /** The registry of classes. */
  class ClassRegistry {
    var nextClassId: nat
    var definitions: seq<Option<ClassDefinition>>
    var callbacks: seq<Option<ClassCallbacks>>
    var localCallbacks: seq<Option<ClassCallbacks>>
    var dataReaders: map<TypeTag, map<TypeTag, DataReader>>

    /**
     * Every stored class id was drawn from the counter; a class has a definition exactly when it
     * has callbacks, which were created for it from that definition; and the thread-local cache
     * only holds copies of global entries.
     */
    ghost predicate Valid()
      reads this
    {
      && |definitions| <= nextClassId
      && |callbacks| <= nextClassId
      && (forall i :: 0 <= i < |definitions| ==> (definitions[i].Some? <==> i < |callbacks| && callbacks[i].Some?))
      && (forall i :: 0 <= i < |callbacks| && callbacks[i].Some? ==>
            i < |definitions| && callbacks[i].value == ClassCallbacks(TalkClass(i), definitions[i].value))
      && (forall i :: 0 <= i < |localCallbacks| && localCallbacks[i].Some? ==>
            i < |callbacks| && localCallbacks[i] == callbacks[i])
    }

    /** The registry before any class is created. */
    constructor ()
      ensures Valid()
      ensures nextClassId == 0 && definitions == [] && callbacks == [] && localCallbacks == [] && dataReaders == map[]
    {
      nextClassId := 0;
      definitions := [];
      callbacks := [];
      localCallbacks := [];
      dataReaders := map[];
    }

    /** `TalkClass::new` (lines 156-166): the counter's value; the counter moves on by one. */
    method New() returns (c: TalkClass)
      modifies this
      ensures c == TalkClass(old(nextClassId)) && nextClassId == old(nextClassId) + 1
      ensures definitions == old(definitions) && callbacks == old(callbacks)
      ensures localCallbacks == old(localCallbacks) && dataReaders == old(dataReaders)
    {
      c := TalkClass(nextClassId);
      nextClassId := nextClassId + 1;
    }

    /**
     * `definition` (lines 448-461): the stored definition when the index is in range, the entry
     * is set and its type is the one asked for; `None` otherwise.
     */
    function Definition(c: TalkClass, definitionType: TypeTag): (r: Option<ClassDefinition>)
      reads this
      ensures r.Some? <==> c.id < |definitions| && definitions[c.id].Some? && definitions[c.id].value.definitionType == definitionType
      ensures r.Some? ==> r.value == definitions[c.id].value
    {
      if c.id < |definitions| then
        match definitions[c.id]
        case Some(d) => if d.definitionType == definitionType then Some(d) else None
        case None => None
      else None
    }

    /**
     * The registry is the one before it, given as its counter, vectors, local cache and data
     * readers, with exactly one class created from `definition`: the counter moves on by one,
     * the new id holds the definition and its callbacks, every earlier id keeps its entries
     * (padded with `None`), and the cache and the readers are untouched.
     */
    ghost predicate CreatedOne(next: nat, defs: seq<Option<ClassDefinition>>, cbs: seq<Option<ClassCallbacks>>,
                               local: seq<Option<ClassCallbacks>>, readers: map<TypeTag, map<TypeTag, DataReader>>,
                               definition: ClassDefinition)
      reads this
    {
      && nextClassId == next + 1
      && |definitions| == next + 1 && |callbacks| == next + 1
      && definitions[next] == Some(definition)
      && callbacks[next] == Some(ClassCallbacks(TalkClass(next), definition))
      && (forall i :: 0 <= i < next ==> definitions[i] == (if i < |defs| then defs[i] else None))
      && (forall i :: 0 <= i < next ==> callbacks[i] == (if i < |cbs| then cbs[i] else None))
      && localCallbacks == local && dataReaders == readers
    }

    /**
     * `create` (lines 338-368): a new class id; both vectors are padded with `None` up to it and
     * its entries set, and no other entry changes. Its definition can then be read back with its
     * own type, and not with any other.
     */
    method Create(definition: ClassDefinition) returns (c: TalkClass)
      requires Valid()
      modifies this
      ensures Valid()
      ensures c == TalkClass(old(nextClassId)) && nextClassId == old(nextClassId) + 1
      ensures |definitions| == c.id + 1 && |callbacks| == c.id + 1
      ensures definitions[c.id] == Some(definition)
      ensures callbacks[c.id] == Some(ClassCallbacks(c, definition))
      ensures forall i :: 0 <= i < c.id ==> definitions[i] == (if i < |old(definitions)| then old(definitions)[i] else None)
      ensures forall i :: 0 <= i < c.id ==> callbacks[i] == (if i < |old(callbacks)| then old(callbacks)[i] else None)
      ensures localCallbacks == old(localCallbacks) && dataReaders == old(dataReaders)
      ensures forall t :: Definition(c, t) == (if t == definition.definitionType then Some(definition) else None)
    {
      c := New();
      var idx := c.id;
      var padded := PadWithNone(definitions, idx);
      definitions := padded[idx := Some(definition)];
      var paddedCallbacks := PadWithNone(callbacks, idx);
      callbacks := paddedCallbacks[idx := Some(ClassCallbacks(c, definition))];
    }

    /**
     * `make_local_callbacks` (lines 373-391): the global callbacks of the class, which must
     * exist, copied into the thread-local cache at the class's index.
     */
    method MakeLocalCallbacks(c: TalkClass) returns (cb: ClassCallbacks)
      requires Valid()
      requires c.id < |callbacks| && callbacks[c.id].Some?
      modifies this
      ensures Valid()
      ensures cb == old(callbacks[c.id].value) && cb.classId == c
      ensures c.id < |localCallbacks| && localCallbacks[c.id] == Some(cb)
      ensures forall i :: 0 <= i < |localCallbacks| && i != c.id ==>
        localCallbacks[i] == (if i < |old(localCallbacks)| then old(localCallbacks)[i] else None)
      ensures nextClassId == old(nextClassId) && definitions == old(definitions)
      ensures callbacks == old(callbacks) && dataReaders == old(dataReaders)
    {
      cb := callbacks[c.id].value;
      var padded := PadWithNone(localCallbacks, c.id);
      localCallbacks := padded[c.id := Some(cb)];
    }

    /**
     * `callbacks` (lines 397-414): the thread-local entry when it is set, without changing
     * anything; otherwise the global entry, through `make_local_callbacks`. Either way the
     * result is the class's global callbacks.
     */
    method Callbacks(c: TalkClass) returns (cb: ClassCallbacks)
      requires Valid()
      requires c.id < |callbacks| && callbacks[c.id].Some?
      modifies this
      ensures Valid()
      ensures cb == old(callbacks[c.id].value) && cb.classId == c
      ensures c.id < |localCallbacks| && localCallbacks[c.id] == Some(cb)
      ensures old(c.id < |localCallbacks| && localCallbacks[c.id].Some?) ==> localCallbacks == old(localCallbacks)
      ensures nextClassId == old(nextClassId) && definitions == old(definitions)
      ensures callbacks == old(callbacks) && dataReaders == old(dataReaders)
    {
      if c.id < |localCallbacks| && localCallbacks[c.id].Some? {
        cb := localCallbacks[c.id].value;
      } else {
        cb := MakeLocalCallbacks(c);
      }
    }

    /**
     * `talk_add_class_data_reader` (lines 481-511): the reader is stored for the pair of the
     * class's type and the target type, creating the class's inner map when absent and replacing
     * an earlier reader for the same pair; every other reader stays.
     */
    method AddClassDataReader(classType: TypeTag, targetType: TypeTag, reader: DataReader)
      modifies this
      ensures dataReaders == old(dataReaders)[classType :=
        (if classType in old(dataReaders) then old(dataReaders)[classType] else map[])[targetType := reader]]
      ensures nextClassId == old(nextClassId) && definitions == old(definitions)
      ensures callbacks == old(callbacks) && localCallbacks == old(localCallbacks)
      ensures forall handle :: ReadClassData(classType, targetType, handle) == Some(ReadData(reader, handle))
    {
      var inner := if classType in dataReaders then dataReaders[classType] else map[];
      dataReaders := dataReaders[classType := inner[targetType := reader]];
    }

    /**
     * `callback_read_data` (lines 289-314) followed by `TalkClassContextCallbacks::read_data`
     * (lines 130-141): nothing when there is no reader for the class's type or none for the
     * target type; otherwise what the reader makes of the data at the handle.
     */
    function ReadClassData(classType: TypeTag, targetType: TypeTag, handle: TalkDataHandle): (r: Option<ReadData>)
      reads this
      ensures r.None? <==> classType !in dataReaders || targetType !in dataReaders[classType]
      ensures r.Some? ==> r.value == ReadData(dataReaders[classType][targetType], handle)
    {
      if classType in dataReaders then
        var classReaders := dataReaders[classType];
        if targetType in classReaders then Some(ReadData(classReaders[targetType], handle)) else None
      else None
    }
  }

  /**
   * Adding a reader for one pair of types does not change what reading any other pair yields.
   */
  lemma AddReaderKeepsOthers(readers: map<TypeTag, map<TypeTag, DataReader>>, classType: TypeTag, targetType: TypeTag, reader: DataReader, c: TypeTag, t: TypeTag)
    requires (c, t) != (classType, targetType)
    ensures var inner := if classType in readers then readers[classType] else map[];
      var after := readers[classType := inner[targetType := reader]];
      (c in after && t in after[c]) <==> (c in readers && t in readers[c])
    ensures var inner := if classType in readers then readers[classType] else map[];
      var after := readers[classType := inner[targetType := reader]];
      c in readers && t in readers[c] ==> after[c][t] == readers[c][t]
  {
  }

  /**
   * `callback_dispatch_table` (lines 241-253): the class's default instance table, whose
   * fallback fetches the object's data from the allocator and hands the message to
   * `send_instance_message`, with a reference rebuilt from the class id and the data handle.
   */
  function CallbackDispatchTable<Data>(
    classId: TalkClass,
    defaultTable: DispatchTable<TalkReference>,
    retrieve: TalkDataHandle -> Data,
    sendInstanceMessage: (SignatureId, seq<TalkValue>, TalkReference, Data) -> TalkContinuation): (t: DispatchTable<TalkReference>)
    ensures t.actions == defaultTable.actions
  {
    WithNotSupported(defaultTable,
      (reference: TalkReference, id: SignatureId, args: seq<TalkValue>) =>
        sendInstanceMessage(id, args, TalkReference(classId, reference.handle), retrieve(reference.handle)))
  }

  /**
   * Instance messages the default table defines are handled by it; only the others fall
   * through to `send_instance_message` (line 197).
   */
  lemma CallbackDispatchFallthrough<Data>(
    classId: TalkClass,
    defaultTable: DispatchTable<TalkReference>,
    retrieve: TalkDataHandle -> Data,
    sendInstanceMessage: (SignatureId, seq<TalkValue>, TalkReference, Data) -> TalkContinuation,
    reference: TalkReference, message: TalkMessage)
    ensures message.id in defaultTable.actions ==>
      SendMessage(CallbackDispatchTable(classId, defaultTable, retrieve, sendInstanceMessage), reference, message)
        == SendMessage(defaultTable, reference, message)
    ensures message.id !in defaultTable.actions ==>
      SendMessage(CallbackDispatchTable(classId, defaultTable, retrieve, sendInstanceMessage), reference, message)
        == sendInstanceMessage(message.id, ToArguments(message), TalkReference(classId, reference.handle), retrieve(reference.handle))
  {
  }

  /**
   * `callback_class_dispatch_table` (lines 276-284): the default class table, whose fallback
   * hands the message to `send_class_message` with the class id.
   */
  function CallbackClassDispatchTable(
    classId: TalkClass,
    defaultTable: DispatchTable<()>,
    sendClassMessage: (SignatureId, seq<TalkValue>, TalkClass) -> TalkContinuation): (t: DispatchTable<()>)
    ensures t.actions == defaultTable.actions
    ensures forall id, args :: t.notSupported((), id, args) == sendClassMessage(id, args, classId)
  {
    WithNotSupported(defaultTable, (u: (), id: SignatureId, args: seq<TalkValue>) => sendClassMessage(id, args, classId))
  }
}
