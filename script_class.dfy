/**
 * Script classes and cell-block classes (src/flotalk/standard_classes/script_class.rs).
 *
 * `SCRIPT_CLASS_CLASS` is a factory: sending it `new` creates a cell-block class and stores a
 * `TalkScriptClass` describing it, and sending `subclass` to one of those objects makes a
 * script class whose superclass is that object.
 *
 * The message ids are interned once and are parameters. The allocator that stores script
 * classes (`TalkStandardAllocator`, allocator.rs) is not part of this model; it is taken to
 * hand out the next unused handle, so stored objects are kept in order of their handles.
 * `subclass` chains its steps through continuations that run later; they run here one after
 * the other, with `new` handled by `send_class_message` as the class's empty default class
 * table makes it. Cell blocks are numbered by a `u32`; context.rs, which keeps their retain
 * counts, is not part of this model, and `CellBlockCounts` stands for those counts.
 */
module ScriptClasses {
  import opened Wrappers
  import opened SceneTypes
  import opened TalkValues
  import opened Releasables
  import opened TalkClasses

  /** `TALK_MSG_NEW` and the ids of lines 15-27. */
  datatype ScriptMessageIds = ScriptMessageIds(
    newMessage: SignatureId,
    subclass: SignatureId,
    subclassWithInstanceVariables: SignatureId,
    addInstanceMessage: SignatureId,
    addClassMessage: SignatureId)

  /** `TalkScriptClass` (lines 40-52); the instance variables are the symbols of its symbol table. */
  datatype TalkScriptClass = TalkScriptClass(
    classId: TalkClass,
    superclassId: Option<TalkClass>,
    superclassScriptClass: Option<TalkReference>,
    instanceVariables: seq<TalkSymbol>)

  /** The definition of `TalkCellBlockClass`, as `TalkClass::create` stores it. */
  const CellBlockClassDefinition := ClassDefinition(Named("TalkCellBlockClass"), 0)

  /** The allocator of script classes: the object stored under handle `i` is `data[i]`. */
  class ScriptClassAllocator {
    var data: seq<TalkScriptClass>

    constructor ()
      ensures data == []
    {
      data := [];
    }

    /** `store`: the object is kept under a new handle. */
    method Store(item: TalkScriptClass) returns (handle: TalkDataHandle)
      modifies this
      ensures handle == TalkDataHandle(|old(data)|)
      ensures data == old(data) + [item]
    {
      handle := TalkDataHandle(|data|);
      data := data + [item];
    }
  }

  /**
   * `TalkScriptClassClass::send_class_message` (lines 127-151). `new` creates a cell-block
   * class, stores a script class for it with no superclass and no instance variables, and
   * returns a reference with this class's id and the new handle; any other message is not
   * supported and stores nothing. Either way the owned arguments are dropped when the call
   * returns, which releases each of them (releasable.rs, lines 55-63 and 155-164).
   */
  method SendClassMessage(ids: ScriptMessageIds, messageId: SignatureId, args: seq<TalkValue>, classId: TalkClass,
                          allocator: ScriptClassAllocator, registry: ClassRegistry, context: TalkContext) returns (r: TalkContinuation)
    requires registry.Valid()
    modifies allocator, registry, context
    ensures registry.Valid()
    ensures messageId == ids.newMessage ==>
      && registry.nextClassId == old(registry.nextClassId) + 1
      && registry.CreatedOne(old(registry.nextClassId), old(registry.definitions), old(registry.callbacks),
           old(registry.localCallbacks), old(registry.dataReaders), CellBlockClassDefinition)
      && registry.Definition(TalkClass(old(registry.nextClassId)), CellBlockClassDefinition.definitionType) == Some(CellBlockClassDefinition)
      && allocator.data == old(allocator.data) + [TalkScriptClass(TalkClass(old(registry.nextClassId)), None, None, [])]
      && r == Ready(Reference(TalkReference(classId, TalkDataHandle(|old(allocator.data)|))))
    ensures messageId != ids.newMessage ==>
      && r == ErrorContinuation(MessageNotSupported(messageId))
      && allocator.data == old(allocator.data)
      && unchanged(registry)
    ensures context.callbacks == old(context.callbacks)
    ensures context.counts == AdjustAll(old(context.counts), context.callbacks, ReferencesOfAll(args), -1)
  {
    if messageId == ids.newMessage {
      var cellBlockClass := registry.Create(CellBlockClassDefinition);
      var scriptClass := TalkScriptClass(cellBlockClass, None, None, []);
      var handle := allocator.Store(scriptClass);
      r := Ready(Reference(TalkReference(classId, handle)));
    } else {
      r := ErrorContinuation(MessageNotSupported(messageId));
    }
    context.ReleaseAll(args);
  }

  /**
   * `subclass` (lines 81-107), sent to `parent`, whose stored data is `superclass`: the parent
   * is retained once, `new` makes a fresh script class, and that class's superclass id and
   * superclass reference are set to the parent's cell-block class and the parent. The result is
   * a new object of the parent's class, different from the parent.
   */
  method Subclass(ids: ScriptMessageIds, parent: TalkReference,
                  allocator: ScriptClassAllocator, registry: ClassRegistry, context: TalkContext) returns (r: TalkReference)
    requires registry.Valid()
    requires parent.handle.id < |allocator.data|
    modifies allocator, registry, context
    ensures registry.Valid()
    ensures r == TalkReference(parent.classId, TalkDataHandle(|old(allocator.data)|))
    ensures r != parent
    ensures registry.nextClassId == old(registry.nextClassId) + 1
    ensures registry.CreatedOne(old(registry.nextClassId), old(registry.definitions), old(registry.callbacks),
                            old(registry.localCallbacks), old(registry.dataReaders), CellBlockClassDefinition)
    ensures registry.Definition(TalkClass(old(registry.nextClassId)), CellBlockClassDefinition.definitionType) == Some(CellBlockClassDefinition)
    ensures |allocator.data| == |old(allocator.data)| + 1
    ensures allocator.data[..|old(allocator.data)|] == old(allocator.data)
    ensures allocator.data[r.handle.id] == TalkScriptClass(
      TalkClass(old(registry.nextClassId)), Some(old(allocator.data)[parent.handle.id].classId), Some(parent), [])
    ensures context.callbacks == old(context.callbacks)
    ensures context.counts == Adjust(old(context.counts), context.callbacks, parent, 1)
  {
    var superclass := allocator.data[parent.handle.id];
    var newSuperclassId := superclass.classId;
    var parentForSuperclass := parent;
    var retained := context.CloneReference(parent);
    var created := SendClassMessage(ids, ids.newMessage, [], parent.classId, allocator, registry, context);
    var newClassReference := created.value.reference;
    var scriptClass := allocator.data[newClassReference.handle.id];
    allocator.data := allocator.data[newClassReference.handle.id := scriptClass.(
      superclassId := Some(newSuperclassId),
      superclassScriptClass := Some(parentForSuperclass))];
    r := newClassReference;
  }

  /**
   * `TalkScriptClassClass::send_instance_message` (lines 156-177): `subclass` makes a subclass
   * of the receiving object; every other message, including the three declared but unfinished
   * ones, is not supported and stores nothing. The owned arguments are dropped, and so
   * released, when the call returns: before the continuation that `subclass` returns runs and
   * retains the parent.
   */
  method SendInstanceMessage(ids: ScriptMessageIds, messageId: SignatureId, args: seq<TalkValue>, reference: TalkReference,
                             allocator: ScriptClassAllocator, registry: ClassRegistry, context: TalkContext) returns (r: TalkContinuation)
    requires registry.Valid()
    requires reference.handle.id < |allocator.data|
    modifies allocator, registry, context
    ensures registry.Valid()
    ensures context.callbacks == old(context.callbacks)
    ensures messageId == ids.subclass ==>
      && r.Ready? && r.value.Reference?
      && r.value.reference.classId == reference.classId && r.value.reference != reference
      && r.value.reference.handle.id == |old(allocator.data)|
      && registry.nextClassId == old(registry.nextClassId) + 1
      && registry.CreatedOne(old(registry.nextClassId), old(registry.definitions), old(registry.callbacks),
           old(registry.localCallbacks), old(registry.dataReaders), CellBlockClassDefinition)
      && registry.Definition(TalkClass(old(registry.nextClassId)), CellBlockClassDefinition.definitionType) == Some(CellBlockClassDefinition)
      && |allocator.data| == |old(allocator.data)| + 1
      && allocator.data[..|old(allocator.data)|] == old(allocator.data)
      && allocator.data[|old(allocator.data)|] == TalkScriptClass(
           TalkClass(old(registry.nextClassId)), Some(old(allocator.data)[reference.handle.id].classId), Some(reference), [])
      && context.counts == Adjust(AdjustAll(old(context.counts), context.callbacks, ReferencesOfAll(args), -1), context.callbacks, reference, 1)
    ensures messageId != ids.subclass ==>
      && r == ErrorContinuation(MessageNotSupported(messageId))
      && allocator.data == old(allocator.data)
      && context.counts == AdjustAll(old(context.counts), context.callbacks, ReferencesOfAll(args), -1)
      && unchanged(registry)
  {
    context.ReleaseAll(args);
    if messageId == ids.subclass {
      var created := Subclass(ids, reference, allocator, registry, context);
      r := Ready(Reference(created));
    } else {
      r := ErrorContinuation(MessageNotSupported(messageId));
    }
  }

  /** The counts after releasing a script class (lines 67-73): its superclass reference, if it has one, loses one count. */
  function ReleaseScriptClassCounts(s: TalkScriptClass, counts: map<TalkReference, int>, callbacks: set<TalkClass>): map<TalkReference, int>
  {
    match s.superclassScriptClass
    case Some(superclass) => Adjust(counts, callbacks, superclass, -1)
    case None => counts
  }

  /** `TalkReleasable for TalkScriptClass` (lines 67-73). */
  method ReleaseScriptClass(s: TalkScriptClass, context: TalkContext)
    modifies context
    ensures context.callbacks == old(context.callbacks)
    ensures context.counts == ReleaseScriptClassCounts(s, old(context.counts), context.callbacks)
  {
    if s.superclassScriptClass.Some? {
      context.ReleaseReference(s.superclassScriptClass.value);
    }
  }

  /**
   * Releasing a script class releases its superclass at most once, only when it has one, and
   * no other reference; so the retain made by `subclass` is undone by releasing the subclass.
   */
  lemma ReleaseScriptClassOnce(s: TalkScriptClass, counts: map<TalkReference, int>, callbacks: set<TalkClass>, r: TalkReference)
    ensures s.superclassScriptClass == Some(r) && r.classId in callbacks ==>
      Count(ReleaseScriptClassCounts(s, counts, callbacks), r) == Count(counts, r) - 1
    ensures s.superclassScriptClass != Some(r) ==> Count(ReleaseScriptClassCounts(s, counts, callbacks), r) == Count(counts, r)
    ensures s.superclassScriptClass == Some(r) ==>
      Count(ReleaseScriptClassCounts(s, Adjust(counts, callbacks, r, 1), callbacks), r) == Count(counts, r)
  {
  }

  // ---------------------------------------------------------------------------------------
  // Cell-block classes

  /** `TalkCellBlock`: the number of a cell block, a `u32`. */
  datatype CellBlock = CellBlock(id: nat)

  /** `TalkCellBlock(handle.0 as _)`: the handle truncated to 32 bits. */
  function CellBlockOf(handle: TalkDataHandle): (c: CellBlock)
    ensures c.id < 0x1_0000_0000
    ensures handle.id < 0x1_0000_0000 ==> c.id == handle.id
  {
    CellBlock(handle.id % 0x1_0000_0000)
  }

  /** Two handles name the same cell block exactly when they agree in their low 32 bits. */
  lemma CellBlockOfAliases(a: TalkDataHandle, b: TalkDataHandle)
    ensures CellBlockOf(a) == CellBlockOf(b) <==> a.id % 0x1_0000_0000 == b.id % 0x1_0000_0000
  {
  }

  /**
   * `TalkCellBlockClass::send_class_message` and `send_instance_message` (lines 197-206): every
   * message is rejected, and the owned arguments are dropped, which releases each of them.
   */
  method CellBlockSendMessage(messageId: SignatureId, args: seq<TalkValue>, context: TalkContext) returns (r: TalkContinuation)
    modifies context
    ensures r.Ready? && r.value == TalkValue.Error(MessageNotSupported(messageId))
    ensures context.callbacks == old(context.callbacks)
    ensures context.counts == AdjustAll(old(context.counts), context.callbacks, ReferencesOfAll(args), -1)
  {
    r := ErrorContinuation(MessageNotSupported(messageId));
    context.ReleaseAll(args);
  }

  /** The retain counts the context keeps for cell blocks. */
  class CellBlockCounts {
    var retained: map<CellBlock, int>

    constructor ()
      ensures retained == map[]
    {
      retained := map[];
    }

    /** `retain_cell_block`: one count more. */
    method Retain(c: CellBlock)
      modifies this
      ensures retained == old(retained)[c := (if c in old(retained) then old(retained)[c] else 0) + 1]
    {
      retained := retained[c := (if c in retained then retained[c] else 0) + 1];
    }

    /** `release_cell_block`: one count less. */
    method Release(c: CellBlock)
      modifies this
      ensures retained == old(retained)[c := (if c in old(retained) then old(retained)[c] else 0) - 1]
    {
      retained := retained[c := (if c in retained then retained[c] else 0) - 1];
    }
  }

  /** `TalkCellBlockAllocator` (lines 62-65, 209-240). */
  class CellBlockAllocator {
    var tmpCellBlock: CellBlock

    /** `create_allocator` (lines 190-192): the temporary cell block starts as block 0. */
    constructor ()
      ensures tmpCellBlock == CellBlock(0)
    {
      tmpCellBlock := CellBlock(0);
    }

    /** `retrieve` (lines 217-221): the cell block of the handle, kept in the temporary slot. */
    method Retrieve(handle: TalkDataHandle) returns (c: CellBlock)
      modifies this
      ensures c == CellBlockOf(handle) && tmpCellBlock == c
    {
      tmpCellBlock := CellBlock(handle.id % 0x1_0000_0000);
      c := tmpCellBlock;
    }

    /** `add_reference` (lines 227-230): retains the handle's cell block. */
    method AddReference(handle: TalkDataHandle, counts: CellBlockCounts)
      modifies counts
      ensures counts.retained == old(counts.retained)[CellBlockOf(handle) :=
        (if CellBlockOf(handle) in old(counts.retained) then old(counts.retained)[CellBlockOf(handle)] else 0) + 1]
    {
      counts.Retain(CellBlock(handle.id % 0x1_0000_0000));
    }

    /** `remove_reference` (lines 236-239): releases the handle's cell block. */
    method RemoveReference(handle: TalkDataHandle, counts: CellBlockCounts)
      modifies counts
      ensures counts.retained == old(counts.retained)[CellBlockOf(handle) :=
        (if CellBlockOf(handle) in old(counts.retained) then old(counts.retained)[CellBlockOf(handle)] else 0) - 1]
    {
      counts.Release(CellBlock(handle.id % 0x1_0000_0000));
    }
  }
}
