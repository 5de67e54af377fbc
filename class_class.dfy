/**
 * The class of classes (src/flotalk/standard_classes/class_class.rs).
 *
 * The class object of a class `c` is a reference to `CLASS_CLASS` whose data handle is `c`'s
 * id. `CLASS_CLASS` is created lazily by `TalkClass::create`; here it is a parameter. The
 * deferred continuations the file builds are the `SendToClass` and `ClassObjectOf` variants,
 * and `RunClassObject` is what the closure of `class_object` does when it runs.
 */
module ClassClasses {
  import opened TalkValues
  import opened Releasables

  /** `class_object_in_context` (lines 91-93): a reference to the class class, with the class id as its handle. */
  function ClassObjectInContext(classClass: TalkClass, c: TalkClass): (r: TalkReference)
    ensures r.classId == classClass && r.handle.id == c.id
  {
    TalkReference(classClass, TalkDataHandle(c.id))
  }

  /** `class_object` (lines 98-101): a continuation that will produce the class object. */
  function ClassObject(c: TalkClass): (k: TalkContinuation)
    ensures k.ClassObjectOf? && k.classToRead == c
  {
    ClassObjectOf(c)
  }

  /** Running a `ClassObjectOf` continuation (the closure at line 100); any other continuation is left as it is. */
  function RunClassObject(classClass: TalkClass, k: TalkContinuation): (r: TalkContinuation)
    ensures k.ClassObjectOf? ==>
      && r.Ready? && r.value.Reference?
      && r.value.reference.classId == classClass && r.value.reference.handle.id == k.classToRead.id
    ensures !k.ClassObjectOf? ==> r == k
  {
    match k
    case ClassObjectOf(c) => Ready(Reference(ClassObjectInContext(classClass, c)))
    case _ => k
  }

  /** `class_object` yields the same reference as `class_object_in_context`. */
  lemma ClassObjectAgrees(classClass: TalkClass, c: TalkClass)
    ensures RunClassObject(classClass, ClassObject(c)) == Ready(Reference(ClassObjectInContext(classClass, c)))
  {
  }

  /**
   * `TalkClassClass::send_class_message` (lines 43-45): no class message is supported, and the
   * owned arguments are dropped, which releases each of them.
   */
  method SendClassMessage(messageId: SignatureId, args: seq<TalkValue>, classId: TalkClass, context: TalkContext) returns (r: TalkContinuation)
    modifies context
    ensures r == ErrorContinuation(MessageNotSupported(messageId))
    ensures context.callbacks == old(context.callbacks)
    ensures context.counts == AdjustAll(old(context.counts), context.callbacks, ReferencesOfAll(args), -1)
  {
    r := ErrorContinuation(MessageNotSupported(messageId));
    context.ReleaseAll(args);
  }

  /**
   * `TalkClassClass::send_instance_message` (lines 47-62): the message is re-sent to the class
   * named by the reference's data handle, as a unary message when there are no arguments and
   * with the same arguments otherwise. The arguments are leaked into the new message, not
   * released, so no count changes.
   */
  function SendInstanceMessage(messageId: SignatureId, args: seq<TalkValue>, reference: TalkReference): (r: TalkContinuation)
    ensures r.SendToClass? && r.target == TalkClass(reference.handle.id)
    ensures SignatureIdOf(r.message) == messageId && ToArguments(r.message) == args
    ensures r.message.Unary? <==> |args| == 0
  {
    var talkClass := TalkClass(reference.handle.id);
    if |args| == 0 then SendToClass(talkClass, TalkMessage.Unary(messageId))
    else SendToClass(talkClass, WithArguments(messageId, args))
  }

  /**
   * Round trip: an instance message sent to the class object of `c` is re-sent to `c` itself,
   * with the same signature and arguments.
   */
  lemma InstanceMessageReachesClass(classClass: TalkClass, c: TalkClass, messageId: SignatureId, args: seq<TalkValue>)
    ensures var r := SendInstanceMessage(messageId, args, ClassObjectInContext(classClass, c));
      && r.SendToClass? && r.target == c
      && SignatureIdOf(r.message) == messageId && ToArguments(r.message) == args
  {
  }

  /** A message is re-sent in the form it was sent in: `Unary(id)` stays unary, and arguments stay arguments. */
  lemma InstanceMessageKeepsForm(classClass: TalkClass, c: TalkClass, message: TalkMessage)
    requires message.WithArguments? ==> |message.args| > 0
    ensures SendInstanceMessage(message.id, ToArguments(message), ClassObjectInContext(classClass, c)) == SendToClass(c, message)
  {
  }
}
