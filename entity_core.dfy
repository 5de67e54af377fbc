/**
 * The data stored for an entity (src/scene/entity_core.rs).
 *
 * The channel is kept in an `Any` box; recovering it with a pair of type parameters succeeds
 * only when those are the types it was created with. Types are `TypeTag`s. The job queue is
 * created by the scheduler, so it is a parameter of `New`.
 */
module EntityCores {
  import opened Wrappers
  import opened SceneTypes

  /** A `SimpleEntityChannel<TMessage, TResponse>`; `key` stands for the channel's shared state. */
  datatype SimpleEntityChannel = SimpleEntityChannel(messageType: TypeTag, responseType: TypeTag, key: nat)

  /** An `Arc<JobQueue>`: clones of one `Arc` share the same queue. */
  datatype JobQueue = JobQueue(key: nat)

  /** `EntityCore` (lines 11-20); the fields are set once, at construction. */
  datatype EntityCore = EntityCore(channel: SimpleEntityChannel, jobQueue: JobQueue, nativeMessageType: TypeTag)

  /** `EntityCore::new` (lines 26-36): the native message type is the channel's message type. */
  function New(channel: SimpleEntityChannel, queue: JobQueue): (core: EntityCore)
    ensures core.channel == channel && core.jobQueue == queue
    ensures core.nativeMessageType == channel.messageType
  {
    EntityCore(channel, queue, channel.messageType)
  }

  /** `message_type_id` (lines 41-43). */
  function MessageTypeId(core: EntityCore): (t: TypeTag)
    ensures t == core.nativeMessageType
  {
    core.nativeMessageType
  }

  /** `queue` (lines 51-53): a clone of the stored `Arc`, so always the same queue. */
  function Queue(core: EntityCore): (q: JobQueue)
    ensures q == core.jobQueue
  {
    core.jobQueue
  }

  /**
   * `attach_channel` (lines 58-68): the stored channel, cloned, when it has exactly the
   * requested message and response types; nothing otherwise.
   */
  function AttachChannel(core: EntityCore, messageType: TypeTag, responseType: TypeTag): (r: Option<SimpleEntityChannel>)
    ensures r.Some? <==> core.channel.messageType == messageType && core.channel.responseType == responseType
    ensures r.Some? ==> r.value == core.channel
  {
    if core.channel.messageType == messageType && core.channel.responseType == responseType then Some(core.channel)
    else None
  }

  /** An entity created with a channel gives that channel back when asked for its own types, and its message type is the native one. */
  lemma NewThenAttach(channel: SimpleEntityChannel, queue: JobQueue)
    ensures AttachChannel(New(channel, queue), channel.messageType, channel.responseType) == Some(channel)
    ensures MessageTypeId(New(channel, queue)) == channel.messageType
    ensures Queue(New(channel, queue)) == queue
  {
  }

  /** Only the native message type can attach: a channel for any other message type is refused. */
  lemma AttachOtherMessageType(core: EntityCore, messageType: TypeTag, responseType: TypeTag)
    requires core.nativeMessageType == core.channel.messageType
    requires messageType != MessageTypeId(core)
    ensures AttachChannel(core, messageType, responseType) == None
  {
  }
}
