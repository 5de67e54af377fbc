/**
 * Message dispatch tables (src/flotalk/dispatch_table.rs).
 *
 * A table maps signature ids to actions and has a fallback for every other message. Actions are
 * Dafny functions of the target's data and the message arguments; the context they also receive
 * is left out, and so are the reference counts of the arguments, which the actions own. The
 * builders take the table by value and return the new table, so the table is a value here;
 * `with_messages_from` and `with_mapped_messages_from` keep the source's insertion loops.
 */
module DispatchTables {
  import opened Wrappers
  import opened TalkValues
  import opened Releasables

  /** The action for one message: the target's data and the arguments give a continuation. */
  type Action<!D> = (D, seq<TalkValue>) -> TalkContinuation

  /** The action for an unsupported message, which also receives the message's id. */
  type Fallback<!D> = (D, SignatureId, seq<TalkValue>) -> TalkContinuation

  /** `TalkMessageDispatchTable<TDataType>` */
  datatype DispatchTable<!D> = DispatchTable(actions: map<SignatureId, Action<D>>, notSupported: Fallback<D>)

  /** The default fallback: a `MessageNotSupported` error for the message's id. */
  function NotSupportedError<D>(data: D, id: SignatureId, args: seq<TalkValue>): (r: TalkContinuation)
    ensures r == ErrorContinuation(MessageNotSupported(id))
  {
    ErrorContinuation(MessageNotSupported(id))
  }

  /**
   * `empty` (lines 30-35): no actions, and a fallback that reports the message as not supported.
   * The source's fallback also drops, and so releases, its owned arguments; that release is
   * `NotSupportedAndRelease`, since fallbacks here take no context.
   */
  function Empty<D(!new)>(): (t: DispatchTable<D>)
    ensures t.actions == map[]
    ensures forall data, id, args :: t.notSupported(data, id, args) == ErrorContinuation(MessageNotSupported(id))
  {
    DispatchTable(map[], (data, id, args) => NotSupportedError(data, id, args))
  }

  /**
   * `define_message` (lines 123-125) and `with_message` (lines 40-47): the action for `id` is
   * set, replacing any earlier one, and nothing else changes.
   */
  function DefineMessage<D>(t: DispatchTable<D>, id: SignatureId, action: Action<D>): (r: DispatchTable<D>)
    ensures r.notSupported == t.notSupported
    ensures r.actions.Keys == t.actions.Keys + {id}
    ensures r.actions[id] == action
    ensures forall other :: other in t.actions && other != id ==> r.actions[other] == t.actions[other]
  {
    t.(actions := t.actions[id := action])
  }

  /** `with_not_supported` (lines 54-58): only the fallback is replaced. */
  function WithNotSupported<D>(t: DispatchTable<D>, notSupported: Fallback<D>): (r: DispatchTable<D>)
    ensures r.actions == t.actions && r.notSupported == notSupported
  {
    t.(notSupported := notSupported)
  }

  /**
   * `with_messages_from` (lines 63-69): every action of `source` is inserted into `t`, so the
   * result has the ids of both, and `source`'s action wins where both define one.
   */
  method WithMessagesFrom<D>(t: DispatchTable<D>, source: DispatchTable<D>) returns (r: DispatchTable<D>)
    ensures r.notSupported == t.notSupported
    ensures r.actions.Keys == t.actions.Keys + source.actions.Keys
    ensures forall id :: id in source.actions ==> r.actions[id] == source.actions[id]
    ensures forall id :: id in t.actions && id !in source.actions ==> r.actions[id] == t.actions[id]
  {
    r := t;
    var remaining := source.actions.Keys;
    while remaining != {}
      invariant remaining <= source.actions.Keys
      invariant r.notSupported == t.notSupported
      invariant r.actions.Keys == t.actions.Keys + (source.actions.Keys - remaining)
      invariant forall id :: id in source.actions && id !in remaining ==> r.actions[id] == source.actions[id]
      invariant forall id :: id in t.actions && id !in source.actions ==> r.actions[id] == t.actions[id]
      invariant forall id :: id in t.actions && id in remaining ==> r.actions[id] == t.actions[id]
      decreases remaining
    {
      var id :| id in remaining;
      r := r.(actions := r.actions[id := source.actions[id]]);
      remaining := remaining - {id};
    }
  }

  /**
   * `with_mapped_messages_from` (lines 74-88): every action of `source`, a table over another
   * data type, is inserted into `t` after converting the target's data with `mapFn`.
   */
  method WithMappedMessagesFrom<D, S>(t: DispatchTable<D>, source: DispatchTable<S>, mapFn: D -> S) returns (r: DispatchTable<D>)
    ensures r.notSupported == t.notSupported
    ensures r.actions.Keys == t.actions.Keys + source.actions.Keys
    ensures forall id, data, args :: id in source.actions ==> r.actions[id](data, args) == source.actions[id](mapFn(data), args)
    ensures forall id :: id in t.actions && id !in source.actions ==> r.actions[id] == t.actions[id]
  {
    r := t;
    var remaining := source.actions.Keys;
    while remaining != {}
      invariant remaining <= source.actions.Keys
      invariant r.notSupported == t.notSupported
      invariant r.actions.Keys == t.actions.Keys + (source.actions.Keys - remaining)
      invariant forall id, data, args :: id in source.actions && id !in remaining ==> r.actions[id](data, args) == source.actions[id](mapFn(data), args)
      invariant forall id :: id in t.actions && id !in source.actions ==> r.actions[id] == t.actions[id]
      decreases remaining
    {
      var id :| id in remaining;
      var action := source.actions[id];
      r := r.(actions := r.actions[id := (data, args) => action(mapFn(data), args)]);
      remaining := remaining - {id};
    }
  }

  /** `send_message` (lines 94-103): the action for the message's id if there is one, otherwise the fallback. */
  function SendMessage<D>(t: DispatchTable<D>, target: D, message: TalkMessage): (r: TalkContinuation)
    ensures SignatureIdOf(message) in t.actions ==> r == t.actions[SignatureIdOf(message)](target, ToArguments(message))
    ensures SignatureIdOf(message) !in t.actions ==> r == t.notSupported(target, SignatureIdOf(message), ToArguments(message))
  {
    var id := SignatureIdOf(message);
    if id in t.actions then t.actions[id](target, ToArguments(message))
    else t.notSupported(target, id, ToArguments(message))
  }

  /** `try_send_message` (lines 109-118): the action's result, or `None` when no action is defined. */
  function TrySendMessage<D>(t: DispatchTable<D>, target: D, message: TalkMessage): (r: Option<TalkContinuation>)
    ensures r.None? <==> SignatureIdOf(message) !in t.actions
    ensures r.Some? ==> r.value == SendMessage(t, target, message)
  {
    var id := SignatureIdOf(message);
    if id in t.actions then Some(t.actions[id](target, ToArguments(message))) else None
  }

  /** Every message sent to the empty table is reported as not supported. */
  lemma SendToEmpty<D(!new)>(target: D, message: TalkMessage)
    ensures SendMessage(Empty<D>(), target, message) == ErrorContinuation(MessageNotSupported(message.id))
  {
  }

  /**
   * After defining an action for `id`, a message with that id runs the new action with the
   * message's arguments; every other message is dispatched as before.
   */
  lemma SendAfterDefine<D>(t: DispatchTable<D>, id: SignatureId, action: Action<D>, target: D, message: TalkMessage)
    ensures message.id == id ==> SendMessage(DefineMessage(t, id, action), target, message) == action(target, ToArguments(message))
    ensures message.id != id ==> SendMessage(DefineMessage(t, id, action), target, message) == SendMessage(t, target, message)
  {
  }

  /**
   * Replacing the fallback changes what happens to unsupported messages only: a message with an
   * action is dispatched as before, and any other goes to the new fallback with its id.
   */
  lemma SendAfterWithNotSupported<D>(t: DispatchTable<D>, notSupported: Fallback<D>, target: D, message: TalkMessage)
    ensures message.id in t.actions ==> SendMessage(WithNotSupported(t, notSupported), target, message) == SendMessage(t, target, message)
    ensures message.id !in t.actions ==> SendMessage(WithNotSupported(t, notSupported), target, message) == notSupported(target, message.id, ToArguments(message))
  {
  }

  /**
   * The default fallback of `empty` (line 33) as it runs: it receives the arguments as an owned
   * collection and drops it on return, so each argument is released once; the result is the
   * `MessageNotSupported` error for the message's id.
   */
  method NotSupportedAndRelease(id: SignatureId, args: seq<TalkValue>, context: TalkContext) returns (r: TalkContinuation)
    modifies context
    ensures r == ErrorContinuation(MessageNotSupported(id))
    ensures context.callbacks == old(context.callbacks)
    ensures context.counts == AdjustAll(old(context.counts), context.callbacks, ReferencesOfAll(args), -1)
  {
    var owned := new TalkOwned(Values(args), context);
    r := ErrorContinuation(MessageNotSupported(id));
    owned.Drop();
  }

  /**
   * `send_message_and_release` (lines 133-140): the message is sent to the reference's data
   * handle, and the reference is released once afterwards. The counts state only that release:
   * what the action or fallback releases of the arguments it owns is not tracked for a general
   * table (see `SendToEmptyAndRelease` for the empty one).
   */
  method SendMessageAndRelease(t: DispatchTable<TalkDataHandle>, target: TalkReference, message: TalkMessage, context: TalkContext)
    returns (r: TalkContinuation)
    modifies context
    ensures r == SendMessage(t, target.handle, message)
    ensures context.callbacks == old(context.callbacks)
    ensures context.counts == Adjust(old(context.counts), context.callbacks, target, -1)
  {
    var owned := new TalkOwned(Ref(target), context);
    r := SendMessage(t, owned.Deref().reference.handle, message);
    owned.Drop();
    assert [target][..0] == [];
  }

  /**
   * `send_message_and_release` on a table built by `empty`: the default fallback reports the
   * message as not supported and releases its arguments, then the target is released.
   */
  method SendToEmptyAndRelease(target: TalkReference, message: TalkMessage, context: TalkContext) returns (r: TalkContinuation)
    modifies context
    ensures r == SendMessage(Empty<TalkDataHandle>(), target.handle, message)
    ensures r == ErrorContinuation(MessageNotSupported(message.id))
    ensures context.callbacks == old(context.callbacks)
    ensures context.counts == Adjust(AdjustAll(old(context.counts), context.callbacks, ReferencesOfAll(ToArguments(message)), -1),
                                     context.callbacks, target, -1)
  {
    var owned := new TalkOwned(Ref(target), context);
    r := NotSupportedAndRelease(SignatureIdOf(message), ToArguments(message), context);
    owned.Drop();
    assert [target][..0] == [];
  }

  /**
   * After a send to the empty table, every tracked reference has lost one count for each time
   * it occurs among the message's arguments and once more if it is the target; untracked
   * references keep their counts.
   */
  lemma SendToEmptyReleaseCount(counts: map<TalkReference, int>, callbacks: set<TalkClass>, target: TalkReference,
                                message: TalkMessage, r: TalkReference)
    ensures var after := Adjust(AdjustAll(counts, callbacks, ReferencesOfAll(ToArguments(message)), -1), callbacks, target, -1);
      && (r.classId in callbacks ==>
            Count(after, r) == Count(counts, r) - Occurrences(ReferencesOfAll(ToArguments(message)) + [target], r))
      && (r.classId !in callbacks ==> Count(after, r) == Count(counts, r))
  {
    var refs := ReferencesOfAll(ToArguments(message));
    AdjustAllCount(counts, callbacks, refs, -1, r);
    AdjustCount(AdjustAll(counts, callbacks, refs, -1), callbacks, target, -1, r);
    assert (refs + [target])[..|refs|] == refs;
  }
}
