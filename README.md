# flo_scene core, modelled in Dafny

This project models the small pieces of sequential logic around the flo_scene scene and the
FloTalk runtime, and proves what each piece promises. The pieces are:

- **Interning registries.** Subprogram names (`scene/src/subprogram_id.rs`) and message signatures
  (`src/flotalk/message.rs`) get dense integer ids. The map and the vector are kept inverse to each other.
- **Stream plumbing.** The registry of per-message-type stream functions, and the output-sink target
  state machine (`Input`, `CloseWhenDropped`, `Discard`, `Disconnected`) (`scene/src/stream_id.rs`).
- **Event subscribers.** After a broadcast, the subscribers whose send failed are dropped
  (`scene/src/programs/subscription.rs`).
- **Serialization registry.** The type-name table, the serializer constructor table, the filter
  caches and the serializer and deserializer filters (`scene/src/serialization.rs`).
- **FloTalk message dispatch tables** (`src/flotalk/dispatch_table.rs`).
- **The class registry** (`flotalk/src/class.rs`), covering:
  - class ids;
  - the definition and callback vectors padded with `None`;
  - the thread-local callback cache;
  - the nested data-reader map.
- **The class of classes and the script and cell-block classes**
  (`src/flotalk/standard_classes/`).
- **Conversions between values and `value:` messages** (`flotalk/src/message_converters.rs`).
- **Reference counting through `TalkContext`, and `TalkOwned`** (`src/flotalk/releasable.rs`).
- **The `pipe` crate's command requests and response display**
  (`pipe/src/commands/command_stream.rs`).
- **Recipes** (`src/ergonomics/recipe.rs`).
- **The entity core's type-checked channel** (`src/scene/entity_core.rs`).
- **The error enum conversions** (`src/error/`).

Rust's `TypeId` and `Any` downcasts are modelled as `SceneTypes.TypeTag` values compared for equality.

State that the source keeps in process-wide statics or thread-locals is modelled as a class whose
methods reassign `seq` or `map` fields. Each method is tied to a pure function of the old state,
and lemmas about that function state the promised property. This applies to:

- `NAMES_FOR_IDS`;
- the signature maps;
- `STREAM_TYPE_FUNCTIONS`;
- the serializer tables;
- `CLASS_DEFINITIONS` and `CLASS_CALLBACKS`;
- `TalkContext`.

Closures stored in tables are Dafny arrows. Serde, the scheduler, the clock, random GUIDs and the
scene are opaque values or function parameters.

Each of the following is modelled as a sequence:

- **Streams.** A stream is the sequence of what it yields.
- **Subscriber sends.** The outcomes of the subscribers' sends are a `seq<bool>` parameter.
- **The response stream in `display_command_responses`.** It is the sequence of what the
  awaits and polls see, as `Item(response)` or `Pending`.

Files: `wrappers.dfy` (Option, Result), `scene_types.dfy`, `subprogram_id.dfy`, `stream_id.dfy`,
`subscription.dfy`, `serialization.dfy`, `talk_values.dfy`, `talk_message.dfy`, `releasable.dfy`,
`dispatch_table.dfy`, `message_converters.dfy`, `talk_class.dfy`, `class_class.dfy`,
`script_class.dfy`, `command_stream.dfy`, `recipe.dfy`, `entity_core.dfy`,
`entity_channel_error.dfy`, `scene_context_error.dfy`.

## Model

| member | source | states |
|---|---|---|
| SubProgramIds.IndexOfDistinct | scene/src/subprogram_id.rs:14-37 | in a duplicate-free name vector, the name at index i is found at index i |
| SubProgramIds.InternIdempotent | scene/src/subprogram_id.rs:15-19 | interning a name already present returns its id and leaves the vector unchanged |
| SubProgramIds.InternFreshIsDense | scene/src/subprogram_id.rs:22-29 | a new name gets the previous length as id, is pushed at the end, and earlier names keep their ids |
| SubProgramIds.InternRoundTrip | scene/src/subprogram_id.rs:14-41 | `name_for_id(id_for_name(n)) == Some(n)` |
| SubProgramIds.InternKeepsDistinct | scene/src/subprogram_id.rs:14-37 | interning keeps the vector free of duplicates |
| SubProgramIds.InternInjective | scene/src/subprogram_id.rs:14-37 | two names interned in turn get equal ids exactly when they are equal |
| SubProgramIds.NameForIndexIsLookup | scene/src/subprogram_id.rs:39-41 | `name_for_id` is `None` exactly at or beyond the number of names, and the name stored at that index otherwise |
| SubProgramIds.DeserializeSerialize | scene/src/subprogram_id.rs:138-179 | deserialising the serialised name of an id gives the same id and interns nothing |
| SubProgramIds.SubProgramNames.constructor | scene/src/subprogram_id.rs:14-37 | the tables start empty and inverse to each other |
| SubProgramIds.SubProgramNames.ValidIsDistinct | scene/src/subprogram_id.rs:14-37 | inverse tables hold no duplicate name |
| SubProgramIds.SubProgramNames.IdForName | scene/src/subprogram_id.rs:14-37 | the id and the new vector are those of `Intern` on the old vector, and the tables stay inverse |
| SubProgramIds.SubProgramNames.NameForId | scene/src/subprogram_id.rs:39-41 | a name exactly for ids below the number of interned names, and that name maps back to the same id |
| SubProgramIds.SubProgramNames.Called | scene/src/subprogram_id.rs:95-97 | a `Named` id carrying the interned id of the name |
| SubProgramIds.SubProgramNames.SerializeNameId | scene/src/subprogram_id.rs:138-146 | writes the name the id stands for |
| SubProgramIds.SubProgramNames.DeserializeNameId | scene/src/subprogram_id.rs:149-179 | a read failure is passed on unchanged; a name read is interned as `id_for_name` does |
| SubProgramIds.NewSubProgramId | scene/src/subprogram_id.rs:87-89 | a `Guid` id holding the given GUID |
| SubProgramIds.WithCommandId | scene/src/subprogram_id.rs:102-110 | Named/NamedTask give NamedTask and Guid/GuidTask give GuidTask, keeping the name or GUID and setting the serial |
| SubProgramIds.WithCommandIdTwice | scene/src/subprogram_id.rs:102-110 | replacing the serial twice equals replacing it once with the second serial |
| SubProgramIds.StaticSubProgramId.constructor | scene/src/subprogram_id.rs:118-120 | the static id starts with an empty cell |
| SubProgramIds.StaticSubProgramId.Deref | scene/src/subprogram_id.rs:127-134 | every call gives `SubProgramId::called(name)`; only the first one interns the name |
| StreamIds.InputStreamCore.Close | scene/src/stream_id.rs:119-124 | the stream becomes closed and its waker is taken and returned |
| StreamIds.DowncastSink | scene/src/stream_id.rs:72-73 | the sink is returned exactly when it holds the requested message type |
| StreamIds.DowncastStream | scene/src/stream_id.rs:72-73 | the input stream is returned exactly when it holds the requested message type |
| StreamIds.ConnectOutputToInput | scene/src/stream_id.rs:70-89 | on mismatched types `UnexpectedConnectionType` and nothing changes; otherwise the target becomes `Input` or `CloseWhenDropped` as asked, the old waker is returned and `when_target_changed` is empty |
| StreamIds.Retarget | scene/src/stream_id.rs:91-117 | on a type mismatch, an error and nothing changes; otherwise the given target is set and the waker taken |
| StreamIds.ConnectOutputToDiscard | scene/src/stream_id.rs:91-103 | the target becomes `Discard` and the waker is taken; a wrong type changes nothing |
| StreamIds.DisconnectOutput | scene/src/stream_id.rs:105-117 | the target becomes `Disconnected` and the waker is taken; a wrong type changes nothing |
| StreamIds.CloseInput | scene/src/stream_id.rs:119-124 | closes an input stream of the right type; a wrong type gives `UnexpectedConnectionType` |
| StreamIds.StreamTypeRegistry.Add | scene/src/stream_id.rs:131-140 | first wins: an existing entry is never replaced; a missing one is added for its own type |
| StreamIds.StreamTypeRegistry.Lookup | scene/src/stream_id.rs:145-172 | the functions registered for the type, or `None` |
| StreamIds.StreamTypeRegistry.WithMessageType | scene/src/stream_id.rs:179-191 | registers the type and returns a `MessageType` id of that type |
| StreamIds.StreamTypeRegistry.ForTarget | scene/src/stream_id.rs:196-208 | registers the type and returns a `Target(target)` id of that type |
| StreamIds.StreamTypeRegistry.StreamConnectOutputToInput | scene/src/stream_id.rs:237-247 | an unregistered type gives `UnexpectedConnectionType` and changes nothing; otherwise as `ConnectOutputToInput` |
| StreamIds.StreamTypeRegistry.StreamConnectOutputToDiscard | scene/src/stream_id.rs:254-264 | an unregistered type gives `UnexpectedConnectionType`; otherwise as `ConnectOutputToDiscard` |
| StreamIds.StreamTypeRegistry.StreamDisconnectOutput | scene/src/stream_id.rs:271-281 | an unregistered type gives `UnexpectedConnectionType`; otherwise as `DisconnectOutput` |
| StreamIds.StreamTypeRegistry.StreamCloseInput | scene/src/stream_id.rs:283-293 | an unregistered type gives `UnexpectedConnectionType`; otherwise as `CloseInput` |
| Subscriptions.SuccessIndices | scene/src/programs/subscription.rs:67-80 | the indices of the successful sends, strictly increasing, each a success and every success listed |
| Subscriptions.SurvivorsAreSuccesses | scene/src/programs/subscription.rs:67-80 | the survivors are exactly the receivers at successful indices, in their original order |
| Subscriptions.SurvivorsLength | scene/src/programs/subscription.rs:72-80 | one survivor per successful send |
| Subscriptions.SurvivorAt | scene/src/programs/subscription.rs:72-80 | the k-th survivor is the receiver at the k-th successful index |
| Subscriptions.SurvivorsAllOrNothing | scene/src/programs/subscription.rs:67-83 | all sends succeeding keeps everybody; all failing removes everybody |
| Subscriptions.EventSubscribers.constructor | scene/src/programs/subscription.rs:35-39 | no receivers |
| Subscriptions.EventSubscribers.Subscribe | scene/src/programs/subscription.rs:44-50 | appends exactly one pair when a sink was created; otherwise unchanged |
| Subscriptions.EventSubscribers.Send | scene/src/programs/subscription.rs:57-84 | every receiver is offered the same message; the survivors are those whose send succeeded, in order; the result is true iff one succeeded |
| Serialization.SerializeStream | scene/src/serialization.rs:72-101 | one tagged output per message that serializes, in order, each tagged with the source type |
| Serialization.DeserializeStream | scene/src/serialization.rs:124-147 | messages with another type tag or failing to deserialize are dropped; the rest keep their order |
| Serialization.SerializeOne | scene/src/serialization.rs:89-95 | one output, the serialized value tagged with the source type, iff the message serializes; nothing otherwise |
| Serialization.DeserializeOne | scene/src/serialization.rs:136-142 | one output, the deserialized message, iff the tag is the filter's type and the value deserializes; nothing otherwise |
| Serialization.SerializeStreamAppend | scene/src/serialization.rs:72-101 | the serializer filter distributes over concatenation |
| Serialization.DeserializeStreamAppend | scene/src/serialization.rs:124-147 | the deserializer filter distributes over concatenation |
| Serialization.SerializeStreamTotal | scene/src/serialization.rs:88-97 | when every message serializes, the output has one entry per message, in order |
| Serialization.DeserializeStreamOtherType | scene/src/serialization.rs:134-142 | values tagged with another type never pass |
| Serialization.DeserializeSerializeStream | scene/src/serialization.rs:72-147 | when deserialize inverts serialize, the two filters give back every serializable message, in order |
| Serialization.RecordTypeNameFirstWins | scene/src/serialization.rs:198-208 | once a type has a name, no later different name replaces it |
| Serialization.RecordTypeNameErrors | scene/src/serialization.rs:199-207 | re-installing the same name succeeds and changes nothing; a different name is refused |
| Serialization.FilterForIsCached | scene/src/serialization.rs:264-300 | a second request gives the same handle and changes nothing; no converter and no cache gives an error |
| Serialization.FilterForFresh | scene/src/serialization.rs:285-299 | a newly created handle differs from every cached one |
| Serialization.SerializationRegistry.InstallSerializer | scene/src/serialization.rs:158-172 | stores the constructor, overwriting any earlier one for the same serializer type |
| Serialization.SerializationRegistry.InstallSerializableType | scene/src/serialization.rs:187-257 | a name clash is an error that changes nothing; a missing constructor fails with "Serializer has not been installed"; on success a serializer under (Msg, Ok) and a deserializer under (Ok, Msg) |
| Serialization.SerializationRegistry.SerializerFilter | scene/src/serialization.rs:264-300 | the result and the new caches are those of `FilterFor` |
| Serialization.SerializationRegistry.CacheFilters | scene/src/serialization.rs:321-377 | the cached pair for (message type, serializer) is reused, or two fresh handles are cached; the sink factory for (serialized type, name) is stored |
| Serialization.SerializationRegistry.InstallSerializers | scene/src/serialization.rs:309-384 | both filters are created and installed in order, the second not tried when the first fails |
| Serialization.SerializationRegistry.SendSerialized | scene/src/serialization.rs:392-409 | `TargetNotAvailable` when nothing is installed for (type, name) |
| Serialization.SerializationTypeName | scene/src/serialization.rs:416-418 | always `None` |
| Serialization.WithSerializationType | scene/src/serialization.rs:423-425 | always `None` |
| TalkMessages.EmptyTableIsInverse | src/flotalk/message.rs:92-117 | the empty signature tables are inverse to each other |
| TalkMessages.InternSignatureKeepsInverse | src/flotalk/message.rs:92-117 | interning keeps the id map and the signature map inverse |
| TalkMessages.InternSignatureIdempotent | src/flotalk/message.rs:95-97 | equal signatures always map to the same id, and a second call changes nothing |
| TalkMessages.InternSignatureFresh | src/flotalk/message.rs:102-109 | a new signature gets the counter, which moves on by one; earlier ids keep their signatures |
| TalkMessages.InternSignatureRoundTrip | src/flotalk/message.rs:112-113 | `id(s).to_signature() == s` |
| TalkMessages.InternSignatureInjective | src/flotalk/message.rs:102-113 | distinct signatures get distinct ids |
| TalkMessages.IsUnaryLen | src/flotalk/message.rs:173-188 | `is_unary` holds iff `Unary`; `len` is 0 for `Unary` and the symbol count otherwise |
| TalkMessages.IsUnary | src/flotalk/message.rs:173-178 | true exactly for a unary signature, which takes no arguments |
| TalkMessages.Len | src/flotalk/message.rs:183-188 | 0 for a unary signature, the number of keywords otherwise |
| TalkMessages.ArgumentsAreUnary | src/flotalk/message.rs:136-155 | false for no arguments or a first argument with a value; true only for one valueless argument |
| TalkMessages.Names | src/flotalk/message.rs:160-168 | one name per argument, in order |
| TalkMessages.FromExpressionArgumentsShape | src/flotalk/message.rs:160-168 | `Unary(name)` for one valueless argument, otherwise `Arguments` with the names in order |
| TalkMessages.SplitArguments | src/flotalk/message.rs:49-52 | symbols and values of equal length, in input order |
| TalkMessages.SignatureRegistry.constructor | src/flotalk/message.rs:92-117 | empty, inverse tables |
| TalkMessages.SignatureRegistry.Id | src/flotalk/message.rs:92-117 | the id and the new tables are those of `InternSignature` |
| TalkMessages.SignatureRegistry.ToSignature | src/flotalk/message.rs:195-197 | the signature recorded for the id |
| TalkMessages.SignatureRegistry.Signature | src/flotalk/message.rs:80-85 | the signature of the message's id |
| TalkMessages.SignatureRegistry.UnaryMessage | src/flotalk/message.rs:38-40 | a unary message whose id maps back to `Unary(symbol)` |
| TalkMessages.SignatureRegistry.WithArgumentsMessage | src/flotalk/message.rs:45-55 | the signature lists the keywords and the message carries the values, in order and of equal length |
| DispatchTables.Empty | src/flotalk/dispatch_table.rs:30-35 | no actions, and the fallback returns `MessageNotSupported(id)` |
| DispatchTables.SendMessage | src/flotalk/dispatch_table.rs:94-103 | the action registered for the message's signature id, given the message's arguments; with no action, the fallback given the id and the arguments |
| DispatchTables.DefineMessage | src/flotalk/dispatch_table.rs:123-125 | the action for exactly that id is inserted or replaced; other ids and the fallback unchanged |
| DispatchTables.WithNotSupported | src/flotalk/dispatch_table.rs:54-58 | only the fallback is replaced |
| DispatchTables.WithMessagesFrom | src/flotalk/dispatch_table.rs:63-69 | the union of ids, the source's actions winning on collisions |
| DispatchTables.WithMappedMessagesFrom | src/flotalk/dispatch_table.rs:74-88 | the source's ids are added, each action pre-composed with `map_fn` |
| DispatchTables.TrySendMessage | src/flotalk/dispatch_table.rs:109-118 | `None` iff no action is registered for the id; otherwise the action's result |
| DispatchTables.SendToEmpty | src/flotalk/dispatch_table.rs:30-35 | every message sent to the empty table is not supported |
| DispatchTables.SendAfterDefine | src/flotalk/dispatch_table.rs:94-103 | the defined id runs the new action; other ids dispatch as before |
| DispatchTables.SendAfterWithNotSupported | src/flotalk/dispatch_table.rs:94-103 | registered messages dispatch as before; others reach the new fallback with their id |
| DispatchTables.SendMessageAndRelease | src/flotalk/dispatch_table.rs:133-140 | sends to the reference's data handle, then releases the reference exactly once |
| DispatchTables.NotSupportedAndRelease | src/flotalk/dispatch_table.rs:33 | the default fallback returns `MessageNotSupported(id)` and releases each owned argument once |
| DispatchTables.SendToEmptyAndRelease | src/flotalk/dispatch_table.rs:133-140 | a send to the empty table is not supported; the arguments are released by the fallback, then the target once |
| DispatchTables.SendToEmptyReleaseCount | src/flotalk/dispatch_table.rs:133-140 | after that send, each tracked reference loses one count per occurrence among the arguments and the target; untracked ones keep their counts |
| Releasables.References | src/flotalk/releasable.rs:112-128 | a reference value holds itself; scalars hold nothing |
| Releasables.ReferencesOfAllAppend | src/flotalk/releasable.rs:161-163 | the references of a list grow by those of an appended value |
| Releasables.AdjustAllCount | src/flotalk/releasable.rs:136-152 | a reference's count changes by delta per occurrence when its class has callbacks, and not otherwise |
| Releasables.AdjustAllAppend | src/flotalk/releasable.rs:161-163 | releasing a concatenation releases the first part, then the second |
| Releasables.AdjustCount | src/flotalk/releasable.rs:136-152 | one adjustment changes only the adjusted reference's count, and only when its class has callbacks |
| Releasables.AdjustAllSingle | src/flotalk/releasable.rs:117 | adjusting a one-reference list is a single adjustment |
| Releasables.AdjustAllPrefix | src/flotalk/releasable.rs:161-163 | adjusting one more item's references extends the adjustment of the items before it |
| Releasables.CloneThenRelease | src/flotalk/releasable.rs:100-102 | clone then release leaves every count unchanged |
| Releasables.ReleaseReferenceValue | src/flotalk/releasable.rs:100-102 | releasing a reference value removes one count from it and changes no other |
| Releasables.TalkContext.constructor | src/flotalk/releasable.rs:146-152 | a context with the given callbacks and no counts |
| Releasables.TalkContext.CloneReference | src/flotalk/releasable.rs:146-152 | an identical reference, with one count added when its class has callbacks |
| Releasables.TalkContext.ReleaseReference | src/flotalk/releasable.rs:136-138 | one count removed |
| Releasables.TalkContext.CloneValue | src/flotalk/releasable.rs:112-128 | an equal value (scalars copied, arrays elementwise in order), each held reference gaining one count |
| Releasables.TalkContext.CloneAll | src/flotalk/releasable.rs:124 | equal items, cloned in iteration order, each held reference gaining one count |
| Releasables.TalkContext.ReleaseValue | src/flotalk/releasable.rs:100-102 | each held reference loses one count |
| Releasables.TalkContext.ReleaseAll | src/flotalk/releasable.rs:161-163 | every item released, in iteration order |
| Releasables.TalkOwned.constructor | src/flotalk/releasable.rs:47-52 | owns the value in the context; counts unchanged |
| Releasables.TalkOwned.Drop | src/flotalk/releasable.rs:60-62 | releases the value exactly once and leaves nothing owned |
| Releasables.TalkOwned.Clone | src/flotalk/releasable.rs:69-77 | a new owner of an equal value in the same context, each reference gaining one count |
| Releasables.TalkOwned.Deref | src/flotalk/releasable.rs:87-92 | the owned value |
| MessageConverters.SupportsDisjoint | flotalk/src/message_converters.rs:18-20 | `()` supports only `value` and the others only `value:`, so they never share a message |
| MessageConverters.SupportsMessage | flotalk/src/message_converters.rs:17-20 | `()` supports exactly the id of its own unary message; every other type exactly the id of `value:` |
| MessageConverters.ValueMessage | flotalk/src/message_converters.rs:62-65 | the `value:` message with the value as its one argument |
| MessageConverters.ReadArgument | flotalk/src/message_converters.rs:94-104 | the argument only for exactly one argument; otherwise `MessageNotSupported(signature)` |
| MessageConverters.UnitFromMessage | flotalk/src/message_converters.rs:22-28 | succeeds for any unary message, otherwise `MessageNotSupported` |
| MessageConverters.UnitToMessage | flotalk/src/message_converters.rs:30-32 | the unary message `value`, which `()::from_message` accepts |
| MessageConverters.BoolFromMessage | flotalk/src/message_converters.rs:111-116 | `Ok` exactly for one `Bool` argument, with its value; `NotABoolean` for another single argument; `MessageNotSupported` for any other shape |
| MessageConverters.CharFromMessage | flotalk/src/message_converters.rs:255-260 | `Ok` exactly for one `Character` argument, with its value; `NotACharacter` for another single argument; `MessageNotSupported` for any other shape |
| MessageConverters.StringFromMessage | flotalk/src/message_converters.rs:221-226 | `Ok` exactly for one `String` argument, with its text; `NotAString` for another single argument; `MessageNotSupported` for any other shape |
| MessageConverters.ErrorFromMessage | flotalk/src/message_converters.rs:272-277 | `Ok` exactly for one `Error` argument, with its error; `NotAnError` for another single argument; `MessageNotSupported` for any other shape |
| MessageConverters.NumberFromMessage | flotalk/src/message_converters.rs:200-205 | an `Int` or `Float` argument keeps its variant and value; `NotANumber` for another single argument; `MessageNotSupported` for any other shape |
| MessageConverters.NumberToMessage | flotalk/src/message_converters.rs:208-213 | a one-argument `value:` message that `TalkNumber::from_message` turns back into the same number |
| MessageConverters.I32FromMessage | flotalk/src/message_converters.rs:128-134 | an `Int` is kept modulo 2^32 (unchanged when it fits); a `Float` is rounded toward zero and clamped to the i32 range; `NotAnInteger` for another single argument; `MessageNotSupported` for any other shape |
| MessageConverters.I32ToMessage | flotalk/src/message_converters.rs:136-138 | a one-argument `value:` message that `i32::from_message` turns back into the same integer |
| MessageConverters.I64FromMessage | flotalk/src/message_converters.rs:146-152 | an `Int` as it is; a `Float` rounded toward zero and clamped to the i64 range; `NotAnInteger` for another single argument; `MessageNotSupported` for any other shape |
| MessageConverters.WrapI32 | flotalk/src/message_converters.rs:128-134 | the i32 congruent to the integer modulo 2^32 |
| MessageConverters.Truncate | flotalk/src/message_converters.rs:128-134 | the float's integer part, rounded toward zero |
| MessageConverters.Saturate | flotalk/src/message_converters.rs:128-134 | the value clamped to the target range |
| MessageConverters.WrapI32Widened | flotalk/src/message_converters.rs:128-138 | an i32 widened and narrowed back is unchanged |
| MessageConverters.RoundTripScalars | flotalk/src/message_converters.rs:111-120 | `from_message(to_message(x)) == Ok(x)` for `()`, bool, char, String and TalkError |
| MessageConverters.RoundTripIntegers | flotalk/src/message_converters.rs:128-156 | the same for i32 and i64 through `Int` |
| MessageConverters.RoundTripNumber | flotalk/src/message_converters.rs:200-213 | a `TalkNumber` comes back with its variant and value |
| MessageConverters.FloatToIntegerTruncates | flotalk/src/message_converters.rs:128-152 | an in-range float converts to its truncation |
| MessageConverters.WrongKindErrors | flotalk/src/message_converters.rs:111-277 | a wrong value kind gives `NotABoolean`, `NotAnInteger`, `NotANumber`, `NotAString`, `NotACharacter` or `NotAnError` |
| MessageConverters.WrongShapeErrors | flotalk/src/message_converters.rs:94-104 | any message without exactly one argument gives `MessageNotSupported` |
| MessageConverters.ReferenceFromMessage | flotalk/src/message_converters.rs:41-60 | corrected definition (see Findings; `ReferenceFromMessageAsWritten` is the code as written): the reference, `NotAReference` or `MessageNotSupported`, releasing the arguments on every failure |
| MessageConverters.ReferenceFromMessageAsWritten | flotalk/src/message_converters.rs:41-60 | the code as written: the same result as the corrected definition, but on one non-reference argument only the `Nil` left by `take()` is released; elsewhere identical |
| MessageConverters.ValueFromMessage | flotalk/src/message_converters.rs:73-86 | the one argument, or `MessageNotSupported` with the arguments released |
| MessageConverters.ReferenceFromMessageConserves | flotalk/src/message_converters.rs:41-60 | every reference in the arguments is either returned or released, and nothing else is released |
| MessageConverters.ValueFromMessageConserves | flotalk/src/message_converters.rs:73-86 | the same for `TalkValue` |
| MessageConverters.ReferenceFromMessageAsWrittenLeaks | flotalk/src/message_converters.rs:44-51 | as written, an array argument holding a reference yields `NotAReference` and its reference is neither returned nor released |
| MessageConverters.ReferenceFromMessageCorrection | flotalk/src/message_converters.rs:41-60 | the corrected and as-written versions agree everywhere except the releases on the `NotAReference` path |
| MessageConverters.RoundTripReferenceAndValue | flotalk/src/message_converters.rs:62-90 | a reference or value in a `value:` message comes back unchanged and nothing is released |
| MessageConverters.WrongArgumentCountReleases | flotalk/src/message_converters.rs:53-55 | an argument count other than one gives `MessageNotSupported` and releases all arguments |
| MessageConverters.ValueToMessage | flotalk/src/message_converters.rs:62-64 | a `value:` message with a clone of the value; each reference gains one count |
| TalkClasses.PadWithNone | flotalk/src/class.rs:345-349 | the vector extended with `None` to at least `idx + 1` entries, existing entries unchanged |
| TalkClasses.ClassRegistry.constructor | flotalk/src/class.rs:156-166 | counter at 0, empty vectors and maps |
| TalkClasses.ClassRegistry.New | flotalk/src/class.rs:156-166 | returns the current counter and increments it: sequential, unique ids |
| TalkClasses.ClassRegistry.Definition | flotalk/src/class.rs:448-461 | `None` when out of range, empty, or of another type; otherwise the definition |
| TalkClasses.ClassRegistry.Create | flotalk/src/class.rs:338-368 | both vectors padded with `None` to `idx`, entry `idx` set, other entries unchanged |
| TalkClasses.ClassRegistry.MakeLocalCallbacks | flotalk/src/class.rs:373-391 | copies the global entry into the local cache at `idx`, padding as needed |
| TalkClasses.ClassRegistry.Callbacks | flotalk/src/class.rs:397-414 | the cached entry if present; otherwise the global one, now cached |
| TalkClasses.ClassRegistry.AddClassDataReader | flotalk/src/class.rs:481-511 | inserts or overwrites the reader at (class type, target type), creating the inner map if absent |
| TalkClasses.ClassRegistry.ReadClassData | flotalk/src/class.rs:289-314 | `None` when no reader exists for the class type or for the target type |
| TalkClasses.AddReaderKeepsOthers | flotalk/src/class.rs:506-510 | adding a reader leaves every other (class, target) pair as it was |
| TalkClasses.CallbackDispatchTable | flotalk/src/class.rs:241-253 | the default table's actions; the fallback calls `send_instance_message` with the rebuilt reference |
| TalkClasses.CallbackDispatchFallthrough | flotalk/src/class.rs:241-253 | defined instance messages are handled by the table; only others reach `send_instance_message` |
| TalkClasses.CallbackClassDispatchTable | flotalk/src/class.rs:276-284 | the default class table's actions; the fallback calls `send_class_message` |
| ClassClasses.ClassObjectInContext | src/flotalk/standard_classes/class_class.rs:91-93 | `TalkReference(CLASS_CLASS, TalkDataHandle(c.0))` |
| ClassClasses.ClassObject | src/flotalk/standard_classes/class_class.rs:98-101 | a continuation that reads the class object of `c` |
| ClassClasses.ClassObjectAgrees | src/flotalk/standard_classes/class_class.rs:91-101 | `class_object` yields the same reference as `class_object_in_context` |
| ClassClasses.RunClassObject | src/flotalk/standard_classes/class_class.rs:98-101 | running the class-object continuation of `c` gives a class-class reference whose handle is `c`'s id; any other continuation is left as it is |
| ClassClasses.SendClassMessage | src/flotalk/standard_classes/class_class.rs:43-45 | always `MessageNotSupported(message_id)`; every argument is released once when the owned arguments are dropped |
| ClassClasses.SendInstanceMessage | src/flotalk/standard_classes/class_class.rs:47-62 | re-sent to `TalkClass(handle.0)` with the same id and arguments; unary iff no arguments |
| ClassClasses.InstanceMessageReachesClass | src/flotalk/standard_classes/class_class.rs:49-61 | an instance message to the class object of `c` reaches `c` itself |
| ClassClasses.InstanceMessageKeepsForm | src/flotalk/standard_classes/class_class.rs:56-60 | a message is re-sent in the form it arrived in |
| ScriptClasses.ScriptClassAllocator.Store | src/flotalk/standard_classes/script_class.rs:128-145 | stores the data at a new handle, one past the previous ones |
| ScriptClasses.SendClassMessage | src/flotalk/standard_classes/script_class.rs:127-151 | `new` creates exactly one cell-block class in the registry (earlier classes' entries, the local cache and the data readers unchanged), appends a script class for it with no superclass and returns a reference to the new entry; any other message is not supported and leaves the allocator and the registry unchanged; on every path each argument is released once |
| ScriptClasses.Subclass | src/flotalk/standard_classes/script_class.rs:81-107 | one new allocator entry, earlier entries unchanged, holding a fresh class id whose superclass id and superclass reference are the parent's class and the parent; the registry gains exactly that one cell-block class and nothing else in it changes; the parent is retained once |
| ScriptClasses.SendInstanceMessage | src/flotalk/standard_classes/script_class.rs:156-177 | every argument is released once; `subclass` appends one entry (earlier ones unchanged) for a fresh class whose superclass is the receiver, registers exactly that one cell-block class and leaves the rest of the registry unchanged, returns a new reference to it and retains the receiver once; any other instance message is not supported and leaves the allocator, the registry and every other count unchanged |
| ScriptClasses.ReleaseScriptClass | src/flotalk/standard_classes/script_class.rs:67-73 | releases the superclass reference if present, and nothing else |
| ScriptClasses.ReleaseScriptClassOnce | src/flotalk/standard_classes/script_class.rs:67-73 | the superclass loses exactly one count, others none; releasing undoes the retain of `subclass` |
| ScriptClasses.CellBlockOf | src/flotalk/standard_classes/script_class.rs:219 | the handle truncated to 32 bits |
| ScriptClasses.CellBlockOfAliases | src/flotalk/standard_classes/script_class.rs:228 | two handles name the same cell block iff their low 32 bits agree |
| ScriptClasses.CellBlockSendMessage | src/flotalk/standard_classes/script_class.rs:197-206 | every class and instance message is rejected, and each argument is released once |
| ScriptClasses.CellBlockAllocator.constructor | src/flotalk/standard_classes/script_class.rs:190-192 | the temporary cell block starts as block 0 |
| ScriptClasses.CellBlockAllocator.Retrieve | src/flotalk/standard_classes/script_class.rs:217-221 | `retrieve(h)` holds `TalkCellBlock(h)` |
| ScriptClasses.CellBlockAllocator.AddReference | src/flotalk/standard_classes/script_class.rs:227-230 | retains the handle's cell block |
| ScriptClasses.CellBlockAllocator.RemoveReference | src/flotalk/standard_classes/script_class.rs:236-239 | releases the handle's cell block |
| ScriptClasses.CellBlockCounts.Retain | src/flotalk/standard_classes/script_class.rs:227-230 | one count more for the cell block, starting from 0, and no other count changes |
| ScriptClasses.CellBlockCounts.Release | src/flotalk/standard_classes/script_class.rs:236-239 | one count less for the cell block, starting from 0, and no other count changes |
| CommandStreams.CommandNameIntoString | pipe/src/commands/command_stream.rs:78-83 | the inner string, unchanged |
| CommandStreams.ResponseFromError | pipe/src/commands/command_stream.rs:85-89 | always an `Error` with the error's debug text |
| CommandStreams.ResponseFromList | pipe/src/commands/command_stream.rs:91-95 | a `Json` response holding the serialized list |
| CommandStreams.TryIntoList | pipe/src/commands/command_stream.rs:97-111 | non-`Json` fails with `CannotConvertResponse`; `Json` succeeds iff it deserializes |
| CommandStreams.ListRoundTrip | pipe/src/commands/command_stream.rs:91-111 | a list converted to a response converts back when deserialize inverts serialize |
| CommandStreams.WithNewTarget | pipe/src/commands/command_stream.rs:127-137 | always `ForTarget(new)`; a `ForTarget` keeps its inner request, anything else is wrapped once |
| CommandStreams.WithNewTargetFlat | pipe/src/commands/command_stream.rs:133-135 | retargeting never puts `ForTarget` directly inside `ForTarget` |
| CommandStreams.WithNewTargetTwice | pipe/src/commands/command_stream.rs:127-137 | `with_new_target(t1)` then `(t2)` equals `with_new_target(t2)` |
| CommandStreams.Indent | pipe/src/commands/command_stream.rs:202-205 | grows by two characters per newline |
| CommandStreams.UnindentIndent | pipe/src/commands/command_stream.rs:202-205 | removing the indentation gives back the message |
| CommandStreams.IndentedNewlines | pipe/src/commands/command_stream.rs:202-205 | every newline of the indented message is followed by two spaces |
| CommandStreams.DisplayResponse | pipe/src/commands/command_stream.rs:200-228 | `Message(m)` gives `"  "` + indented m + newline; `Json(j)` gives the pretty text + newline, or `!!! "Could not format JSON response"` + newline when formatting fails; `Error(e)` gives `"!!! "` + e + newline |
| CommandStreams.DisplayCommandError | pipe/src/commands/command_stream.rs:223-226 | a converted command error displays as `"!!! "` + its debug text |
| CommandStreams.DisplayCommandResponses | pipe/src/commands/command_stream.rs:262-309 | the output is the transcript of the stream: the opening prompt, each response after a newline, a prompt when nothing more is ready, and the sign-off |
| CommandStreams.TranscriptFraming | pipe/src/commands/command_stream.rs:268-307 | output starts with `"\n\n> "` and ends with `"\n\n.\n"` |
| CommandStreams.RenderEndsWithSignOff | pipe/src/commands/command_stream.rs:307 | the rendering from any point ends with the sign-off |
| CommandStreams.RenderBurst | pipe/src/commands/command_stream.rs:280-292 | responses ready at once are shown in order, each after `"\n"`, with no prompt between |
| Recipes.RunStep | src/ergonomics/recipe.rs:71 | when no channel can be opened, that error and nothing sent |
| Recipes.SendFromDeliversAll | src/ergonomics/recipe.rs:73-76 | when every send succeeds, all messages are delivered in order |
| Recipes.SendFromStopsAtRefusal | src/ergonomics/recipe.rs:73-76 | at the first refused message, `NotListening`; the messages before it were delivered in order, and none after |
| Recipes.RefusalPoint | src/ergonomics/recipe.rs:73-76 | names the refused message: `NotListening`, everything before it delivered in order |
| Recipes.RunStepResends | src/ergonomics/recipe.rs:65-67 | each run of a step sends the same captured list, whatever was delivered before |
| Recipes.RunFromDeliversAll | src/ergonomics/recipe.rs:48-55 | when all steps succeed, the result is `Ok` and every step's messages are delivered, step by step |
| Recipes.RunFromAppend | src/ergonomics/recipe.rs:50-52 | steps run in order; a failing step's error is returned and later steps do not run |
| Recipes.Scene.Send | src/ergonomics/recipe.rs:75 | a message the entity accepts is recorded; otherwise `NotListening` (the only refusal modelled) and nothing recorded |
| Recipes.RunSendStep | src/ergonomics/recipe.rs:66-80 | the result and deliveries are those of `RunStep` |
| Recipes.Recipe.Default | src/ergonomics/recipe.rs:30-34 | zero steps |
| Recipes.Recipe.New | src/ergonomics/recipe.rs:41-43 | a fresh recipe with zero steps |
| Recipes.Recipe.SendMessages | src/ergonomics/recipe.rs:60-85 | exactly one step appended, earlier steps unchanged |
| Recipes.Recipe.Run | src/ergonomics/recipe.rs:48-55 | the result and deliveries are those of `RunFrom`; the steps are unchanged |
| EntityCores.New | src/scene/entity_core.rs:26-36 | stores the channel and queue; the native type is the channel's message type |
| EntityCores.MessageTypeId | src/scene/entity_core.rs:41-43 | the message type given at construction |
| EntityCores.Queue | src/scene/entity_core.rs:51-53 | the same queue on every call |
| EntityCores.AttachChannel | src/scene/entity_core.rs:58-68 | `Some` iff both types match the stored channel; then the stored channel, which stays in place |
| EntityCores.NewThenAttach | src/scene/entity_core.rs:26-68 | a new entity gives its own channel back for its own types |
| EntityCores.AttachOtherMessageType | src/scene/entity_core.rs:58-64 | any other message type is refused |
| EntityChannelErrors.FromCanceled | src/error/entity_channel_error.rs:24-28 | `NotListening` |
| EntityChannelErrors.FromSendError | src/error/entity_channel_error.rs:30-34 | `NotListening` |
| EntityChannelErrors.FromSceneContextErrorRef | src/error/entity_channel_error.rs:42-49 | `NoCurrentScene` to `NoCurrentScene`, `ThreadShuttingDown` to `ThreadShuttingDown` |
| EntityChannelErrors.FromSceneContextError | src/error/entity_channel_error.rs:36-40 | agrees with the by-reference conversion |
| EntityChannelErrors.FromSceneContextErrorInjective | src/error/entity_channel_error.rs:36-49 | distinct scene errors stay distinct |
| EntityChannelErrors.Convert | src/error/entity_channel_error.rs:24-49 | no conversion produces `NoSuchEntity`; exactly the channel errors give `NotListening` |
| EntityChannelErrors.AccessErrorComposes | src/error/entity_channel_error.rs:46 | an `AccessError` becomes `ThreadShuttingDown` through both conversions |
| SceneContextErrors.FromAccessError | src/error/scene_context_error.rs:15-18 | always `ThreadShuttingDown`, whatever the argument |

## Left out

- `SubProgramIds.SubProgramNames.IdForName`: models one call without interleaving. The global `RwLock`s, and the race between the read and the write lock, are not modelled.
- The locks (`Mutex`, `RwLock`), thread-locals and `Arc` sharing in every file. The model is single-threaded, so each global or thread-local is one object.
- `StreamId::message_type` and `message_type_name` are field reads of `StreamIds.StreamId` and have no member of their own.
- Futures and wakers.
  - Asynchrony is modelled by sequences of outcomes.
  - A waker is an opaque value that is taken and returned.
  - Waking is not modelled.
- `Serialization`: serde serializers and deserializers are arrow parameters, and the erased `Any` boxes are type tags. The `map_stream` plumbing around the filters is not modelled.
- `MessageConverters`: the `f32`/`f64` and `Arc<String>` converters are left out.
  - Float conversion of `Int` values and NaN and infinities are left out, because Dafny's `real` has no floating point.
  - `Arc<String>` converts as `String` does.
- The scalar `from_message` conversions drop the owned message after reading its argument, which releases every argument. That release is left out: the scalar conversions are modelled by their result only, and the `TalkOwned` of the message is not modelled for them.
- DispatchTables.SendMessageAndRelease: its count ensures covers only the release of the target. Actions and fallbacks receive the arguments as an owned collection and the context (dispatch_table.rs:20-23), and they release the arguments when they drop them. The model's actions and fallbacks are functions without the context, so for a general table the arguments' counts are not stated. `SendToEmptyAndRelease` states them for the empty table's default fallback.
- DispatchTables.Empty: the function value of the default fallback (line 33) does not release its arguments, because the model's fallbacks take no context. The drop that releases them is modelled by `NotSupportedAndRelease`, and the whole send by `SendToEmptyAndRelease`.
- Recipes.Scene.Send: every refusal by the receiving entity is reported as `NotListening`. The other channel errors (`NoSuchEntity`, `NoCurrentScene`, `ThreadShuttingDown`) arise in the model only from `sendTo`, the model of `context.send_to`. Other failure modes of an entity's own channel are outside this model.
- `DispatchTables.TrySendMessage`: when no action exists, the arguments in the owned message are dropped without release. The model returns `None` and does not track that drop.
- `send_message_in_context`, `Soon`/`Later` continuations and the runtime that runs continuations are left out. A continuation is a value.
- `TalkClass::allocator` and the per-class allocator storage are modelled only for the script and cell-block classes. `default_instance_dispatch_table` (`TALK_DISPATCH_ANY`) is a parameter.
- `TalkClassClassAllocator` (src/flotalk/standard_classes/class_class.rs:80-84) is left out. It stores nothing: `retrieve` returns unit and `add_reference`/`remove_reference` do nothing.
- `ScriptClasses`: instance variables are always empty, because `subclassWithInstanceVariables`, `addInstanceMessage` and `addClassMessage` are unimplemented in the source.
  - The script allocator is modelled as a growing vector, because allocator.rs is not part of this model.
  - `TalkCellBlock` is taken to be a `u32`, and the retain/release it triggers are counts per cell block, because context.rs is not part of this model.
- `Releasables`: value.rs and reference.rs are not part of this model.
  - `remove_reference` is taken to mirror `add_reference`, applied through the class callbacks only when the class has them.
  - `TalkSymbol` interning is not modelled.
- `CommandStreams`: the parsing side is left out. `parse`, `parse_command_stream` and `background_command_streams` need a tokenizer that is not part of this model.
  - JSON pretty-printing is a parameter.
  - Displaying a `BackgroundStream` is `todo!()` in the source, so `DisplayResponse` requires a response of another kind.
- `Recipes`: a step is the `send_messages` step, the only kind the source builds. The scene's `send_to` and the entities' acceptance of messages are parameters of `Scene`.
  - `RecipeError` is reduced to the entity channel errors a send step can produce.
- `EntityCores`: the scheduler's job queue and the channel's internals are opaque values.

## Findings

| source | as written | input that shows it | evidently intended | confidence | as-written member | corrected member |
|---|---|---|---|---|---|---|
| flotalk/src/message_converters.rs:44-51 | on one argument that is not a reference, the argument is taken out of the message before the arguments are released, so the released list holds only the `Nil` left behind and the taken value is dropped unreleased | `WithArguments(value:, [Array([Reference(r)])])`: the result is `NotAReference`, and `r` is neither returned nor released | the taken argument is released, as on the wrong-count path (lines 53-55) | not executed; the take-then-release behaviour of `TalkOwned` over the argument vector is inferred, because value.rs is not part of this model | MessageConverters.ReferenceFromMessageAsWrittenLeaks | MessageConverters.ReferenceFromMessageConserves |
