/**
 * Recipes: fixed sequences of steps sent to the entities of a scene, in order
 * (src/ergonomics/recipe.rs).
 *
 * The only steps a recipe can hold are the ones `send_messages` builds, so a step is the data
 * its closure captures: the target entity and the list of messages. Messages of any type are
 * `AnyMessage` values tagged with their type.
 *
 * The scene context is a `Scene` object whose `delivered` field records every message an entity
 * has accepted, in order. Whether `send_to` can open a channel to an entity (`sendTo`) and
 * whether the entity accepts the next message (`accepts`, given everything delivered so far)
 * belong to the scene, which is not part of this model, so both are fixed when the scene is
 * made.
 */
module Recipes {
  import opened Wrappers
  import opened SceneTypes
  import opened EntityChannelErrors

  /** An `EntityId` (opaque). */
  datatype EntityId = EntityId(key: nat)

  /** A message of some type. */
  datatype AnyMessage = AnyMessage(messageType: TypeTag, key: nat)

  /** One message accepted by one entity. */
  datatype Delivery = Delivery(entity: EntityId, message: AnyMessage)

  /** A `RecipeError`; the steps here fail only with entity channel errors. */
  datatype RecipeError = ChannelError(error: EntityChannelError)

  /** The step `send_messages` builds (lines 64-80): the entity and the collected messages. */
  datatype SendStep = SendStep(entity: EntityId, messages: seq<AnyMessage>)

  /** The result of running steps, with the deliveries the scene has recorded by then. */
  datatype Outcome = Outcome(result: Result<(), RecipeError>, delivered: seq<Delivery>)

  /** The deliveries of `messages` to `entity`, in order. */
  function Deliveries(entity: EntityId, messages: seq<AnyMessage>): (ds: seq<Delivery>)
    ensures |ds| == |messages|
    ensures forall k :: 0 <= k < |ds| ==> ds[k] == Delivery(entity, messages[k])
  {
    seq(|messages|, k requires 0 <= k < |messages| => Delivery(entity, messages[k]))
  }

  /** The deliveries of every step from step `i` on, in order. */
  function AllDeliveries(steps: seq<SendStep>, i: nat): seq<Delivery>
    requires i <= |steps|
    decreases |steps| - i
  {
    if i == |steps| then []
    else Deliveries(steps[i].entity, steps[i].messages) + AllDeliveries(steps, i + 1)
  }

  // ---------------------------------------------------------------------------------------
  // What running steps means

  /**
   * Sending `messages[i..]` on a channel to `entity` (lines 73-76): one at a time, in order,
   * stopping at the first message the entity refuses, with `NotListening`.
   */
  function SendFrom(entity: EntityId, messages: seq<AnyMessage>, i: nat, accepts: (seq<Delivery>, Delivery) -> bool, delivered: seq<Delivery>): Outcome
    requires i <= |messages|
    decreases |messages| - i
  {
    if i == |messages| then Outcome(Ok(()), delivered)
    else
      var d := Delivery(entity, messages[i]);
      if accepts(delivered, d) then SendFrom(entity, messages, i + 1, accepts, delivered + [d])
      else Outcome(Err(ChannelError(NotListening)), delivered)
  }

  /**
   * Running one send step (lines 66-80): when no channel to the entity can be opened, its error
   * and nothing is sent; otherwise the step's messages are sent in order.
   */
  function RunStep(step: SendStep, sendTo: EntityId -> Option<EntityChannelError>, accepts: (seq<Delivery>, Delivery) -> bool, delivered: seq<Delivery>): (o: Outcome)
    ensures sendTo(step.entity).Some? ==> o == Outcome(Err(ChannelError(sendTo(step.entity).value)), delivered)
  {
    match sendTo(step.entity)
    case Some(error) => Outcome(Err(ChannelError(error)), delivered)
    case None => SendFrom(step.entity, step.messages, 0, accepts, delivered)
  }

  /** Running steps `i..` of a recipe (lines 48-55): in order, stopping at the first error. */
  function RunFrom(steps: seq<SendStep>, i: nat, sendTo: EntityId -> Option<EntityChannelError>, accepts: (seq<Delivery>, Delivery) -> bool, delivered: seq<Delivery>): Outcome
    requires i <= |steps|
    decreases |steps| - i
  {
    if i == |steps| then Outcome(Ok(()), delivered)
    else
      var o := RunStep(steps[i], sendTo, accepts, delivered);
      if o.result.Err? then o
      else RunFrom(steps, i + 1, sendTo, accepts, o.delivered)
  }

  // ---------------------------------------------------------------------------------------
  // Properties

  /** When every message is accepted, all of them are delivered, in order, after what was delivered before. */
  lemma {:induction false} SendFromDeliversAll(entity: EntityId, messages: seq<AnyMessage>, i: nat, accepts: (seq<Delivery>, Delivery) -> bool, delivered: seq<Delivery>)
    requires i <= |messages|
    requires SendFrom(entity, messages, i, accepts, delivered).result.Ok?
    ensures SendFrom(entity, messages, i, accepts, delivered).delivered == delivered + Deliveries(entity, messages[i..])
    decreases |messages| - i
  {
    if i < |messages| {
      var d := Delivery(entity, messages[i]);
      SendFromDeliversAll(entity, messages, i + 1, accepts, delivered + [d]);
      assert Deliveries(entity, messages[i..]) == [d] + Deliveries(entity, messages[i + 1..]);
    }
  }

  /**
   * When a message is refused, the messages before it were delivered, in order, the refused
   * one and those after it were not, and the error is `NotListening`.
   */
  lemma {:induction false} SendFromStopsAtRefusal(entity: EntityId, messages: seq<AnyMessage>, i: nat, accepts: (seq<Delivery>, Delivery) -> bool, delivered: seq<Delivery>)
    requires i <= |messages|
    requires SendFrom(entity, messages, i, accepts, delivered).result.Err?
    ensures var o := SendFrom(entity, messages, i, accepts, delivered);
      && o.result.error == ChannelError(NotListening)
      && exists n :: i <= n < |messages| && o.delivered == delivered + Deliveries(entity, messages[i..n])
           && !accepts(o.delivered, Delivery(entity, messages[n]))
    decreases |messages| - i
  {
    var n := RefusalPoint(entity, messages, i, accepts, delivered);
  }

  /** The index of the refused message, for `SendFromStopsAtRefusal`. */
  lemma {:induction false} RefusalPoint(entity: EntityId, messages: seq<AnyMessage>, i: nat, accepts: (seq<Delivery>, Delivery) -> bool, delivered: seq<Delivery>) returns (n: nat)
    requires i <= |messages|
    requires SendFrom(entity, messages, i, accepts, delivered).result.Err?
    ensures i <= n < |messages|
    ensures var o := SendFrom(entity, messages, i, accepts, delivered);
      && o.result.error == ChannelError(NotListening)
      && o.delivered == delivered + Deliveries(entity, messages[i..n])
      && !accepts(o.delivered, Delivery(entity, messages[n]))
    decreases |messages| - i
  {
    var d := Delivery(entity, messages[i]);
    if accepts(delivered, d) {
      var next := delivered + [d];
      assert SendFrom(entity, messages, i, accepts, delivered) == SendFrom(entity, messages, i + 1, accepts, next);
      n := RefusalPoint(entity, messages, i + 1, accepts, next);
      var o := SendFrom(entity, messages, i + 1, accepts, next);
      assert o.delivered == next + Deliveries(entity, messages[i + 1..n]);
      DeliveriesCons(entity, messages, i, n);
      calc {
        next + Deliveries(entity, messages[i + 1..n]);
        delivered + ([d] + Deliveries(entity, messages[i + 1..n]));
        delivered + Deliveries(entity, messages[i..n]);
      }
    } else {
      n := i;
      assert SendFrom(entity, messages, i, accepts, delivered) == Outcome(Err(ChannelError(NotListening)), delivered);
      assert Deliveries(entity, messages[i..i]) == [];
    }
  }

  /** The deliveries of `messages[i..n]` are that of `messages[i]`, then those of the rest. */
  lemma DeliveriesCons(entity: EntityId, messages: seq<AnyMessage>, i: nat, n: nat)
    requires i < n <= |messages|
    ensures Deliveries(entity, messages[i..n]) == [Delivery(entity, messages[i])] + Deliveries(entity, messages[i + 1..n])
  {
    assert messages[i..n][1..] == messages[i + 1..n];
  }

  /**
   * Every run of a step whose entity accepts everything sends the same captured list: the
   * deliveries added do not depend on what was delivered before.
   */
  lemma RunStepResends(step: SendStep, sendTo: EntityId -> Option<EntityChannelError>, accepts: (seq<Delivery>, Delivery) -> bool, delivered: seq<Delivery>)
    requires RunStep(step, sendTo, accepts, delivered).result.Ok?
    ensures RunStep(step, sendTo, accepts, delivered).delivered == delivered + Deliveries(step.entity, step.messages)
  {
    SendFromDeliversAll(step.entity, step.messages, 0, accepts, delivered);
    assert step.messages[0..] == step.messages;
  }

  /** A recipe whose steps all succeed delivers every step's messages, step by step, in order. */
  lemma {:induction false} RunFromDeliversAll(steps: seq<SendStep>, i: nat, sendTo: EntityId -> Option<EntityChannelError>, accepts: (seq<Delivery>, Delivery) -> bool, delivered: seq<Delivery>)
    requires i <= |steps|
    requires RunFrom(steps, i, sendTo, accepts, delivered).result.Ok?
    ensures RunFrom(steps, i, sendTo, accepts, delivered).delivered == delivered + AllDeliveries(steps, i)
    decreases |steps| - i
  {
    if i < |steps| {
      var o := RunStep(steps[i], sendTo, accepts, delivered);
      RunStepResends(steps[i], sendTo, accepts, delivered);
      RunFromDeliversAll(steps, i + 1, sendTo, accepts, o.delivered);
    }
  }

  /**
   * Running `steps + more` runs `steps` first; if that fails, its error is the result and no
   * step of `more` runs; otherwise `more` runs from where `steps` left the scene.
   */
  lemma {:induction false} RunFromAppend(steps: seq<SendStep>, more: seq<SendStep>, i: nat, sendTo: EntityId -> Option<EntityChannelError>, accepts: (seq<Delivery>, Delivery) -> bool, delivered: seq<Delivery>)
    requires i <= |steps|
    ensures var o := RunFrom(steps, i, sendTo, accepts, delivered);
      RunFrom(steps + more, i, sendTo, accepts, delivered) ==
        if o.result.Err? then o else RunFrom(more, 0, sendTo, accepts, o.delivered)
    decreases |steps| - i
  {
    if i < |steps| {
      assert (steps + more)[i] == steps[i];
      var o := RunStep(steps[i], sendTo, accepts, delivered);
      if o.result.Ok? {
        RunFromAppend(steps, more, i + 1, sendTo, accepts, o.delivered);
      }
    } else {
      RunFromShift(steps, more, 0, sendTo, accepts, delivered);
    }
  }

  /** Running the steps of `more` that follow a prefix is running `more` itself. */
  lemma {:induction false} RunFromShift(steps: seq<SendStep>, more: seq<SendStep>, j: nat, sendTo: EntityId -> Option<EntityChannelError>, accepts: (seq<Delivery>, Delivery) -> bool, delivered: seq<Delivery>)
    requires j <= |more|
    ensures RunFrom(steps + more, |steps| + j, sendTo, accepts, delivered) == RunFrom(more, j, sendTo, accepts, delivered)
    decreases |more| - j
  {
    if j < |more| {
      assert (steps + more)[|steps| + j] == more[j];
      var o := RunStep(more[j], sendTo, accepts, delivered);
      if o.result.Ok? {
        RunFromShift(steps, more, j + 1, sendTo, accepts, o.delivered);
      }
    }
  }

  // ---------------------------------------------------------------------------------------
  // The scene and the recipe

  /** The part of a scene context that running a recipe uses. */
  class Scene {
    var delivered: seq<Delivery>
    const sendTo: EntityId -> Option<EntityChannelError>
    const accepts: (seq<Delivery>, Delivery) -> bool

    constructor(sendTo: EntityId -> Option<EntityChannelError>, accepts: (seq<Delivery>, Delivery) -> bool)
      ensures delivered == [] && this.sendTo == sendTo && this.accepts == accepts
    {
      delivered := [];
      this.sendTo := sendTo;
      this.accepts := accepts;
    }

    /**
     * `channel.send(msg)` on a channel to `entity`: recorded when the entity accepts it,
     * `NotListening` otherwise. This is the only error a send reports here; the channel's other
     * errors come only from `sendTo`, when the channel is opened.
     */
    method Send(entity: EntityId, message: AnyMessage) returns (r: Result<(), EntityChannelError>)
      modifies this
      ensures var d := Delivery(entity, message);
        if accepts(old(delivered), d) then r.Ok? && delivered == old(delivered) + [d]
        else r == Err(NotListening) && delivered == old(delivered)
    {
      var d := Delivery(entity, message);
      if accepts(delivered, d) {
        delivered := delivered + [d];
        r := Ok(());
      } else {
        r := Err(NotListening);
      }
    }
  }

  /** Runs one send step against `scene` (lines 66-80). */
  method RunSendStep(step: SendStep, scene: Scene) returns (r: Result<(), RecipeError>)
    modifies scene
    ensures Outcome(r, scene.delivered) == RunStep(step, scene.sendTo, scene.accepts, old(scene.delivered))
  {
    match scene.sendTo(step.entity)
    case Some(error) =>
      return Err(ChannelError(error));
    case None =>
      var i := 0;
      while i < |step.messages|
        invariant 0 <= i <= |step.messages|
        invariant SendFrom(step.entity, step.messages, i, scene.accepts, scene.delivered)
          == RunStep(step, scene.sendTo, scene.accepts, old(scene.delivered))
        decreases |step.messages| - i
      {
        var sent := scene.Send(step.entity, step.messages[i]);
        if sent.Err? {
          return Err(ChannelError(sent.error));
        }
        i := i + 1;
      }
      return Ok(());
  }

  /** `Recipe` (lines 21-24). */
  class Recipe {
    var steps: seq<SendStep>

    /** `Recipe::default` (lines 30-34): no steps. */
    constructor Default()
      ensures steps == []
    {
      steps := [];
    }

    /** `Recipe::new` (lines 41-43): the default recipe. */
    static method New() returns (recipe: Recipe)
      ensures fresh(recipe) && recipe.steps == []
    {
      recipe := new Recipe.Default();
    }

    /** `send_messages` (lines 60-85): one step is added at the end, and the steps before it are unchanged. */
    method SendMessages(entity: EntityId, messages: seq<AnyMessage>)
      modifies this
      ensures steps == old(steps) + [SendStep(entity, messages)]
    {
      steps := steps + [SendStep(entity, messages)];
    }

    /** `run` (lines 48-55): each step in order, stopping at the first error and returning it. */
    method Run(scene: Scene) returns (r: Result<(), RecipeError>)
      modifies scene
      ensures Outcome(r, scene.delivered) == RunFrom(steps, 0, scene.sendTo, scene.accepts, old(scene.delivered))
    {
      var i := 0;
      while i < |steps|
        invariant 0 <= i <= |steps|
        invariant RunFrom(steps, i, scene.sendTo, scene.accepts, scene.delivered)
          == RunFrom(steps, 0, scene.sendTo, scene.accepts, old(scene.delivered))
        decreases |steps| - i
      {
        var stepResult := RunSendStep(steps[i], scene);
        if stepResult.Err? {
          return stepResult;
        }
        i := i + 1;
      }
      return Ok(());
    }
  }
}
