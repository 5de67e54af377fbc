/**
 * Errors that can occur when sending to an entity channel (src/error/entity_channel_error.rs).
 */
module EntityChannelErrors {
  import SceneContextErrors

  /** `EntityChannelError` (lines 9-22). */
  datatype EntityChannelError = NoSuchEntity | NotListening | NoCurrentScene | ThreadShuttingDown

  /** `futures::channel::oneshot::Canceled`: the sender was dropped. */
  datatype Canceled = Canceled

  /** `futures::channel::mpsc::SendError`, with whether the channel was full or disconnected. */
  datatype SendError = SendError(disconnected: bool)

  /** `From<oneshot::Canceled>` (lines 24-28): the entity is no longer listening. */
  function FromCanceled(canceled: Canceled): (r: EntityChannelError)
    ensures r == NotListening
  {
    NotListening
  }

  /** `From<mpsc::SendError>` (lines 30-34): whatever the reason, the entity is no longer listening. */
  function FromSendError(error: SendError): (r: EntityChannelError)
    ensures r == NotListening
  {
    NotListening
  }

  /** `From<&SceneContextError>` (lines 42-49): each scene context error keeps its meaning. */
  function FromSceneContextErrorRef(error: SceneContextErrors.SceneContextError): (r: EntityChannelError)
    ensures error.NoCurrentScene? <==> r.NoCurrentScene?
    ensures error.ThreadShuttingDown? <==> r.ThreadShuttingDown?
  {
    match error
    case NoCurrentScene => NoCurrentScene
    case ThreadShuttingDown => ThreadShuttingDown
  }

  /** `From<SceneContextError>` (lines 36-40): the owned conversion goes through the by-reference one. */
  function FromSceneContextError(error: SceneContextErrors.SceneContextError): (r: EntityChannelError)
    ensures r == FromSceneContextErrorRef(error)
  {
    FromSceneContextErrorRef(error)
  }

  /** The scene context conversion is one-to-one: distinct scene errors stay distinct. */
  lemma FromSceneContextErrorInjective(a: SceneContextErrors.SceneContextError, b: SceneContextErrors.SceneContextError)
    requires FromSceneContextError(a) == FromSceneContextError(b)
    ensures a == b
  {
  }

  /** The error a conversion can produce: none of them produces `NoSuchEntity`. */
  datatype ConvertedFrom =
    | FromOneshot(canceled: Canceled)
    | FromMpsc(sendError: SendError)
    | FromSceneContext(sceneError: SceneContextErrors.SceneContextError)

  function Convert(source: ConvertedFrom): (r: EntityChannelError)
    ensures r != NoSuchEntity
    ensures r == NotListening <==> !source.FromSceneContext?
  {
    match source
    case FromOneshot(canceled) => FromCanceled(canceled)
    case FromMpsc(sendError) => FromSendError(sendError)
    case FromSceneContext(sceneError) => FromSceneContextError(sceneError)
  }

  /** An `AccessError` becomes `ThreadShuttingDown` through both conversions. */
  lemma AccessErrorComposes(err: SceneContextErrors.AccessError)
    ensures FromSceneContextError(SceneContextErrors.FromAccessError(err)) == ThreadShuttingDown
  {
  }
}
