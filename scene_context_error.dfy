/**
 * Errors relating to scene contexts (src/error/scene_context_error.rs).
 */
module SceneContextErrors {
  /** `SceneContextError` (lines 6-13): exactly two variants, compared structurally. */
  datatype SceneContextError = NoCurrentScene | ThreadShuttingDown

  /** `std::thread::AccessError`: a thread-local was read while its thread was shutting down. */
  datatype AccessError = AccessError

  /** `From<thread::AccessError>` (lines 15-18): the error is ignored and the result is `ThreadShuttingDown`. */
  function FromAccessError(err: AccessError): (r: SceneContextError)
    ensures r == ThreadShuttingDown
    ensures r != NoCurrentScene
  {
    ThreadShuttingDown
  }
}
