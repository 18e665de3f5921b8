/**
 * What a handler hands back to CloudFormation: a progress event with a status and the
 * resource model(s), or the InternalFailure it throws, carrying the message of the error
 * that ended the handler.
 */
module Progress {
  import opened Wrappers

  datatype OperationStatus = InProgress | Success

  /** A progress event: the status, the single resource model, and the list of models (list only). */
  datatype ProgressEvent<M> = ProgressEvent(status: OperationStatus, resourceModel: Option<M>, resourceModels: seq<M>)

  /** A handler either returns its event or throws `InternalFailure(err.message)`. */
  datatype HandlerResult<M> = Done(event: ProgressEvent<M>) | InternalFailure(message: string)

  /**
   * The message of the TypeError a handler raises on `model.apiCredentials.email` when the
   * request carries no ApiCredentials (the wording of current Node.js releases).
   */
  const UndefinedCredentialsMessage := "Cannot read properties of undefined (reading 'email')"
}
