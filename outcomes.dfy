/** Optional values, results and the errors the provider surfaces. */
module Outcomes {

  datatype Option<+T> = None | Some(value: T)

  datatype Result<+R> = Success(value: R) | Failure(error: Error)

  /** An error returned to the Terraform host. */
  datatype Error =
    /** An import identifier that is not `collector_id/source_id`. */
    | ImportFormat(got: string)
    /** The remote API has no object at this path (PUT or DELETE). */
    | NotFound(path: string)
    /** Any other failure of the REST transport or of decoding a response. */
    | Api(message: string)
}
