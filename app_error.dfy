/** The gateway's error type (backend/src/error.rs). */
module AppErrors {

  /** Forbidden carries a message, as every caller in the core passes one
      (error.rs itself declares it without a payload). */
  datatype AppError =
    | BadRequest(message: string)
    | Unauthorized
    | Forbidden(message: string)
    | NotFound
    | Conflict(message: string)
    | Internal(message: string)
}
