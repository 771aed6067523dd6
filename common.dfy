/** Shared vocabulary of the two route modules: usernames, timestamps, the
    errors a handler can forward to the error path, and the Option/Result
    wrappers the handlers return instead of throwing. */
module Common {

  /** A username, as carried by the authenticated request (`req.user.username`). */
  type Username = string

  /** A timestamp, as supplied by the database clock; its value is abstract. */
  type Time = int

  datatype Option<T> = None | Some(value: T)

  /** Every failure a handler passes to `next(e)`. */
  datatype Error =
      /** An `ExpressError(message, status)` raised by a route itself. */
    | ExpressError(message: string, status: int)
      /** Whatever `Message.get` throws for an id it does not hold; its exact
          form is internal to the message model. */
    | LookupFailed(id: int)
      /** Any other exception thrown by code the routes call (database,
          bcrypt, the JavaScript runtime), kept abstract. */
    | Raised(description: string)

  /** The outcome of a handler: the JSON payload of `res.json`, or the error
      handed to `next`. */
  datatype Result<T> = Ok(value: T) | Err(error: Error)
}
