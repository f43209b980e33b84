/** Shared vocabulary of the handlers: the result of binding a request part,
    the HTTP status codes they answer with, and the instant type that
    `time.Time` values are modelled by. */
module Http {

  /** The outcome of binding a request body or a path parameter:
      `None` when the binder reports an error. */
  datatype Option<+T> = None | Some(value: T)

  const StatusOK: int := 200
  const StatusCreated: int := 201
  const StatusBadRequest: int := 400
  const StatusInternalServerError: int := 500

  /** A `time.Time` value. The handlers only copy it between the request,
      the table and the response, so an integer instant is enough. */
  type Timestamp = int
}
