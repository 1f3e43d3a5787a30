/** The result of one call into the engine or the catalog index service.
    Their bodies are not part of this model, so every front-end operation
    receives the call as a function parameter and shapes whatever it yields. */
module Service {

  /** `Ok(v)`: the call returned `v`; `NotFound`: it returned Python's `None`;
      `Failed(msg)`: it raised an exception whose `str()` is `msg`. */
  datatype Outcome<+T> = Ok(value: T) | NotFound | Failed(msg: string)
}
