/** Outcomes shared by the models: a Python call either returns a value or raises. */
module Results {

  /** The exceptions the modelled code raises, by their Python class. */
  datatype Error = ValueError | RuntimeError | KeyError | AssertionError | IndexError

  datatype Result<+T> = Ok(value: T) | Err(error: Error)

  /** A manager's answer: now, not now, or not ever. */
  datatype AllocStatus = OK | LATER | NEVER

  datatype Option<+T> = None | Some(value: T)
}
