/** Results and refusals shared by the whole control plane (errors.py). */
module Basics {

  datatype Option<+T> = None | Some(value: T)

  /** One constructor per exception class the orchestrator raises, plus Crash for a plain
      Python exception (a KeyError or ValueError) that no caller catches. */
  datatype Error =
    | SchemaError
    | TokenError
    | ReplayError
    | AuditChainError
    | AuditDivergenceError
    | DispatchRejected
    | AuthorityError
    | TopologyError
    | PolicyBreach
    | ReadOnlyMode
    | Crash

  datatype Result<+T> = Ok(value: T) | Err(error: Error)
}
