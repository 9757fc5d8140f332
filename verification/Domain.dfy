/** Vocabulary shared by every component: identifiers, optional values and the
    outcomes a service call can have. */
module Domain {

  /** Row ids are UUIDs in the database; only their identity matters here. */
  type Id = nat

  datatype Option<+T> = None | Some(value: T)

  datatype Result<+T> = Ok(value: T) | Err(error: DomainError)

  /** The error codes of DomainException.  SuiteCycle and SuiteTooDeep share one code
      (VALIDATION_FAILED) in the program and differ only in their message;
      UniqueViolation is a constraint error raised by the database itself. */
  datatype DomainError =
    | NotFound
    | SuiteCycle
    | SuiteTooDeep
    | RunNoCases
    | RunNotInProgress
    | RunInvalidTransition
    | UniqueViolation
    | Conflict
    | MemberLastAdmin
    | RefreshInvalid
    | RefreshReuse
    | TenantContextMissing
    | RecordNotFound
}
