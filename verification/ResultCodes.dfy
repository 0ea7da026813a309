// The closed vocabulary of result, event and issue codes.
module ResultCodes {
  // The codes a result, an event or a local failure can carry.
  datatype Code =
    | Ok
    // event codes
    | Created | Validated | Prepared | Applying | Persisted | RuntimeLoaded | Verifying | Confirmed
    | Cancelled | Rejected | Conflict | Failed | InvalidConfig | ValidationFailed | Unsupported
    | SourceConflict | SourceDrift | Expired | Busy | WriteFailed | RuntimeFailed | VerifyFailed
    | Timeout | ConnectionLost | OutcomeUnknown | RecoveryStarted | RollingBack | RolledBack
    | RollbackFailed | Recovered | Revoked | SecretStored | ExternalChange | ServiceMismatch
    | OperationNotFound | RestoreSuperseded | ManagedCapacity | ContextChanged
    // issue codes that are not event codes
    | LimitExceeded | UnsupportedDependency | InvalidTemplate | InvalidSource | UnsupportedSource
    | LegacyReadOnly | StoreUnavailable | DuplicateName | OwnershipConflict | SourceReadOnly
    | AdvancedReadOnly | NativeWarning | StartFiltered | InvalidMemory | InvalidChange
    | FieldReadOnly | InvalidSecret | InvalidSecretReference | SecretReferenceUnavailable
    | RuntimeCapabilityRequired | DependencyConflict | RevisionConflict | DuplicateChange
    | AlreadyExists | InvalidType | NotFound | InvalidField | DuplicateKey | InvalidKind
    | InvalidName | SourceChanged
    // remaining result codes, and the one code only the controller uses
    | InvalidRequest | Unauthorized | Unavailable | InternalError | TooLarge
    | ServerRestorePending

  predicate IssueCode(c: Code) {
    match c
    case SourceDrift | ValidationFailed => true
    case LimitExceeded | UnsupportedDependency | InvalidTemplate | InvalidSource | UnsupportedSource => true
    case LegacyReadOnly | StoreUnavailable | DuplicateName | OwnershipConflict | SourceReadOnly => true
    case AdvancedReadOnly | NativeWarning | StartFiltered | InvalidMemory | InvalidChange => true
    case FieldReadOnly | InvalidSecret | InvalidSecretReference | SecretReferenceUnavailable => true
    case RuntimeCapabilityRequired | DependencyConflict | RevisionConflict | DuplicateChange => true
    case AlreadyExists | InvalidType | NotFound | InvalidField | DuplicateKey | InvalidKind => true
    case InvalidName | SourceChanged => true
    case _ => false
  }

  predicate EventCode(c: Code) {
    match c
    case Ok | InvalidRequest | Unauthorized | Unavailable | InternalError | TooLarge => false
    case ServerRestorePending => false
    case SourceDrift | ValidationFailed => true
    case _ => !IssueCode(c)
  }
}
