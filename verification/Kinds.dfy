/** The two taxonomies of a failure, and the tables between them
    (v2/errors_convert.go, v2/internal/types/errorkind.go). */
module Kinds {
  import opened Common

  /** The eighteen kinds of the root package. */
  datatype Kind =
    | ErrConfiguration | ErrInvalidRequest | ErrUnsupported | ErrUnauthorized | ErrPolicy
    | ErrBudgetExceeded | ErrBusy | ErrRateLimited | ErrUnavailable | ErrTimeout | ErrCanceled
    | ErrClosed | ErrTooLarge | ErrTruncated | ErrRefused | ErrInvalidAnswer
    | ErrReviewRequired | ErrInternal

  /** The kinds of the call path. */
  datatype InternalKind =
    | KindUnknown | KindConfiguration | KindAuthentication | KindPermission | KindInvalidRequest
    | KindPolicyViolation | KindBudgetExceeded | KindAdmissionRejected | KindRateLimited
    | KindProviderUnavailable | KindTimeout | KindCanceled | KindCircuitOpen | KindShutdown
    | KindContextTooLarge | KindOutputTruncated | KindMalformedOutput | KindSchemaViolation
    | KindBatchProtocolViolation | KindInvariantViolation | KindEvidenceViolation
    | KindUnsupportedCapability | KindRepairExhausted | KindReviewRequired

  /** The mark an internal error carries within its kind. */
  datatype Narrowing = NarrowNone | NarrowRefusal | NarrowPanic

  function KindFromInternal(kind: InternalKind, narrow: Narrowing): (r: Option<Kind>)
    ensures r.None? <==> kind == KindUnknown && narrow == NarrowNone
  {
    match narrow
    case NarrowRefusal => Some(ErrRefused)
    case NarrowPanic => Some(ErrInternal)
    case NarrowNone =>
      match kind
      case KindConfiguration => Some(ErrConfiguration)
      case KindInvalidRequest => Some(ErrInvalidRequest)
      case KindUnsupportedCapability => Some(ErrUnsupported)
      case KindAuthentication => Some(ErrUnauthorized)
      case KindPermission => Some(ErrUnauthorized)
      case KindPolicyViolation => Some(ErrPolicy)
      case KindBudgetExceeded => Some(ErrBudgetExceeded)
      case KindAdmissionRejected => Some(ErrBusy)
      case KindRateLimited => Some(ErrRateLimited)
      case KindProviderUnavailable => Some(ErrUnavailable)
      case KindCircuitOpen => Some(ErrUnavailable)
      case KindTimeout => Some(ErrTimeout)
      case KindCanceled => Some(ErrCanceled)
      case KindShutdown => Some(ErrClosed)
      case KindContextTooLarge => Some(ErrTooLarge)
      case KindOutputTruncated => Some(ErrTruncated)
      case KindMalformedOutput => Some(ErrInvalidAnswer)
      case KindSchemaViolation => Some(ErrInvalidAnswer)
      case KindBatchProtocolViolation => Some(ErrInvalidAnswer)
      case KindInvariantViolation => Some(ErrInvalidAnswer)
      case KindEvidenceViolation => Some(ErrInvalidAnswer)
      case KindRepairExhausted => Some(ErrInvalidAnswer)
      case KindReviewRequired => Some(ErrReviewRequired)
      case KindUnknown => None
  }

  /** The kind and mark a root kind travels under; `KindFromInternal` brings it back. */
  function KindToInternal(kind: Kind): (r: (InternalKind, Narrowing))
    ensures KindFromInternal(r.0, r.1) == Some(kind)
  {
    match kind
    case ErrConfiguration => (KindConfiguration, NarrowNone)
    case ErrInvalidRequest => (KindInvalidRequest, NarrowNone)
    case ErrUnsupported => (KindUnsupportedCapability, NarrowNone)
    case ErrUnauthorized => (KindAuthentication, NarrowNone)
    case ErrPolicy => (KindPolicyViolation, NarrowNone)
    case ErrBudgetExceeded => (KindBudgetExceeded, NarrowNone)
    case ErrBusy => (KindAdmissionRejected, NarrowNone)
    case ErrRateLimited => (KindRateLimited, NarrowNone)
    case ErrUnavailable => (KindProviderUnavailable, NarrowNone)
    case ErrTimeout => (KindTimeout, NarrowNone)
    case ErrCanceled => (KindCanceled, NarrowNone)
    case ErrClosed => (KindShutdown, NarrowNone)
    case ErrTooLarge => (KindContextTooLarge, NarrowNone)
    case ErrTruncated => (KindOutputTruncated, NarrowNone)
    case ErrRefused => (KindPolicyViolation, NarrowRefusal)
    case ErrInvalidAnswer => (KindMalformedOutput, NarrowNone)
    case ErrReviewRequired => (KindReviewRequired, NarrowNone)
    case ErrInternal => (KindInvariantViolation, NarrowPanic)
  }

  /** The kinds nothing the library does can help (types.OperationError.Terminal). */
  predicate Terminal(kind: InternalKind) {
    kind in {KindConfiguration, KindAuthentication, KindPermission, KindInvalidRequest,
             KindPolicyViolation, KindBudgetExceeded, KindUnsupportedCapability,
             KindCanceled, KindShutdown, KindRepairExhausted, KindReviewRequired}
  }
}
