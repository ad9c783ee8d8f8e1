/** The conversion of any error into the root package's `*Error`, and of a provider's failure into
    the error the call path reads (v2/errors_convert.go, v2/provider_adapter.go). */
module ErrorConvert {
  import opened Common
  import opened Kinds
  import opened ChainWalk
  import opened ErrorGraph
  import opened Classifier

  /** What decided a failure's kind. */
  datatype Source = FromLibrary | FromOperationError | FromCarrier

  datatype Verdict = Verdict(kind: Kind, source: Source, node: nat)

  // ---------------------------------------------------------------- the kind of a chain

  function AnyKidHas(h: Heap, kids: seq<Ref>, kind: InternalKind, fuel: nat): Run<bool> {
    if kids == [] then Done(false)
    else match KindOf(h, kids[0], fuel)
      case Hung => Hung
      case Done(found) => if found == kind then Done(true) else AnyKidHas(h, kids[1..], kind, fuel)
  }

  /** carriesKind, with the kind when it does. */
  function CarriedKind(h: Heap, id: nat, fuel: nat): Run<InternalKind>
    requires id < |h|
  {
    match KindOf(h, At(id), fuel)
    case Hung => Hung
    case Done(kind) =>
      if kind == KindUnknown then Done(KindUnknown)
      else match AnyKidHas(h, Unwrap(h[id]), kind, fuel)
        case Hung => Hung
        case Done(has) => Done(if has then KindUnknown else kind)
  }

  /** What the visit of classifiedBy makes of one error. */
  function VerdictOf(h: Heap, id: nat, fuel: nat): Run<Option<Verdict>>
    requires id < |h|
  {
    match h[id]
    case Lib(e, _) =>
      Done(if e.kind.Some? then Some(Verdict(e.kind.value, FromLibrary, id)) else None)
    case Bare(kind) =>
      Done(if kind.Some? then Some(Verdict(kind.value, FromLibrary, id)) else None)
    case Operation(kind, narrow, _, _, _, _, _, _, _) =>
      var known := KindFromInternal(kind, narrow);
      Done(if known.Some? then Some(Verdict(known.value, FromOperationError, id)) else None)
    case _ =>
      match CarriedKind(h, id, fuel)
      case Hung => Hung
      case Done(kind) =>
        var narrow := if h[id].Classified? then h[id].narrow else NarrowNone;
        var known := KindFromInternal(kind, narrow);
        Done(if kind != KindUnknown && known.Some? then Some(Verdict(known.value, FromCarrier, id)) else None)
  }

  /** The first error of `v` that decides a kind. */
  function FirstVerdict(h: Heap, v: seq<nat>, fuel: nat): Run<Option<Verdict>> {
    if v == [] then Done(None)
    else if v[0] >= |h| then FirstVerdict(h, v[1..], fuel)
    else match VerdictOf(h, v[0], fuel)
      case Hung => Hung
      case Done(None) => FirstVerdict(h, v[1..], fuel)
      case Done(Some(verdict)) => Done(Some(verdict))
  }

  function ClassifiedBy(h: Heap, e: Ref, fuel: nat): Run<Option<Verdict>> {
    FirstVerdict(h, Walk(GraphOf(h), e, MAX_CHAIN_NODES), fuel)
  }

  /** The kinds of plainSentinels, by index. */
  const PLAIN_SENTINELS: seq<Kind> := [
    ErrConfiguration, ErrConfiguration, ErrConfiguration, ErrPolicy, ErrPolicy, ErrPolicy, ErrInvalidAnswer,
    ErrInvalidAnswer, ErrUnavailable, ErrUnsupported, ErrUnsupported, ErrInternal, ErrInternal]

  const NO_MODEL_MAPPING: nat := 1
  const TRUST_BOUNDARY_VIOLATED: nat := 11
  const UNTRUSTED_IN_SYSTEM_PROMPT: nat := 12

  function SentinelKind(h: Heap, e: Ref, index: nat, fuel: nat): Run<Option<Kind>>
    decreases |PLAIN_SENTINELS| - index
  {
    if index >= |PLAIN_SENTINELS| then Done(None)
    else match Is(h, e, index, fuel)
      case Hung => Hung
      case Done(holds) => if holds then Done(Some(PLAIN_SENTINELS[index])) else SentinelKind(h, e, index + 1, fuel)
  }

  function IsTrustGuard(h: Heap, e: Ref, fuel: nat): Run<bool> {
    match Is(h, e, TRUST_BOUNDARY_VIOLATED, fuel)
    case Hung => Hung
    case Done(holds) => if holds then Done(true) else Is(h, e, UNTRUSTED_IN_SYSTEM_PROMPT, fuel)
  }

  function DecidedKind(host: Host, h: Heap, e: Ref, fuel: nat): Run<(Option<Kind>, Option<Verdict>)> {
    match ClassifiedBy(h, e, fuel)
    case Hung => Hung
    case Done(Some(decided)) =>
      if decided.source == FromLibrary then Done((Some(decided.kind), Some(decided)))
      else (match IsTrustGuard(h, e, fuel)
            case Hung => Hung
            case Done(guard) => Done((Some(if guard then ErrInternal else decided.kind), Some(decided))))
    case Done(None) =>
      match SentinelKind(h, e, 0, fuel)
      case Hung => Hung
      case Done(Some(kind)) => Done((Some(kind), None))
      case Done(None) =>
        match Classify(host, h, e, fuel)
        case Hung => Hung
        case Done(kind) => Done((KindFromInternal(kind, NarrowNone), None))
  }

  // ---------------------------------------------------------------- facts of a chain

  function RouteFacts(route: Route): Facts {
    NO_FACTS.(provider := route.provider, model := route.model, requestID := route.requestID,
              retryAfter := route.retryAfter)
  }

  /** The facts of factsOf before its message is put in the words of version 2. */
  function RawFacts(host: Host, h: Heap, e: Ref, decided: Option<Verdict>, fuel: nat): Run<Facts> {
    var f := FactsOver(h, Walk(GraphOf(h), e, MAX_CHAIN_NODES), host.letter);
    match CallOf(h, e, fuel)
    case Hung => Hung
    case Done(Some(route)) => Done(Fill(f, RouteFacts(route)))
    case Done(None) =>
      if decided.Some? && decided.value.source == FromCarrier
         && decided.value.kind in {ErrConfiguration, ErrInvalidRequest}
      then Done(f.(message := Or(f.message, host.text(h, decided.value.node))))
      else Done(f)
  }

  function FactsOf(host: Host, h: Heap, e: Ref, decided: Option<Verdict>, fuel: nat): Run<Facts> {
    match RawFacts(host, h, e, decided, fuel)
    case Hung => Hung
    case Done(f) =>
      if f.message == "" then Done(f)
      else match Is(h, e, NO_MODEL_MAPPING, fuel)
        case Hung => Hung
        case Done(noModel) =>
          var message := if noModel then host.noModelMessage(f.message) else f.message;
          Done(f.(message := host.inVersion2Words(message)))
  }

  // ---------------------------------------------------------------- the conversion

  /** An `*Error` with the fields it left empty taken from `op` and `f`. */
  function Filled(e: Failure, op: string, f: Facts): Failure {
    Failure(e.kind, Or(e.op, op), Or(e.provider, f.provider), Or(e.model, f.model),
            Or(e.requestID, f.requestID), OrInt(e.status, f.status), Or(e.code, f.code),
            OrInt(e.retryAfter, f.retryAfter), e.message)
  }

  /** completedError: the error itself when there is nothing to fill, and a copy that wraps it
      otherwise. */
  function Completed(host: Host, h: Heap, id: nat, op: string, fuel: nat): Run<(Heap, Ref)>
    requires id < |h| && h[id].Lib?
  {
    match FactsOf(host, h, h[id].err, None, fuel)
    case Hung => Hung
    case Done(f) =>
      var filled := Filled(h[id].failure, op, f);
      if filled == h[id].failure then Done((h, At(id)))
      else Done((h + [Lib(filled, At(id))], At(|h|)))
  }

  function Failed(kind: Kind, op: string, f: Facts): Failure {
    Failure(Some(kind), op, f.provider, f.model, f.requestID, f.status, f.code, f.retryAfter, f.message)
  }

  /** convertWith: what a caller is given for any error of the call path. */
  function ConvertWith(host: Host, h: Heap, op: string, e: Ref, unknown: Kind, fuel: nat): Run<(Heap, Ref)> {
    if e.Nil? then Done((h, Nil))
    else if e.id < |h| && h[e.id].Lib? && h[e.id].failure.kind.Some? then Completed(host, h, e.id, op, fuel)
    else match DecidedKind(host, h, e, fuel)
      case Hung => Hung
      case Done(d) =>
        match FactsOf(host, h, e, d.1, fuel)
        case Hung => Hung
        case Done(f) =>
          var kind := if d.0.Some? then d.0.value else unknown;
          Done((h + [Lib(Failed(kind, op, f), e)], At(|h|)))
  }

  /** convertError. */
  function ConvertError(host: Host, h: Heap, op: string, e: Ref, fuel: nat): Run<(Heap, Ref)> {
    ConvertWith(host, h, op, e, ErrInternal, fuel)
  }

  // ---------------------------------------------------------------- a provider's failure

  /** The kind a provider's failure travels under when no internal error decided it. */
  function FailureKind(host: Host, h: Heap, e: Ref, fuel: nat): Run<Kind> {
    match ClassifiedBy(h, e, fuel)
    case Hung => Hung
    case Done(Some(decided)) => Done(decided.kind)
    case Done(None) =>
      match Classify(host, h, e, fuel)
      case Hung => Hung
      case Done(kind) =>
        var known := KindFromInternal(kind, NarrowNone);
        Done(if known.Some? then known.value else ErrUnavailable)
  }

  /** The cause a provider's failure travels with: the failure, and a rate-limit error beside it
      when the failure states a wait no rate-limit error carries. */
  function CauseOf(h: Heap, e: Ref, f: Facts, provider: string, model: string, fuel: nat): Run<(Heap, Ref)> {
    if f.retryAfter <= 0 then Done((h, e))
    else match HoldsRateLimit(h, e, fuel)
      case Hung => Hung
      case Done(already) =>
        if already then Done((h, e))
        else Done((h + [Api(provider, model, f.status, ""), RateLimit(f.retryAfter, At(|h|)),
                        Foreign([e, At(|h| + 1)])], At(|h| + 2)))
  }

  /** providerFailure: the error the call path is given for a failure of a Provider. */
  function ProviderFailure(host: Host, h: Heap, e: Ref, provider: string, model: string, fuel: nat): Run<(Heap, Ref)> {
    if e.Nil? then Done((h, Nil))
    else match ClassifiedBy(h, e, fuel)
      case Hung => Hung
      case Done(decided) =>
        if decided.Some? && decided.value.source != FromLibrary then Done((h, e))
        else match FailureKind(host, h, e, fuel)
          case Hung => Hung
          case Done(kind) =>
            match FactsOf(host, h, e, None, fuel)
            case Hung => Hung
            case Done(f) =>
              match CauseOf(h, e, f, provider, model, fuel)
              case Hung => Hung
              case Done((h', cause)) =>
                var (internal, narrow) := KindToInternal(kind);
                Done((h' + [Operation(internal, narrow, "", Or(f.provider, provider), Or(f.model, model),
                                      f.requestID, f.retryAfter, "", cause)], At(|h'|)))
  }
}
