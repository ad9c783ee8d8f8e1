/** Which kind is told of which error, kind by kind: what a caller is given for an error of the call path, for a
    sentinel, for a failure of a transport, and what a provider's failure travels as
    (v2/errors_convert.go, v2/provider_adapter.go, v2/internal/llm/classify.go). */
module KindLaws {
  import opened Common
  import opened Kinds
  import opened ChainWalk
  import opened ErrorGraph
  import opened Classifier
  import opened ErrorConvert

  // ---------------------------------------------------------------- what is in a chain

  /** An error that is one of these is among the errors of the chain. */
  ghost predicate Holds(h: Heap, e: Ref, fuel: nat, wanted: set<Node>) {
    var v := PreOrder(GraphOf(h), [e], fuel);
    exists i :: 0 <= i < |v| && v[i] < |h| && h[v[i]] in wanted
  }

  lemma {:induction false} NoneStopsIff(v: seq<nat>, stops: set<nat>)
    ensures NoneStops(v, stops) <==> forall i | 0 <= i < |v| :: v[i] !in stops
  {
    if v != [] { NoneStopsIff(v[1..], stops); }
  }

  lemma IsHolds(h: Heap, e: Ref, index: nat, fuel: nat)
    requires Is(h, e, index, fuel).Done?
    ensures Is(h, e, index, fuel).value <==> Holds(h, e, fuel, {Sentinel(index)})
  {
    SeekIsFirstGoal(GraphOf(h), Sentinels(h, index), [e], fuel);
    NoneStopsIff(PreOrder(GraphOf(h), [e], fuel), Sentinels(h, index));
  }

  // ---------------------------------------------------------------- an error of the call path

  /** The error has this kind and this mark itself: an OperationError, a carrier around errors of other kinds,
      a review, or the sentinel of a kind. */
  predicate HasItself(h: Heap, id: nat, kind: InternalKind, narrow: Narrowing, fuel: nat) {
    && id < |h|
    && match h[id]
       case Operation(k, mark, _, _, _, _, _, _, _) =>
         k == kind && mark == narrow && (kind != KindUnknown || narrow != NarrowNone)
       case Classified(k, mark, _, err) =>
         && k == kind && mark == narrow && kind != KindUnknown
         && KindOf(h, err, fuel).Done? && KindOf(h, err, fuel).value != kind
       case Review => kind == KindReviewRequired && narrow == NarrowNone
       case KindSentinel(k) => k == kind && kind != KindUnknown && narrow == NarrowNone
       case _ => false
  }

  lemma CarrierDecides(h: Heap, id: nat, kind: InternalKind, narrow: Narrowing, fuel: nat)
    requires HasItself(h, id, kind, narrow, fuel) && ClassifiedBy(h, At(id), fuel).Done?
    ensures KindFromInternal(kind, narrow).Some?
    ensures var d := ClassifiedBy(h, At(id), fuel).value;
      d.Some? && d.value.source != FromLibrary && Some(d.value.kind) == KindFromInternal(kind, narrow)
  {
    var v := Walk(GraphOf(h), At(id), MAX_CHAIN_NODES);
    assert v[0] == id;
    assert VerdictOf(h, id, fuel).Done?;
    if !h[id].Operation? { CarriedIs(h, id, kind, narrow, fuel); }
  }

  lemma CarriedIs(h: Heap, id: nat, kind: InternalKind, narrow: Narrowing, fuel: nat)
    requires HasItself(h, id, kind, narrow, fuel) && !h[id].Operation? && CarriedKind(h, id, fuel).Done?
    ensures CarriedKind(h, id, fuel) == Done(kind)
  {
    assert id in Kinded(h) && OwnKind(h[id]) == kind;
    assert KindOf(h, At(id), fuel) == Done(kind);
    if h[id].Classified? {
      assert [h[id].err][1..] == [];
      assert AnyKidHas(h, [h[id].err], kind, fuel) == Done(false);
    }
  }

  /** A conversion made one new *Error around the error, of this kind. */
  predicate Tells(h: Heap, e: Ref, op: string, r: Run<(Heap, Ref)>, told: Kind) {
    && r.Done? && r.value.1 == At(|h|) && |r.value.0| == |h| + 1 && h <= r.value.0
    && r.value.0[|h|].Lib? && r.value.0[|h|].err == e
    && r.value.0[|h|].failure.op == op && r.value.0[|h|].failure.kind == Some(told)
  }

  lemma CarrierIsConverted(host: Host, h: Heap, op: string, id: nat, kind: InternalKind, narrow: Narrowing, fuel: nat)
      returns (told: Kind)
    requires HasItself(h, id, kind, narrow, fuel) && ConvertError(host, h, op, At(id), fuel).Done?
    ensures Tells(h, At(id), op, ConvertError(host, h, op, At(id), fuel), told)
    ensures if Holds(h, At(id), fuel, {Sentinel(11), Sentinel(12)}) then told == ErrInternal
            else Some(told) == KindFromInternal(kind, narrow)
  {
    CarrierDecides(h, id, kind, narrow, fuel);
    assert IsTrustGuard(h, At(id), fuel).Done?;
    GuardIsHeld(h, At(id), fuel);
    told := if IsTrustGuard(h, At(id), fuel).value then ErrInternal else KindFromInternal(kind, narrow).value;
  }

  /** A kind that can be told stands for these kinds of the call path, when no mark narrows them. */
  predicate StandsFor(told: Kind, kind: InternalKind) {
    match told
    case ErrConfiguration => kind == KindConfiguration
    case ErrInvalidRequest => kind == KindInvalidRequest
    case ErrUnsupported => kind == KindUnsupportedCapability
    case ErrUnauthorized => kind == KindAuthentication || kind == KindPermission
    case ErrPolicy => kind == KindPolicyViolation
    case ErrBudgetExceeded => kind == KindBudgetExceeded
    case ErrBusy => kind == KindAdmissionRejected
    case ErrRateLimited => kind == KindRateLimited
    case ErrUnavailable => kind == KindProviderUnavailable || kind == KindCircuitOpen
    case ErrTimeout => kind == KindTimeout
    case ErrCanceled => kind == KindCanceled
    case ErrClosed => kind == KindShutdown
    case ErrTooLarge => kind == KindContextTooLarge
    case ErrTruncated => kind == KindOutputTruncated
    case ErrInvalidAnswer =>
      || kind == KindMalformedOutput || kind == KindSchemaViolation || kind == KindBatchProtocolViolation
      || kind == KindInvariantViolation || kind == KindEvidenceViolation || kind == KindRepairExhausted
    case ErrReviewRequired => kind == KindReviewRequired
    case ErrRefused => false
    case ErrInternal => false
  }

  /** And no two of them for the same. */
  lemma OneStandsFor(told: Kind, other: Kind, kind: InternalKind)
    requires StandsFor(told, kind) && StandsFor(other, kind)
    ensures told == other
  {
  }

  lemma KindStandsFor(told: Kind, kind: InternalKind)
    requires KindFromInternal(kind, NarrowNone) == Some(told)
    ensures StandsFor(told, kind)
  {
  }

  /** What a caller is told of an error of the call path. One of the guards' sentinels anywhere in its chain makes
      a defect of it; else a mark says what it is, and else its kind does: each kind has one that stands for it. */
  lemma ErrorIsTold(host: Host, h: Heap, op: string, id: nat, kind: InternalKind, narrow: Narrowing, fuel: nat)
      returns (told: Kind)
    requires HasItself(h, id, kind, narrow, fuel) && ConvertError(host, h, op, At(id), fuel).Done?
    ensures Tells(h, At(id), op, ConvertError(host, h, op, At(id), fuel), told)
    ensures if Holds(h, At(id), fuel, {Sentinel(11), Sentinel(12)}) then told == ErrInternal
      else if narrow == NarrowRefusal then told == ErrRefused
      else if narrow == NarrowPanic then told == ErrInternal
      else StandsFor(told, kind)
  {
    told := CarrierIsConverted(host, h, op, id, kind, narrow, fuel);
    if Some(told) == KindFromInternal(kind, NarrowNone) { KindStandsFor(told, kind); }
  }

  lemma GuardIsHeld(h: Heap, e: Ref, fuel: nat)
    requires IsTrustGuard(h, e, fuel).Done?
    ensures IsTrustGuard(h, e, fuel).value <==> Holds(h, e, fuel, {Sentinel(11), Sentinel(12)})
  {
    IsHolds(h, e, 11, fuel);
    if Is(h, e, 12, fuel).Done? { IsHolds(h, e, 12, fuel); }
    assert Holds(h, e, fuel, {Sentinel(11), Sentinel(12)}) <==>
      Holds(h, e, fuel, {Sentinel(11)}) || Holds(h, e, fuel, {Sentinel(12)});
  }

  // ---------------------------------------------------------------- an error that nothing classified

  /** The search through the list, from an entry on, ends at the first that the chain holds, or at the end. */
  lemma {:induction false} SentinelKindIs(h: Heap, e: Ref, index: nat, fuel: nat) returns (i: nat)
    requires SentinelKind(h, e, index, fuel).Done? && index <= |PLAIN_SENTINELS|
    ensures index <= i <= |PLAIN_SENTINELS| && forall j: nat | index <= j < i :: !Holds(h, e, fuel, {Sentinel(j)})
    ensures if i < |PLAIN_SENTINELS|
      then Holds(h, e, fuel, {Sentinel(i)}) && SentinelKind(h, e, index, fuel) == Done(Some(PLAIN_SENTINELS[i]))
      else SentinelKind(h, e, index, fuel) == Done(None)
    decreases |PLAIN_SENTINELS| - index
  {
    i := index;
    if index < |PLAIN_SENTINELS| {
      IsHolds(h, e, index, fuel);
      if Is(h, e, index, fuel) == Done(false) { i := SentinelKindIs(h, e, index + 1, fuel); }
    }
  }

  lemma SentinelStandsFor(index: nat)
    requires index < 13
    ensures |PLAIN_SENTINELS| == 13
    ensures PLAIN_SENTINELS[index] ==
      if index < 3 then ErrConfiguration
      else if index < 6 then ErrPolicy
      else if index < 8 then ErrInvalidAnswer
      else if index < 9 then ErrUnavailable
      else if index < 11 then ErrUnsupported
      else ErrInternal
  {
  }

  /** What a caller is told of a chain that nothing classified and that holds a sentinel of the internal
      packages: the first of the list that is anywhere in the chain decides. */
  lemma SentinelIsTold(host: Host, h: Heap, op: string, e: Ref, index: nat, fuel: nat) returns (told: Kind)
    requires e.At? && ClassifiedBy(h, e, fuel) == Done(None) && ConvertError(host, h, op, e, fuel).Done?
    requires index < 13 && Holds(h, e, fuel, {Sentinel(index)})
    requires forall j: nat | j < index :: !Holds(h, e, fuel, {Sentinel(j)})
    ensures Tells(h, e, op, ConvertError(host, h, op, e, fuel), told)
    ensures told ==
      if index < 3 then ErrConfiguration
      else if index < 6 then ErrPolicy
      else if index < 8 then ErrInvalidAnswer
      else if index < 9 then ErrUnavailable
      else if index < 11 then ErrUnsupported
      else ErrInternal
  {
    if e.id < |h| { LibraryIsClassified(h, e, fuel); }
    SentinelStandsFor(index);
    assert SentinelKind(h, e, 0, fuel).Done?;
    var i := SentinelKindIs(h, e, 0, fuel);
    assert i == index;
    told := PLAIN_SENTINELS[index];
  }

  lemma LibraryIsClassified(h: Heap, e: Ref, fuel: nat)
    requires e.At? && e.id < |h|
    ensures h[e.id].Lib? && h[e.id].failure.kind.Some? ==>
      ClassifiedBy(h, e, fuel) == Done(Some(Verdict(h[e.id].failure.kind.value, FromLibrary, e.id)))
    ensures h[e.id].Bare? && h[e.id].kind.Some? ==>
      ClassifiedBy(h, e, fuel) == Done(Some(Verdict(h[e.id].kind.value, FromLibrary, e.id)))
  {
    assert Walk(GraphOf(h), e, MAX_CHAIN_NODES)[0] == e.id;
  }

  /** What is told of an HTTP status. */
  function ToldOfStatus(status: int): Option<Kind> {
    if status == 401 || status == 403 then Some(ErrUnauthorized)
    else if status == 429 then Some(ErrRateLimited)
    else if status == 413 then Some(ErrTooLarge)
    else if status == 408 || status == 504 then Some(ErrTimeout)
    else if status == 409 || status >= 500 then Some(ErrUnavailable)
    else if status >= 400 then Some(ErrInvalidRequest)
    else None
  }

  lemma StatusIsRead(status: int)
    ensures KindFromInternal(KindForStatus(status), NarrowNone) == ToldOfStatus(status)
  {
  }

  /** What a rate-limit error is told as: its status's kind, and a rate limit where it has none. */
  function ToldOfLimit(h: Heap, id: nat): Kind
    requires id < |h| && h[id].RateLimit?
  {
    var told := if h[id].err.At? && h[id].err.id < |h| && h[h[id].err.id].Api?
      then ToldOfStatus(h[h[id].err.id].status) else None;
    if told.Some? then told.value else ErrRateLimited
  }

  /** What one of the library's own phrases is told as. */
  function ToldOfText(host: Host, text: string): Option<Kind> {
    if host.says(text, NoProvider) || host.says(text, NoDefaultModel) || host.says(text, NoModelMapping)
      then Some(ErrConfiguration)
    else if host.says(text, DeadlineExceeded) then Some(ErrTimeout)
    else if host.says(text, ContextCanceled) then Some(ErrCanceled)
    else if host.says(text, CostBudget) then Some(ErrBudgetExceeded)
    else None
  }

  /** The first error of a chain that is one of these. */
  function First(h: Heap, e: Ref, fuel: nat, goals: set<nat>): Option<nat> {
    match Seek(GraphOf(h), goals, [e], fuel)
    case Found(id) => Some(id)
    case _ => None
  }

  /** What is told of a chain that carries no kind: that its context was cancelled or ran out, wherever that is in
      it; else what its first rate-limit error says, or its first HTTP error, or its first network error, in this
      order; and else what its text does. */
  function ToldOfTransport(host: Host, h: Heap, e: Ref, fuel: nat): Option<Kind>
    requires e.At?
  {
    var limit := First(h, e, fuel, set i | 0 <= i < |h| && h[i].RateLimit?);
    var api := First(h, e, fuel, set i | 0 <= i < |h| && h[i].Api?);
    var net := First(h, e, fuel, set i | 0 <= i < |h| && h[i].Network?);
    if First(h, e, fuel, set i | 0 <= i < |h| && h[i] == ContextOver(false)).Some? then Some(ErrCanceled)
    else if First(h, e, fuel, set i | 0 <= i < |h| && h[i] == ContextOver(true)).Some? then Some(ErrTimeout)
    else if limit.Some? then
      if limit.value < |h| && h[limit.value].RateLimit? then Some(ToldOfLimit(h, limit.value)) else None
    else if api.Some? then
      if api.value < |h| && h[api.value].Api? then ToldOfStatus(h[api.value].status) else None
    else if net.Some? then
      if net.value < |h| && h[net.value].Network? && h[net.value].timeout then Some(ErrTimeout)
      else Some(ErrUnavailable)
    else ToldOfText(host, host.text(h, e.id))
  }

  lemma TransportIsRead(host: Host, h: Heap, e: Ref, fuel: nat)
    requires e.At? && KindUnderneath(host, h, e, fuel).Done?
    ensures KindFromInternal(KindUnderneath(host, h, e, fuel).value, NarrowNone) == ToldOfTransport(host, h, e, fuel)
  {
    FoundIsGoal(GraphOf(h), Limits(h), [e], fuel);
    FoundIsGoal(GraphOf(h), Apis(h), [e], fuel);
    var limit, api := Seek(GraphOf(h), Limits(h), [e], fuel), Seek(GraphOf(h), Apis(h), [e], fuel);
    if limit.Found? { LimitIsRead(h, limit.id); }
    if api.Found? { StatusIsRead(h[api.id].status); }
  }

  lemma LimitIsRead(h: Heap, id: nat)
    requires id < |h| && h[id].RateLimit?
    ensures KindFromInternal(LimitKind(h, id), NarrowNone) == Some(ToldOfLimit(h, id))
  {
    if h[id].err.At? && h[id].err.id < |h| && h[h[id].err.id].Api? { StatusIsRead(h[h[id].err.id].status); }
  }

  /** What a caller is told of a chain that nothing classified and that holds no sentinel: what a kind found
      beyond the errors that are walked says, or what the transport does, and else that it is a defect. */
  lemma TransportIsTold(host: Host, h: Heap, op: string, e: Ref, fuel: nat) returns (told: Kind)
    requires e.At? && ClassifiedBy(h, e, fuel) == Done(None) && ConvertError(host, h, op, e, fuel).Done?
    requires forall j: nat | j < 13 :: !Holds(h, e, fuel, {Sentinel(j)})
    ensures Tells(h, e, op, ConvertError(host, h, op, e, fuel), told) && KindOf(h, e, fuel).Done?
    ensures if KindOf(h, e, fuel).value != KindUnknown then StandsFor(told, KindOf(h, e, fuel).value)
      else Some(told) == if ToldOfTransport(host, h, e, fuel).Some? then ToldOfTransport(host, h, e, fuel)
                         else Some(ErrInternal)
  {
    if e.id < |h| { LibraryIsClassified(h, e, fuel); }
    assert SentinelKind(h, e, 0, fuel).Done?;
    var i := SentinelKindIs(h, e, 0, fuel);
    assert Classify(host, h, e, fuel).Done?;
    var known := KindFromInternal(Classify(host, h, e, fuel).value, NarrowNone);
    told := if known.Some? then known.value else ErrInternal;
    if KindOf(h, e, fuel).value != KindUnknown {
      KindStandsFor(told, KindOf(h, e, fuel).value);
    } else {
      TransportIsRead(host, h, e, fuel);
    }
  }

  // ---------------------------------------------------------------- the mark of a chain

  /** The mark that is read of a chain: that of its first OperationError, or of a carrier with a mark before it; a
      carrier without one says nothing, and an OperationError without one says there is none. */
  lemma MarkIsRead(h: Heap, e: Ref, fuel: nat)
    requires NarrowingOf(h, e, fuel).Done?
    ensures
      var marking := set i | 0 <= i < |h| && (h[i].Operation? || (h[i].Classified? && h[i].narrow != NarrowNone));
      match First(h, e, fuel, marking)
      case None => NarrowingOf(h, e, fuel).value == NarrowNone
      case Some(id) =>
        && id < |h| && (h[id].Operation? || (h[id].Classified? && h[id].narrow != NarrowNone))
        && NarrowingOf(h, e, fuel).value == h[id].narrow
  {
    FoundIsGoal(GraphOf(h), Marking(h), [e], fuel);
  }

  // ---------------------------------------------------------------- what a provider's failure travels as

  /** The kind of the call path, and the mark, that a kind travels under. */
  predicate TravelsAs(told: Kind, kind: InternalKind, narrow: Narrowing) {
    match told
    case ErrRefused => kind == KindPolicyViolation && narrow == NarrowRefusal
    case ErrInternal => kind == KindInvariantViolation && narrow == NarrowPanic
    case ErrConfiguration => kind == KindConfiguration && narrow == NarrowNone
    case ErrInvalidRequest => kind == KindInvalidRequest && narrow == NarrowNone
    case ErrUnsupported => kind == KindUnsupportedCapability && narrow == NarrowNone
    case ErrUnauthorized => kind == KindAuthentication && narrow == NarrowNone
    case ErrPolicy => kind == KindPolicyViolation && narrow == NarrowNone
    case ErrBudgetExceeded => kind == KindBudgetExceeded && narrow == NarrowNone
    case ErrBusy => kind == KindAdmissionRejected && narrow == NarrowNone
    case ErrRateLimited => kind == KindRateLimited && narrow == NarrowNone
    case ErrUnavailable => kind == KindProviderUnavailable && narrow == NarrowNone
    case ErrTimeout => kind == KindTimeout && narrow == NarrowNone
    case ErrCanceled => kind == KindCanceled && narrow == NarrowNone
    case ErrClosed => kind == KindShutdown && narrow == NarrowNone
    case ErrTooLarge => kind == KindContextTooLarge && narrow == NarrowNone
    case ErrTruncated => kind == KindOutputTruncated && narrow == NarrowNone
    case ErrInvalidAnswer => kind == KindMalformedOutput && narrow == NarrowNone
    case ErrReviewRequired => kind == KindReviewRequired && narrow == NarrowNone
  }

  lemma KindTravelsAs(told: Kind)
    ensures TravelsAs(told, KindToInternal(told).0, KindToInternal(told).1)
  {
  }

  /** What a provider's failure that no internal error decided travels as: under the kind its *Error or its bare
      Kind has, the kind the transport tells, or, when nothing is known of it, that the provider is unavailable. */
  lemma FailureTravelsAs(host: Host, h: Heap, e: Ref, provider: string, model: string, fuel: nat)
      returns (told: Kind, o: nat)
    requires e.At? && e.id < |h| && ProviderFailure(host, h, e, provider, model, fuel).Done?
    requires (h[e.id].Lib? && h[e.id].failure.kind.Some?) || (h[e.id].Bare? && h[e.id].kind.Some?)
      || ClassifiedBy(h, e, fuel) == Done(None)
    ensures var (h2, r) := ProviderFailure(host, h, e, provider, model, fuel).value;
      h <= h2 && |h| <= o < |h2| && r == At(o) && h2[o].Operation? && TravelsAs(told, h2[o].ikind, h2[o].narrow)
    ensures h[e.id].Lib? && h[e.id].failure.kind.Some? ==> told == h[e.id].failure.kind.value
    ensures h[e.id].Bare? && h[e.id].kind.Some? ==> told == h[e.id].kind.value
    ensures ClassifiedBy(h, e, fuel) == Done(None) ==> KindOf(h, e, fuel).Done?
    ensures ClassifiedBy(h, e, fuel) == Done(None) ==>
      if KindOf(h, e, fuel).value != KindUnknown then StandsFor(told, KindOf(h, e, fuel).value)
      else Some(told) == if ToldOfTransport(host, h, e, fuel).Some? then ToldOfTransport(host, h, e, fuel)
                         else Some(ErrUnavailable)
  {
    LibraryIsClassified(h, e, fuel);
    told := FailureKind(host, h, e, fuel).value;
    KindTravelsAs(told);
    o := |ProviderFailure(host, h, e, provider, model, fuel).value.0| - 1;
    if ClassifiedBy(h, e, fuel) == Done(None) {
      if KindOf(h, e, fuel).value != KindUnknown {
        KindStandsFor(told, KindOf(h, e, fuel).value);
      } else {
        TransportIsRead(host, h, e, fuel);
      }
    }
  }
}
