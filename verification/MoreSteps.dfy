/** What a search, a conversion or a relaying returns does not depend on how many steps it was given: with more
    it returns the same. */
module MoreSteps {
  import opened Common
  import opened Kinds
  import opened ChainWalk
  import opened ErrorGraph
  import opened Classifier
  import opened ErrorConvert

  lemma SeekStays(g: Graph, goals: set<nat>, e: Ref, fuel: nat, more: nat)
    requires fuel <= more
    ensures Seek(g, goals, [e], fuel).Running? || Seek(g, goals, [e], more) == Seek(g, goals, [e], fuel)
  {
    if !Seek(g, goals, [e], fuel).Running? { SeekIsStable(g, goals, [e], fuel, more); }
  }

  lemma KindStays(h: Heap, e: Ref, fuel: nat, more: nat)
    requires fuel <= more
    ensures KindOf(h, e, fuel).Hung? || KindOf(h, e, more) == KindOf(h, e, fuel)
  {
    SeekStays(KindGraphOf(h), Kinded(h), e, fuel, more);
  }

  lemma {:induction false} AnyKidStays(h: Heap, kids: seq<Ref>, kind: InternalKind, fuel: nat, more: nat)
    requires fuel <= more
    ensures AnyKidHas(h, kids, kind, fuel).Hung? || AnyKidHas(h, kids, kind, more) == AnyKidHas(h, kids, kind, fuel)
  {
    if kids != [] {
      KindStays(h, kids[0], fuel, more);
      AnyKidStays(h, kids[1..], kind, fuel, more);
    }
  }

  lemma VerdictStays(h: Heap, id: nat, fuel: nat, more: nat)
    requires id < |h| && fuel <= more
    ensures VerdictOf(h, id, fuel).Hung? || VerdictOf(h, id, more) == VerdictOf(h, id, fuel)
  {
    KindStays(h, At(id), fuel, more);
    if KindOf(h, At(id), fuel).Done? { AnyKidStays(h, Unwrap(h[id]), KindOf(h, At(id), fuel).value, fuel, more); }
  }

  lemma {:induction false} FirstVerdictStays(h: Heap, v: seq<nat>, fuel: nat, more: nat)
    requires fuel <= more
    ensures FirstVerdict(h, v, fuel).Hung? || FirstVerdict(h, v, more) == FirstVerdict(h, v, fuel)
  {
    if v != [] {
      if v[0] < |h| { VerdictStays(h, v[0], fuel, more); }
      FirstVerdictStays(h, v[1..], fuel, more);
    }
  }

  lemma ClassifiedByStays(h: Heap, e: Ref, fuel: nat, more: nat)
    requires fuel <= more
    ensures ClassifiedBy(h, e, fuel).Hung? || ClassifiedBy(h, e, more) == ClassifiedBy(h, e, fuel)
  {
    FirstVerdictStays(h, Walk(GraphOf(h), e, MAX_CHAIN_NODES), fuel, more);
  }

  lemma IsStays(h: Heap, e: Ref, index: nat, fuel: nat, more: nat)
    requires fuel <= more
    ensures Is(h, e, index, fuel).Hung? || Is(h, e, index, more) == Is(h, e, index, fuel)
  {
    SeekStays(GraphOf(h), Sentinels(h, index), e, fuel, more);
  }

  lemma TrustGuardStays(h: Heap, e: Ref, fuel: nat, more: nat)
    requires fuel <= more
    ensures IsTrustGuard(h, e, fuel).Hung? || IsTrustGuard(h, e, more) == IsTrustGuard(h, e, fuel)
  {
    IsStays(h, e, TRUST_BOUNDARY_VIOLATED, fuel, more);
    IsStays(h, e, UNTRUSTED_IN_SYSTEM_PROMPT, fuel, more);
  }

  lemma {:induction false} SentinelKindStays(h: Heap, e: Ref, index: nat, fuel: nat, more: nat)
    requires fuel <= more
    ensures SentinelKind(h, e, index, fuel).Hung? || SentinelKind(h, e, index, more) == SentinelKind(h, e, index, fuel)
    decreases |PLAIN_SENTINELS| - index
  {
    if index < |PLAIN_SENTINELS| {
      IsStays(h, e, index, fuel, more);
      SentinelKindStays(h, e, index + 1, fuel, more);
    }
  }

  lemma TransportStays(host: Host, h: Heap, e: Ref, fuel: nat, more: nat)
    requires fuel <= more
    ensures KindOfTransport(host, h, e, fuel).Hung? || KindOfTransport(host, h, e, more)
      == KindOfTransport(host, h, e, fuel)
  {
    SeekStays(GraphOf(h), Limits(h), e, fuel, more);
    SeekStays(GraphOf(h), Apis(h), e, fuel, more);
    SeekStays(GraphOf(h), Nets(h), e, fuel, more);
  }

  lemma ClassifyStays(host: Host, h: Heap, e: Ref, fuel: nat, more: nat)
    requires fuel <= more
    ensures Classify(host, h, e, fuel).Hung? || Classify(host, h, e, more) == Classify(host, h, e, fuel)
  {
    KindStays(h, e, fuel, more);
    SeekStays(GraphOf(h), Canceled(h), e, fuel, more);
    SeekStays(GraphOf(h), Deadlines(h), e, fuel, more);
    TransportStays(host, h, e, fuel, more);
  }

  lemma NarrowingStays(h: Heap, e: Ref, fuel: nat, more: nat)
    requires fuel <= more
    ensures NarrowingOf(h, e, fuel).Hung? || NarrowingOf(h, e, more) == NarrowingOf(h, e, fuel)
  {
    SeekStays(GraphOf(h), Marking(h), e, fuel, more);
  }

  lemma DecidedStays(host: Host, h: Heap, e: Ref, fuel: nat, more: nat)
    requires fuel <= more
    ensures DecidedKind(host, h, e, fuel).Hung? || DecidedKind(host, h, e, more) == DecidedKind(host, h, e, fuel)
  {
    ClassifiedByStays(h, e, fuel, more);
    TrustGuardStays(h, e, fuel, more);
    SentinelKindStays(h, e, 0, fuel, more);
    ClassifyStays(host, h, e, fuel, more);
  }

  lemma FactsStay(host: Host, h: Heap, e: Ref, d: Option<Verdict>, fuel: nat, more: nat)
    requires fuel <= more
    ensures FactsOf(host, h, e, d, fuel).Hung? || FactsOf(host, h, e, d, more) == FactsOf(host, h, e, d, fuel)
  {
    SeekStays(GraphOf(h), Routed(h), e, fuel, more);
    IsStays(h, e, NO_MODEL_MAPPING, fuel, more);
  }

  /** The same conversion, with more steps. */
  lemma ConversionStays(host: Host, h: Heap, op: string, e: Ref, unknown: Kind, fuel: nat, more: nat)
    requires fuel <= more
    ensures ConvertWith(host, h, op, e, unknown, fuel).Hung?
         || ConvertWith(host, h, op, e, unknown, more) == ConvertWith(host, h, op, e, unknown, fuel)
  {
    if e.At? {
      if e.id < |h| && h[e.id].Lib? && h[e.id].failure.kind.Some? {
        FactsStay(host, h, h[e.id].err, None, fuel, more);
      } else {
        DecidedStays(host, h, e, fuel, more);
        if DecidedKind(host, h, e, fuel).Done? {
          FactsStay(host, h, e, DecidedKind(host, h, e, fuel).value.1, fuel, more);
        }
      }
    }
  }

  /** The same relaying, with more steps. */
  lemma RelayingStays(host: Host, h: Heap, e: Ref, provider: string, model: string, fuel: nat, more: nat)
    requires fuel <= more
    ensures ProviderFailure(host, h, e, provider, model, fuel).Hung?
         || ProviderFailure(host, h, e, provider, model, more) == ProviderFailure(host, h, e, provider, model, fuel)
  {
    ClassifiedByStays(h, e, fuel, more);
    ClassifyStays(host, h, e, fuel, more);
    FactsStay(host, h, e, None, fuel, more);
    SeekStays(GraphOf(h), Limits(h), e, fuel, more);
  }
}
