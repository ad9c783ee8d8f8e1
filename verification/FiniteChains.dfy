/** On a chain that is finite, however long it is, every search ends, and so does its conversion and its
    relaying. */
module FiniteChains {
  import opened Common
  import opened Kinds
  import opened ChainWalk
  import opened ErrorGraph
  import opened Classifier
  import opened ErrorConvert

  lemma KindOfReturns(h: Heap, e: Ref, b: nat)
    requires Finite(h, e, b)
    ensures KindOf(h, e, b).Done?
  {
    PrunedFinishes(KindGraphOf(h), GraphOf(h), [e], b);
    SeekOfFinite(KindGraphOf(h), Kinded(h), [e], b, b);
  }

  lemma {:induction false} AnyKidHasReturns(h: Heap, kids: seq<Ref>, kind: InternalKind, b: nat)
    requires forall k | 0 <= k < |kids| :: Finite(h, kids[k], b)
    ensures AnyKidHas(h, kids, kind, b).Done?
  {
    if kids != [] {
      KindOfReturns(h, kids[0], b);
      AnyKidHasReturns(h, kids[1..], kind, b);
    }
  }

  lemma VerdictOfReturns(h: Heap, id: nat, b: nat)
    requires id < |h| && Finite(h, At(id), b)
    ensures VerdictOf(h, id, b).Done?
  {
    KindOfReturns(h, At(id), b);
    forall k | 0 <= k < |Unwrap(h[id])|
      ensures Finite(h, Unwrap(h[id])[k], b)
    {
      KidsFinish(GraphOf(h), id, b, k);
    }
    AnyKidHasReturns(h, Unwrap(h[id]), KindOf(h, At(id), b).value, b);
  }

  lemma {:induction false} FirstVerdictReturns(h: Heap, v: seq<nat>, b: nat)
    requires forall i | 0 <= i < |v| :: Finite(h, At(v[i]), b)
    ensures FirstVerdict(h, v, b).Done?
  {
    if v != [] {
      if v[0] < |h| { VerdictOfReturns(h, v[0], b); }
      FirstVerdictReturns(h, v[1..], b);
    }
  }

  /** Every error a walk of a finite chain visits is itself a finite chain. */
  lemma WalkedAreFinite(h: Heap, e: Ref, b: nat, n: nat, v: seq<nat>)
    requires Finite(h, e, b) && v == Walk(GraphOf(h), e, n)
    ensures forall i | 0 <= i < |v| :: Finite(h, At(v[i]), b)
  {
    var g := GraphOf(h);
    WalkIsPreOrder(g, e, n);
    if n <= b { SmallerBudgetSeesPrefix(g, [e], n, b); } else { FinishedSeesAll(g, [e], b, n); }
    forall i | 0 <= i < |v|
      ensures Finite(h, At(v[i]), b)
    {
      PartsFinish(g, [e], b, i);
    }
  }

  lemma ClassifiedByReturns(h: Heap, e: Ref, b: nat)
    requires Finite(h, e, b)
    ensures ClassifiedBy(h, e, b).Done?
  {
    var v := Walk(GraphOf(h), e, MAX_CHAIN_NODES);
    WalkedAreFinite(h, e, b, MAX_CHAIN_NODES, v);
    FirstVerdictReturns(h, v, b);
  }

  lemma ClassifyReturns(host: Host, h: Heap, e: Ref, b: nat)
    requires Finite(h, e, b)
    ensures Classify(host, h, e, b).Done?
  {
    KindOfReturns(h, e, b);
    SeekOfFinite(GraphOf(h), Canceled(h), [e], b, b);
    SeekOfFinite(GraphOf(h), Deadlines(h), [e], b, b);
    SeekOfFinite(GraphOf(h), Limits(h), [e], b, b);
    SeekOfFinite(GraphOf(h), Apis(h), [e], b, b);
    SeekOfFinite(GraphOf(h), Nets(h), [e], b, b);
  }

  lemma FactsOfReturns(host: Host, h: Heap, e: Ref, d: Option<Verdict>, b: nat)
    requires Finite(h, e, b)
    ensures FactsOf(host, h, e, d, b).Done?
  {
    SeekOfFinite(GraphOf(h), Routed(h), [e], b, b);
    SeekOfFinite(GraphOf(h), Sentinels(h, NO_MODEL_MAPPING), [e], b, b);
  }

  lemma {:induction false} SentinelKindReturns(h: Heap, e: Ref, index: nat, b: nat)
    requires Finite(h, e, b)
    ensures SentinelKind(h, e, index, b).Done?
    decreases |PLAIN_SENTINELS| - index
  {
    if index < |PLAIN_SENTINELS| {
      SeekOfFinite(GraphOf(h), Sentinels(h, index), [e], b, b);
      SentinelKindReturns(h, e, index + 1, b);
    }
  }

  lemma DecidedKindReturns(host: Host, h: Heap, e: Ref, b: nat)
    requires Finite(h, e, b)
    ensures DecidedKind(host, h, e, b).Done?
  {
    ClassifiedByReturns(h, e, b);
    SeekOfFinite(GraphOf(h), Sentinels(h, TRUST_BOUNDARY_VIOLATED), [e], b, b);
    SeekOfFinite(GraphOf(h), Sentinels(h, UNTRUSTED_IN_SYSTEM_PROMPT), [e], b, b);
    SentinelKindReturns(h, e, 0, b);
    ClassifyReturns(host, h, e, b);
  }

  /** A finite chain is always converted. */
  lemma FiniteConverts(host: Host, h: Heap, op: string, e: Ref, unknown: Kind, b: nat)
    requires Finite(h, e, b)
    ensures ConvertWith(host, h, op, e, unknown, b).Done?
  {
    if e.At? {
      if e.id < |h| && h[e.id].Lib? {
        KidsFinish(GraphOf(h), e.id, b, 0);
        FactsOfReturns(host, h, h[e.id].err, None, b);
      }
      DecidedKindReturns(host, h, e, b);
      FactsOfReturns(host, h, e, DecidedKind(host, h, e, b).value.1, b);
    }
  }

  /** And always relayed. */
  lemma FiniteFails(host: Host, h: Heap, e: Ref, provider: string, model: string, b: nat)
    requires Finite(h, e, b)
    ensures ProviderFailure(host, h, e, provider, model, b).Done?
  {
    ClassifiedByReturns(h, e, b);
    ClassifyReturns(host, h, e, b);
    FactsOfReturns(host, h, e, None, b);
    SeekOfFinite(GraphOf(h), Limits(h), [e], b, b);
  }
}
