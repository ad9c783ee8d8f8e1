/** What a request comes to at each layer, attempt by attempt and route by route, and the names layers refuse under
    (v2/internal/runtime/mw/retry.go:129-221, fallback.go:226-284; v2/mw/mw.go:214-250). */
module LayerLaws {
  import opened Common
  import opened Kinds
  import opened ErrorGraph
  import opened ChainWalk
  import opened Classifier
  import opened ChainErrors
  import opened Readings
  import opened HandedErrors
  import opened EndedWaits
  import opened ChainLayers

  /** A failure that sending the request again can cure: a rate limit, an outage or a timeout. */
  ghost predicate CanBeCured(host: Host, a: Answer) {
    a.Failure? && AsRead(host, a.error).kind in {KindRateLimited, KindProviderUnavailable, KindTimeout}
  }

  /** The attempts before this one all failed in a way that can be cured, and no wait after them was ended. */
  ghost predicate SentAgain(w: World, l: Layer, f: Handler, r: Request, k: nat)
    requires l.Retry?
  {
    forall i: nat | i < k :: CanBeCured(w.host, f(l.next(r, i))) && l.over(r, i).None? && i + 1 < l.attempts
  }

  /** What a Retry comes to: the first attempt that is answered, or fails in a way that sending again cannot cure, or
      is the last there is; unless the context ends the wait for the next one, which is then told of the failure. */
  lemma RetryEnds(w: World, l: Layer, f: Handler, r: Request) returns (k: nat)
    requires l.Retry?
    ensures SentAgain(w, l, f, r, k)
    ensures var a := f(l.next(r, k));
      if CanBeCured(w.host, a) && k + 1 < l.attempts
      then l.over(r, k).Some? && Built(w, l, f)(r) == Answer.Failure(Ended(a.error, l.over(r, k).value))
      else Built(w, l, f)(r) == a
  {
    var going := Going(w.host, l, f, r);
    k := Last(going, l.attempts, 0);
    TriesEnd(w.host, l, f, r, 0, going);
    forall i: nat | i < k
      ensures CanBeCured(w.host, f(l.next(r, i))) && l.over(r, i).None? && i + 1 < l.attempts
    {
      assert going(i);
      WaitsOutIff(w.host, l, f, r, i);
    }
    WaitsOutIff(w.host, l, f, r, k);
  }

  lemma WaitsOutIff(host: Host, l: Layer, f: Handler, r: Request, i: nat)
    requires l.Retry?
    ensures WaitsOut(host, l, f, r, i) <==> CanBeCured(host, f(l.next(r, i))) && i + 1 < l.attempts
  {
  }

  /** What the routes up to one have come to: the last of them that was asked, or what came before them. */
  function LastOf(ways: seq<Way>, first: Answer, r: Request, k: nat): Answer
    requires k <= |ways|
  {
    if k == 0 then first
    else if ways[k - 1].asked(r) then ways[k - 1].handler(r) else LastOf(ways, first, r, k - 1)
  }

  /** Every answer before this route was a failure to go on from, under a context that was live. */
  ghost predicate WentOn(w: World, goesOn: Decisions -> bool, ways: seq<Way>, first: Answer, r: Request, k: nat)
    requires k <= |ways|
  {
    forall i: nat | i < k ::
      var last := LastOf(ways, first, r, i);
      last.Failure? && goesOn(DecisionsOf(AsRead(w.host, last.error))) && ways[i].over(r).None?
  }

  lemma {:induction false} LastOfRest(ways: seq<Way>, first: Answer, r: Request, k: nat)
    requires k < |ways|
    ensures LastOf(ways[1..], LastOf(ways, first, r, 1), r, k) == LastOf(ways, first, r, k + 1)
  {
    if k > 0 { LastOfRest(ways, first, r, k - 1); }
  }

  lemma {:induction false} OnwardEnds(w: World, goesOn: Decisions -> bool, ways: seq<Way>, first: Answer, r: Request)
      returns (k: nat)
    ensures k <= |ways| && WentOn(w, goesOn, ways, first, r, k)
    ensures var last, out := LastOf(ways, first, r, k), Onward(w.host, goesOn, ways, first, r);
      if last.Failure? && k < |ways| && goesOn(DecisionsOf(AsRead(w.host, last.error)))
      then ways[k].over(r).Some? && out == Answer.Failure(ContextError(ways[k].over(r).value))
      else out == last
    decreases |ways|
  {
    if ways == [] || first.Answer? || !goesOn(DecisionsOf(AsRead(w.host, first.error))) || ways[0].over(r).Some? {
      k := 0;
    } else {
      var next := LastOf(ways, first, r, 1);
      var j := OnwardEnds(w, goesOn, ways[1..], next, r);
      k := j + 1;
      forall i: nat | i < k ensures
        var last := LastOf(ways, first, r, i);
        last.Failure? && goesOn(DecisionsOf(AsRead(w.host, last.error))) && ways[i].over(r).None?
      {
        if i > 0 {
          LastOfRest(ways, first, r, i - 1);
          assert ways[i] == ways[1..][i - 1];
        }
      }
      LastOfRest(ways, first, r, j);
    }
  }

  /** What a Fallback or a Decisions comes to: the first answer, or the first failure that is not one to go on from, of
      what is under it and then of each route that may be asked, in their order; unless the context is over when a
      route is due, and then that it is. */
  lemma FailoverEnds(w: World, l: Layer, f: Handler, r: Request) returns (k: nat)
    requires l.Failover?
    ensures k <= |l.ways| && WentOn(w, l.goesOn, l.ways, f(r), r, k)
    ensures var last, out := LastOf(l.ways, f(r), r, k), Built(w, l, f)(r);
      if last.Failure? && k < |l.ways| && l.goesOn(DecisionsOf(AsRead(w.host, last.error)))
      then l.ways[k].over(r).Some? && out == Answer.Failure(ContextError(l.ways[k].over(r).value))
      else out == last
  {
    k := OnwardEnds(w, l.goesOn, l.ways, f(r), r);
  }

  /** A gate hands on what is under it for a request it admits, and refuses every other itself, with nothing asked. */
  lemma GateEnds(w: World, l: Layer, f: Handler, r: Request)
    requires l.Gate?
    ensures l.admits(r) ==> Built(w, l, f)(r) == f(r)
    ensures !l.admits(r) ==> Built(w, l, f)(r) == Answer.Failure(l.refusal(r))
  {
  }

  // ---------------------------------------------------------------- the names of refusals

  /** The layers, by the names the wrapped package gives their refusals. */
  const LAYERS: map<string, string> := map[
    "resilience.Bulkhead" := "mw.bulkhead", "resilience.CircuitBreaker" := "mw.breaker",
    "mw.RateLimit" := "mw.ratelimit", "mw.Budget" := "mw.budget", "mw.Retry" := "mw.retry",
    "mw.Decisions" := "mw.decisions", "mw.Cache" := "mw.cache", "hedge" := "mw.hedge",
    "mw.RedactEgress" := "mw.redact"]

  lemma LayersAreNamed(op: string)
    ensures LayerOp(op) == if op in LAYERS then LAYERS[op] else ""
  {
  }

  /** A refusal of a layer is told under the name of the layer, and another error of the call path under none. */
  lemma RefusalsAreNamed(host: Host, x: Error, n: nat)
    requires Whole(x, n) && x.heap[x.at.id].Operation? && n > 1
    requires x.heap[x.at.id].ikind != KindUnknown || x.heap[x.at.id].narrow != NarrowNone
    ensures Out(host, x, n).Done? && HasFailure(Out(host, x, n).value)
    ensures FailureOf(Out(host, x, n).value).op
      == if x.heap[x.at.id].op in LAYERS then LAYERS[x.heap[x.at.id].op] else ""
  {
    RefusalIsNamed(host, x, n);
    LayersAreNamed(x.heap[x.at.id].op);
  }
}
