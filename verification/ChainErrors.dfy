/** Errors on their way through a chain of middleware: what a wrapper hands its caller, and what the next wrapper
    takes of that when the two are joined through the types of the root package (v2/mw/mw.go:197-250;
    v2/provider_adapter.go:228-241, 330-388). */
module ChainErrors {
  import opened Common
  import opened Kinds
  import opened ChainWalk
  import opened ErrorGraph
  import opened Classifier
  import opened ErrorConvert
  import opened ErrorConvertLaws
  import opened FiniteChains
  import opened MoreSteps
  import opened ProviderRoundTrip

  /** An error, with all that is in its chain. */
  datatype Error = Error(heap: Heap, at: Ref)

  // ---------------------------------------------------------------- out of a wrapper

  /** The names of the layers, by the names the wrapped package gives their refusals. */
  function LayerOp(op: string): string {
    if op == "resilience.Bulkhead" then "mw.bulkhead"
    else if op == "resilience.CircuitBreaker" then "mw.breaker"
    else if op == "mw.RateLimit" then "mw.ratelimit"
    else if op == "mw.Budget" then "mw.budget"
    else if op == "mw.Retry" then "mw.retry"
    else if op == "mw.Decisions" then "mw.decisions"
    else if op == "mw.Cache" then "mw.cache"
    else if op == "hedge" then "mw.hedge"
    else if op == "mw.RedactEgress" then "mw.redact"
    else ""
  }

  function Operations(h: Heap): set<nat> { set i | 0 <= i < |h| && h[i].Operation? }

  /** The layer that made a refusal, by the first operation error of its chain. */
  function RefusedBy(h: Heap, e: Ref, fuel: nat): Run<string> {
    match Seek(GraphOf(h), Operations(h), [e], fuel)
    case Running => Hung
    case Absent => Done("")
    case Found(id) => Done(if id < |h| && h[id].Operation? then LayerOp(h[id].op) else "")
  }

  /** namedRefusal. */
  function Named(h: Heap, e: Ref, fuel: nat): Run<Error> {
    if !(e.At? && e.id < |h| && h[e.id].Lib? && h[e.id].failure.op == "") then Done(Error(h, e))
    else match RefusedBy(h, e, fuel)
      case Hung => Hung
      case Done(name) =>
        if name == "" then Done(Error(h, e))
        else Done(Error(h + [Lib(h[e.id].failure.(op := name), h[e.id].err)], At(|h|)))
  }

  /** What a wrapper hands its caller for a failure of its handler: fromProviderError, and namedRefusal. */
  function Out(host: Host, x: Error, fuel: nat): Run<Error> {
    match ConvertWith(host, x.heap, "", x.at, ErrUnavailable, fuel)
    case Hung => Hung
    case Done((h, r)) => Named(h, r, fuel)
  }

  /** What the wrapper above takes of it where the two are joined: providerFailure. */
  function In(host: Host, y: Error, name: string, model: string, fuel: nat): Run<Error> {
    match ProviderFailure(host, y.heap, y.at, name, model, fuel)
    case Hung => Hung
    case Done((h, r)) => Done(Error(h, r))
  }

  // ---------------------------------------------------------------- what goes through

  /** An error that is there, with a chain a search for the guard's sentinels comes to the end of. */
  predicate Whole(x: Error, n: nat) {
    Sound(x.heap) && Live(x.heap, x.at) && x.at.At? && IsTrustGuard(x.heap, x.at, n) == Done(false)
  }

  /** The *Error at the outside of an error. */
  predicate HasFailure(y: Error) {
    y.at.At? && y.at.id < |y.heap| && y.heap[y.at.id].Lib? && y.heap[y.at.id].failure.kind.Some?
  }

  function FailureOf(y: Error): Failure
    requires HasFailure(y)
  {
    y.heap[y.at.id].failure
  }

  /** The code of an *Error at the outside is a fixed word, or there is none: of a relay there is no *Error at
      the outside, and the package's own has no code. */
  predicate Fixed(host: Host, x: Error) {
    HasFailure(x) ==> FixedWord(FailureOf(x).code, host.letter) == FailureOf(x).code
  }

  lemma WholeIsFinite(x: Error, n: nat)
    requires Whole(x, n)
    ensures Finite(x.heap, x.at, n)
  {
    SeekIsFirstGoal(GraphOf(x.heap), Sentinels(x.heap, TRUST_BOUNDARY_VIOLATED), [x.at], n);
  }

  /** An *Error around an error with no sentinel in its chain has none in its own. */
  lemma WrappedIsWhole(h: Heap, id: nat, n: nat)
    requires id < |h| && h[id].Lib? && IsTrustGuard(h, h[id].err, n) == Done(false)
    ensures IsTrustGuard(h, At(id), n + 1) == Done(false)
  {
    assert KidsOf(GraphOf(h), id) + [At(id)][1..] == [h[id].err];
    assert id !in Sentinels(h, TRUST_BOUNDARY_VIOLATED) && id !in Sentinels(h, UNTRUSTED_IN_SYSTEM_PROMPT);
  }

  lemma BeneathIsWhole(h: Heap, id: nat, n: nat)
    requires id < |h| && h[id].Lib? && IsTrustGuard(h, At(id), n) == Done(false)
    ensures IsTrustGuard(h, h[id].err, n) == Done(false)
  {
    var g := GraphOf(h);
    assert KidsOf(g, id) + [At(id)][1..] == [h[id].err];
    SeekIsStable(g, Sentinels(h, TRUST_BOUNDARY_VIOLATED), [h[id].err], n - 1, n);
    SeekIsStable(g, Sentinels(h, UNTRUSTED_IN_SYSTEM_PROMPT), [h[id].err], n - 1, n);
  }

  lemma OldIsWhole(h: Heap, h2: Heap, e: Ref, n: nat)
    requires Sound(h) && Live(h, e) && h <= h2
    ensures IsTrustGuard(h2, e, n) == IsTrustGuard(h, e, n)
  {
    var more := h2[|h|..];
    assert h2 == h + more;
    OldSearch(h, more, Sentinels(h, TRUST_BOUNDARY_VIOLATED), Sentinels(h2, TRUST_BOUNDARY_VIOLATED), e, n);
    OldSearch(h, more, Sentinels(h, UNTRUSTED_IN_SYSTEM_PROMPT), Sentinels(h2, UNTRUSTED_IN_SYSTEM_PROMPT), e, n);
  }

  // ---------------------------------------------------------------- the outside says all

  /** What an *Error's chain says beneath it, as far as a walk from the *Error comes. */
  function Beneath(host: Host, h: Heap, err: Ref, n: nat): Facts {
    Fill(Within(h, err, MAX_CHAIN_NODES - 1, host.letter), RouteOf(h, err, n))
  }

  /** Of an *Error that covers what is beneath it, the facts of its chain are its own. */
  lemma OwnFacts(host: Host, h: Heap, id: nat, n: nat)
    requires id < |h| && h[id].Lib? && Covers(h[id].failure, Beneath(host, h, h[id].err, n))
    requires FactsOf(host, h, At(id), None, n + 1).Done? && CallOf(h, h[id].err, n).Done?
    requires FixedWord(h[id].failure.code, host.letter) == h[id].failure.code
    ensures var e, f := h[id].failure, FactsOf(host, h, At(id), None, n + 1).value;
      f.(message := "") == Facts(e.provider, e.model, e.requestID, e.status, e.code, e.retryAfter, "")
  {
    CallOfWrapper(h, id, n, n + 1);
    FactsAreStatedThenRoute(host, h, At(id), n + 1);
    WrapperStatesFirst(h, id, h[id].err, MAX_CHAIN_NODES, host.letter);
  }

  /** What covers the facts of a chain covers what a wrapper's walk sees of it. */
  lemma CoversLess(host: Host, h: Heap, e: Ref, n: nat, failure: Failure)
    requires FactsOf(host, h, e, None, n).Done? && Covers(failure, FactsOf(host, h, e, None, n).value)
    ensures Covers(failure, Beneath(host, h, e, n))
  {
    FactsAreStatedThenRoute(host, h, e, n);
    var rest := FurtherStates(h, e, MAX_CHAIN_NODES - 1, MAX_CHAIN_NODES, host.letter);
  }

  lemma {:induction false} CodesAreFixed(h: Heap, v: seq<nat>, letter: char -> bool)
    ensures var code := FactsOver(h, v, letter).code; FixedWord(code, letter) == code
  {
    if v != [] { CodesAreFixed(h, v[1..], letter); }
  }

  lemma FactsAreFixed(host: Host, h: Heap, e: Ref, d: Option<Verdict>, n: nat)
    requires FactsOf(host, h, e, d, n).Done?
    ensures var code := FactsOf(host, h, e, d, n).value.code; FixedWord(code, host.letter) == code
  {
    CodesAreFixed(h, Walk(GraphOf(h), e, MAX_CHAIN_NODES), host.letter);
  }

  // ---------------------------------------------------------------- what comes out of a wrapper

  /** An *Error around a chain that is whole, which says all of it. */
  ghost predicate Says(host: Host, y: Error, n: nat) {
    && HasFailure(y) && Sound(y.heap) && Fixed(host, y)
    && var err := y.heap[y.at.id].err;
       && IsTrustGuard(y.heap, err, n) == Done(false) && Live(y.heap, err)
       && Covers(FailureOf(y), Beneath(host, y.heap, err, n))
  }

  lemma OldBeneath(host: Host, h: Heap, h2: Heap, e: Ref, n: nat)
    requires Sound(h) && Live(h, e) && h <= h2
    ensures Beneath(host, h2, e, n) == Beneath(host, h, e, n)
  {
    OldWithin(h, h2, e, MAX_CHAIN_NODES - 1, host.letter);
    assert h2 == h + h2[|h|..];
    OldSearch(h, h2[|h|..], Routed(h), Routed(h2), e, n);
  }

  /** A new *Error around an error of the heap. */
  lemma NewSays(host: Host, x: Error, failure: Failure, n: nat)
    requires Whole(x, n) && failure.kind.Some? && FixedWord(failure.code, host.letter) == failure.code
    requires FactsOf(host, x.heap, x.at, None, n).Done? && Covers(failure, FactsOf(host, x.heap, x.at, None, n).value)
    ensures Says(host, Error(x.heap + [Lib(failure, x.at)], At(|x.heap|)), n)
  {
    var h := x.heap + [Lib(failure, x.at)];
    SoundWith(x.heap, Lib(failure, x.at));
    OldIsWhole(x.heap, h, x.at, n);
    CoversLess(host, x.heap, x.at, n, failure);
    OldBeneath(host, x.heap, h, x.at, n);
  }

  /** A conversion makes an *Error that says all of its chain. */
  lemma ConvertedSays(host: Host, x: Error, n: nat)
    requires Whole(x, n) && Fixed(host, x)
    ensures ConvertWith(host, x.heap, "", x.at, ErrUnavailable, n).Done?
    ensures var (h, r) := ConvertWith(host, x.heap, "", x.at, ErrUnavailable, n).value; Says(host, Error(h, r), n)
  {
    var h, id := x.heap, x.at.id;
    WholeIsFinite(x, n);
    FiniteConverts(host, h, "", x.at, ErrUnavailable, n);
    FactsOfReturns(host, h, x.at, None, n);
    if HasFailure(x) {
      assert Held(GraphOf(h), GraphOf(h)[id]) && GraphOf(h)[id][0] == h[id].err;
      BeneathIsWhole(h, id, n);
      CompletedSays(host, x, n);
    } else {
      var d := DecidedKind(host, h, x.at, n).value.1;
      FactsOfReturns(host, h, x.at, d, n);
      FactsAreFixed(host, h, x.at, d, n);
      SameChainSameFacts(host, h, x.at, d, None, n, n);
      var (h1, r) := ConvertWith(host, h, "", x.at, ErrUnavailable, n).value;
      NewSays(host, x, h1[|h|].failure, n);
    }
  }

  lemma CompletedSays(host: Host, x: Error, n: nat)
    requires Whole(x, n) && Fixed(host, x) && HasFailure(x)
      && IsTrustGuard(x.heap, x.heap[x.at.id].err, n) == Done(false)
    requires Live(x.heap, x.heap[x.at.id].err) && Finite(x.heap, x.at, n) && FactsOf(host, x.heap, x.at, None, n).Done?
    requires ConvertWith(host, x.heap, "", x.at, ErrUnavailable, n).Done?
    ensures var (h, r) := ConvertWith(host, x.heap, "", x.at, ErrUnavailable, n).value; Says(host, Error(h, r), n)
  {
    var h, id := x.heap, x.at.id;
    var f := FactsOf(host, h, h[id].err, None, n).value;
    var filled := Filled(h[id].failure, "", f);
    FactsAreFixed(host, h, h[id].err, None, n);
    if filled == h[id].failure {
      CoversLess(host, h, h[id].err, n, filled);
    } else {
      CompletedCoversItself(host, h, id, "", n, n);
      NewSays(host, x, filled, n);
    }
  }

  /** A name given to it changes nothing else of it. */
  lemma NamedSays(host: Host, y: Error, n: nat)
    requires Says(host, y, n)
    ensures Named(y.heap, y.at, n + 1).Done? && Says(host, Named(y.heap, y.at, n + 1).value, n)
    ensures var z := Named(y.heap, y.at, n + 1).value;
      FailureOf(z) == FailureOf(y).(op := FailureOf(z).op)
  {
    var h, id := y.heap, y.at.id;
    var err := h[id].err;
    WrappedIsWhole(h, id, n);
    WholeIsFinite(y, n + 1);
    SeekOfFinite(GraphOf(h), Operations(h), [y.at], n + 1, n + 1);
    var z := Named(h, y.at, n + 1).value;
    if z != y {
      SoundWith(h, z.heap[|h|]);
      OldIsWhole(h, z.heap, err, n);
      OldBeneath(host, h, z.heap, err, n);
    }
  }

  /** What a wrapper hands its caller for an error of its handler. */
  lemma OutSays(host: Host, x: Error, n: nat)
    requires Whole(x, n) && Fixed(host, x)
    ensures Out(host, x, n + 1).Done? && Says(host, Out(host, x, n + 1).value, n)
  {
    ConvertedSays(host, x, n);
    ConversionStays(host, x.heap, "", x.at, ErrUnavailable, n, n + 1);
    var (h, r) := ConvertWith(host, x.heap, "", x.at, ErrUnavailable, n).value;
    NamedSays(host, Error(h, r), n);
  }

  // ---------------------------------------------------------------- through a join

  lemma RelayIsSound(h: Heap, e: Ref, h2: Heap, o: nat)
    requires Sound(h) && Live(h, e) && Relays(h, e, h2, o)
    ensures Sound(h2)
  {
    var g := GraphOf(h2);
    forall id | 0 <= id < |g| ensures Held(g, g[id]) {
      if id < |h| { assert g[id] == GraphOf(h)[id] && Held(GraphOf(h), GraphOf(h)[id]); }
    }
  }

  /** The relay of an *Error that says all: its kind, and the *Error's own facts. */
  lemma SaidIsRelayed(host: Host, y: Error, name: string, model: string, n: nat)
    requires Says(host, y, n)
    ensures Whole(y, n + 1) && Finite(y.heap, y.at, n + 1)
    ensures FactsOf(host, y.heap, y.at, None, n + 1).Done?
    ensures var e, f := FailureOf(y), FactsOf(host, y.heap, y.at, None, n + 1).value;
      && f.(message := "") == Facts(e.provider, e.model, e.requestID, e.status, e.code, e.retryAfter, "")
      && var r := ProviderFailure(host, y.heap, y.at, name, model, n + 1);
         r.Done? && r.value.1.At?
           && IsRelay(y.heap, y.at, r.value.0, r.value.1.id, e.kind.value, f, name, model, host.letter)
         && r.value.0[r.value.1.id].op == ""
  {
    var h, id := y.heap, y.at.id;
    WrappedIsWhole(h, id, n);
    WholeIsFinite(y, n + 1);
    FiniteFails(host, h, y.at, name, model, n + 1);
    ClassifiedByReturns(h, y.at, n + 1);
    LibraryDecidesItself(h, y.at, n + 1);
    RelayMade(host, h, y.at, name, model, n + 1);
    WholeIsFinite(Error(h, if h[id].err.At? then h[id].err else y.at), if h[id].err.At? then n else n + 1);
    SeekIsFirstGoal(GraphOf(h), Sentinels(h, TRUST_BOUNDARY_VIOLATED), [h[id].err], n);
    SeekOfFinite(GraphOf(h), Routed(h), [h[id].err], n, n);
    OwnFacts(host, h, id, n);
  }

  /** A walk that is cut short still comes to what the *Error at the outside says. */
  lemma StatedOutside(host: Host, y: Error, n: nat, cut: nat)
    requires Says(host, y, n) && 1 <= cut <= MAX_CHAIN_NODES
    ensures var seen, e := Within(y.heap, y.at, cut, host.letter), FailureOf(y);
      seen.status == e.status && seen.code == e.code
  {
    var err := y.heap[y.at.id].err;
    WrapperStatesFirst(y.heap, y.at.id, err, cut, host.letter);
    var rest := FurtherStates(y.heap, err, cut - 1, MAX_CHAIN_NODES - 1, host.letter);
  }

  /** What a wrapper hands on for a relay: a new *Error, that no layer's name is given to. */
  lemma RelayIsHandedOn(host: Host, h: Heap, o: nat, now: Failure, fuel: nat)
    requires o < |h| && h[o].Operation? && h[o].op == "" && fuel > 1
    requires ConvertsTo(host, h, "", At(o), ErrUnavailable, now, fuel) && now.op == "" && now.kind.Some?
    ensures Out(host, Error(h, At(o)), fuel).Done?
    ensures var z := Out(host, Error(h, At(o)), fuel).value; HasFailure(z) && FailureOf(z) == now
  {
    var (h1, r) := ConvertWith(host, h, "", At(o), ErrUnavailable, fuel).value;
    assert h1[r.id].err == At(o) && h1[o] == h[o];
    var g, goals := GraphOf(h1), Operations(h1);
    assert KidsOf(g, r.id) + [At(r.id)][1..] == [At(o)];
    assert r.id !in goals && o in goals;
    assert Seek(g, goals, [At(o)], fuel - 1) == Found(o);
    assert LayerOp("") == "";
  }

  /** Through a join: the kind, the id, the status, the code and the wait of what a wrapper handed on are those
      of what the next one hands on, and the route, filled in where there was none. Its Op is lost. */
  function Through(e: Failure, name: string, model: string): Failure {
    Failure(e.kind, "", Or(e.provider, name), Or(e.model, model), e.requestID, e.status, e.code, e.retryAfter, "")
  }

  lemma RelayIsWhole(y: Error, h2: Heap, o: nat, n: nat)
    requires Whole(y, n) && Finite(y.heap, y.at, n) && Relays(y.heap, y.at, h2, o)
    ensures Whole(Error(h2, At(o)), n + 4) && !HasFailure(Error(h2, At(o)))
  {
    RelayIsSound(y.heap, y.at, h2, o);
    RelayIs(y.heap, y.at, h2, o, TRUST_BOUNDARY_VIOLATED, n);
    RelayIs(y.heap, y.at, h2, o, UNTRUSTED_IN_SYSTEM_PROMPT, n);
  }

  lemma RelayGoesOn(host: Host, y: Error, h2: Heap, o: nat, f: Facts, name: string, model: string, n: nat)
    requires Says(host, y, n) && Whole(y, n + 1) && Finite(y.heap, y.at, n + 1)
    requires FactsOf(host, y.heap, y.at, None, n + 1) == Done(f)
    requires var e := FailureOf(y);
      f.(message := "") == Facts(e.provider, e.model, e.requestID, e.status, e.code, e.retryAfter, "")
    requires IsRelay(y.heap, y.at, h2, o, FailureOf(y).kind.value, f, name, model, host.letter) && h2[o].op == ""
    ensures var r := Out(host, Error(h2, At(o)), n + 5);
      r.Done? && HasFailure(r.value) && FailureOf(r.value).(message := "") == Through(FailureOf(y), name, model)
  {
    var e, seen := FailureOf(y), Reached(host, y.heap, y.at, h2, o);
    var now := RelayTells(host, y.heap, y.at, h2, o, e.kind.value, f, name, model, "", ErrUnavailable, n + 1);
    assert seen.status == e.status && seen.code == e.code by {
      StatedOutside(host, y, n, MAX_CHAIN_NODES - InFront(h2, o, y.at));
    }
    ArrivesThrough(e, f, seen, name, model, now);
    RelayIsHandedOn(host, h2, o, now, n + 5);
  }

  lemma ArrivesThrough(e: Failure, f: Facts, seen: Facts, name: string, model: string, now: Failure)
    requires f.(message := "") == Facts(e.provider, e.model, e.requestID, e.status, e.code, e.retryAfter, "")
    requires seen.status == e.status && seen.code == e.code && e.kind.Some?
    requires now.(message := "") == Failed(e.kind.value, "", Arriving(f, seen, name, model))
    ensures now.(message := "") == Through(e, name, model) && now.op == "" && now.kind.Some?
  {
    assert now.op == now.(message := "").op && now.kind == now.(message := "").kind;
  }

  lemma JoinKeeps(host: Host, y: Error, name: string, model: string, n: nat)
    requires Says(host, y, n)
    ensures In(host, y, name, model, n + 1).Done?
    ensures var j := In(host, y, name, model, n + 1).value;
      && Whole(j, n + 5) && !HasFailure(j) && Out(host, j, n + 5).Done?
      && HasFailure(Out(host, j, n + 5).value)
      && FailureOf(Out(host, j, n + 5).value).(message := "") == Through(FailureOf(y), name, model)
  {
    SaidIsRelayed(host, y, name, model, n);
    var f := FactsOf(host, y.heap, y.at, None, n + 1).value;
    var (h2, r) := ProviderFailure(host, y.heap, y.at, name, model, n + 1).value;
    RelayIsWhole(y, h2, r.id, n + 1);
    RelayGoesOn(host, y, h2, r.id, f, name, model, n);
  }
}
