/** The error of a Retry whose wait was ended by the caller's context: an error of its own, around the context's
    error beside the failure that was being waited out, so that there are three errors in front of that failure
    (v2/internal/runtime/mw/retry.go:159-172). */
module EndedWaits {
  import opened Common
  import opened Kinds
  import opened ChainWalk
  import opened ErrorGraph
  import opened Classifier
  import opened ErrorConvert
  import opened ErrorConvertLaws
  import opened FiniteChains
  import opened MoreSteps
  import opened ProviderRoundTrip
  import opened ChainErrors
  import opened Readings
  import opened HandedErrors

  const ENDED_WAIT := "the request ended while it waited to be repeated"

  function EndedKind(deadline: bool): InternalKind { if deadline then KindTimeout else KindCanceled }

  /** The errors Retry makes for a failure it waits out. */
  function Front(x: Error, deadline: bool): seq<Node> {
    var n := |x.heap|;
    [ContextOver(deadline), Foreign([At(n), x.at]),
     Operation(EndedKind(deadline), NarrowNone, "mw.Retry", "", "", "", 0, ENDED_WAIT, At(n + 1))]
  }

  function Ended(x: Error, deadline: bool): Error {
    Error(x.heap + Front(x, deadline), At(|x.heap| + 2))
  }

  /** What an *Error says, but for its message. */
  function FactsIn(e: Failure): Facts {
    Facts(e.provider, e.model, e.requestID, e.status, e.code, e.retryAfter, "")
  }

  /** What the first errors of a chain state, and the route of its call. */
  function Deep(host: Host, x: Error, m: nat, n: nat): Facts {
    Fill(Within(x.heap, x.at, m, host.letter), RouteOf(x.heap, x.at, n)).(message := "")
  }

  // ---------------------------------------------------------------- searches and walks

  lemma EndedSeek(x: Error, deadline: bool, goals: set<nat>, goals': set<nat>, n: nat)
    requires Sound(x.heap) && Live(x.heap, x.at) && Sought(x.heap, Ended(x, deadline).heap, goals, goals')
    ensures var y := Ended(x, deadline);
      Seek(GraphOf(y.heap), goals', [y.at], n + 3) == Seek(GraphOf(x.heap), goals, [x.at], n)
  {
    var h, y := x.heap, Ended(x, deadline);
    var g := GraphOf(y.heap);
    SeekPast(g, goals', |h| + 2, n + 2);
    SeekPast(g, goals', |h| + 1, n + 1);
    assert g[|h| + 2] == [At(|h| + 1)] && g[|h| + 1] == [At(|h|), x.at];
    assert KidsOf(g, |h|) + [At(|h|), x.at][1..] == [x.at];
    OldSearch(h, Front(x, deadline), goals, goals', x.at, n);
  }

  lemma EndedIsSound(x: Error, deadline: bool)
    requires Sound(x.heap) && Live(x.heap, x.at)
    ensures Sound(Ended(x, deadline).heap)
  {
    var g := GraphOf(Ended(x, deadline).heap);
    forall id | 0 <= id < |g| ensures Held(g, g[id]) {
      if id < |x.heap| { assert g[id] == GraphOf(x.heap)[id] && Held(GraphOf(x.heap), GraphOf(x.heap)[id]); }
    }
  }

  lemma EndedIsWhole(x: Error, deadline: bool, n: nat)
    requires Whole(x, n)
    ensures Whole(Ended(x, deadline), n + 3)
  {
    var y := Ended(x, deadline);
    EndedIsSound(x, deadline);
    EndedSeek(x, deadline, Sentinels(x.heap, TRUST_BOUNDARY_VIOLATED), Sentinels(y.heap, TRUST_BOUNDARY_VIOLATED), n);
    EndedSeek(x, deadline, Sentinels(x.heap, UNTRUSTED_IN_SYSTEM_PROMPT),
      Sentinels(y.heap, UNTRUSTED_IN_SYSTEM_PROMPT), n);
  }

  lemma EndedRoute(x: Error, deadline: bool, n: nat)
    requires Sound(x.heap) && Live(x.heap, x.at)
    ensures RouteOf(Ended(x, deadline).heap, Ended(x, deadline).at, n + 3) == RouteOf(x.heap, x.at, n)
  {
    EndedSeek(x, deadline, Routed(x.heap), Routed(Ended(x, deadline).heap), n);
    FoundIsHeld(GraphOf(x.heap), Routed(x.heap), [x.at], n);
  }

  /** A walk of it sees the three in front first. */
  lemma EndedWalk(x: Error, deadline: bool, m: nat)
    requires Sound(x.heap) && Live(x.heap, x.at) && m > 3
    ensures var h, y := x.heap, Ended(x, deadline);
      Walk(GraphOf(y.heap), y.at, m) == [|h| + 2] + ([|h| + 1] + ([|h|] + Walk(GraphOf(h), x.at, m - 3)))
  {
    var h, y := x.heap, Ended(x, deadline);
    var g := GraphOf(y.heap);
    WalkOfOne(g, |h| + 2, At(|h| + 1), m);
    WalkOfTwo(g, |h| + 1, At(|h|), x.at, m - 1);
    assert WalkAll(g, [], m - 3) == [] && Walk(g, At(|h|), m - 2) == [|h|];
    OldWithin(h, y.heap, x.at, m - 3, (c: char) => true);
  }

  lemma EndedWithin(x: Error, deadline: bool, m: nat, letter: char -> bool)
    requires Sound(x.heap) && Live(x.heap, x.at) && m > 3
    ensures var y := Ended(x, deadline);
      Within(y.heap, y.at, m, letter).(message := "") == Within(x.heap, x.at, m - 3, letter).(message := "")
  {
    var h, y := x.heap, Ended(x, deadline);
    var v := Walk(GraphOf(h), x.at, m - 3);
    EndedWalk(x, deadline, m);
    OldWithin(h, y.heap, x.at, m - 3, letter);
    FactsOfOneMore(y.heap, |h|, v, letter);
    ForeignStatesNothing(y.heap, |h| + 1, [|h|] + v, letter);
    FactsOfOneMore(y.heap, |h| + 2, [|h| + 1] + ([|h|] + v), letter);
  }

  // ---------------------------------------------------------------- what is told of it

  /** Of an error that is no *Error the caller is told what the errors of its chain state, as far as the walk
      goes, and the route. */
  lemma OutTellsChain(host: Host, x: Error, n: nat)
    requires Whole(x, n) && !HasFailure(x)
    ensures Out(host, x, n + 1).Done? && HasFailure(Out(host, x, n + 1).value)
    ensures FactsIn(FailureOf(Out(host, x, n + 1).value)) == Deep(host, x, MAX_CHAIN_NODES, n)
  {
    WholeIsFinite(x, n);
    ConvertedSays(host, x, n);
    ConversionStays(host, x.heap, "", x.at, ErrUnavailable, n, n + 1);
    var (h, r) := ConvertWith(host, x.heap, "", x.at, ErrUnavailable, n).value;
    NamedSays(host, Error(h, r), n);
    FactsOfReturns(host, x.heap, x.at, None, n);
    var d := DecidedKind(host, x.heap, x.at, n).value.1;
    SameChainSameFacts(host, x.heap, x.at, d, None, n, n);
    FactsAreStatedThenRoute(host, x.heap, x.at, n);
  }

  /** What the first errors of a chain state of the route is nothing where nothing of it is told. */
  lemma DeepStatesNoMore(host: Host, x: Error, m: nat, n: nat)
    requires Whole(x, n) && Fixed(host, x) && 0 < m <= MAX_CHAIN_NODES
    ensures Handed(host, x)
    ensures Told(host, x).provider == "" ==> Deep(host, x, m, n).provider == ""
    ensures Told(host, x).model == "" ==> Deep(host, x, m, n).model == ""
  {
    if HasFailure(x) {
      CompletedStatesMore(host, x, n);
      DeepOfWrapper(host, x, m, n);
    } else {
      ChainStatesMore(host, x, m, n);
    }
    OutOfIs(host, x, n + 1);
  }

  lemma ChainStatesMore(host: Host, x: Error, m: nat, n: nat)
    requires Whole(x, n) && !HasFailure(x) && m <= MAX_CHAIN_NODES
    ensures Out(host, x, n + 1).Done? && HasFailure(Out(host, x, n + 1).value)
    ensures var e := FailureOf(Out(host, x, n + 1).value);
      && (e.provider == "" ==> Deep(host, x, m, n).provider == "")
      && (e.model == "" ==> Deep(host, x, m, n).model == "")
  {
    OutTellsChain(host, x, n);
    var e := FailureOf(Out(host, x, n + 1).value);
    assert e.provider == FactsIn(e).provider && e.model == FactsIn(e).model;
    var rest := FurtherStates(x.heap, x.at, m, MAX_CHAIN_NODES, host.letter);
  }

  /** An *Error is told with the facts of what it wraps where it states none. */
  lemma CompletedStatesMore(host: Host, x: Error, n: nat)
    requires Whole(x, n) && Fixed(host, x) && HasFailure(x)
    ensures Out(host, x, n + 1).Done? && HasFailure(Out(host, x, n + 1).value)
    ensures FactsOf(host, x.heap, x.heap[x.at.id].err, None, n).Done?
    ensures var e, f := FailureOf(Out(host, x, n + 1).value), FactsOf(host, x.heap, x.heap[x.at.id].err, None, n).value;
      && e.provider == Or(FailureOf(x).provider, f.provider) && e.model == Or(FailureOf(x).model, f.model)
  {
    WholeIsFinite(x, n);
    KidsFinish(GraphOf(x.heap), x.at.id, n, 0);
    FactsOfReturns(host, x.heap, x.heap[x.at.id].err, None, n);
    ConvertedSays(host, x, n);
    ConversionStays(host, x.heap, "", x.at, ErrUnavailable, n, n + 1);
    var (h, r) := ConvertWith(host, x.heap, "", x.at, ErrUnavailable, n).value;
    NamedSays(host, Error(h, r), n);
  }

  lemma DeepOfWrapper(host: Host, x: Error, m: nat, n: nat)
    requires Whole(x, n) && HasFailure(x) && 0 < m <= MAX_CHAIN_NODES
    requires FactsOf(host, x.heap, x.heap[x.at.id].err, None, n).Done?
    ensures var f := FactsOf(host, x.heap, x.heap[x.at.id].err, None, n).value;
      && (Or(FailureOf(x).provider, f.provider) == "" ==> Deep(host, x, m, n).provider == "")
      && (Or(FailureOf(x).model, f.model) == "" ==> Deep(host, x, m, n).model == "")
  {
    var h, id, err := x.heap, x.at.id, x.heap[x.at.id].err;
    WholeIsFinite(x, n);
    KidsFinish(GraphOf(h), id, n, 0);
    SeekOfFinite(GraphOf(h), Routed(h), [x.at], n, n);
    SeekOfFinite(GraphOf(h), Routed(h), [err], n, n);
    CallOfWrapper(h, id, n, n);
    WrapperStatesFirst(h, id, err, m, host.letter);
    FactsAreStatedThenRoute(host, h, err, n);
    var f := FactsOf(host, h, err, None, n).value;
    assert f.provider == f.(message := "").provider && f.model == f.(message := "").model;
    var rest := FurtherStates(h, err, m - 1, MAX_CHAIN_NODES, host.letter);
  }

  lemma EndedFacts(host: Host, x: Error, deadline: bool, n: nat)
    requires Whole(x, n)
    ensures Deep(host, Ended(x, deadline), MAX_CHAIN_NODES, n + 3) == Deep(host, x, MAX_CHAIN_NODES - 3, n)
  {
    EndedRoute(x, deadline, n);
    EndedWithin(x, deadline, MAX_CHAIN_NODES, host.letter);
  }

  lemma EndedIsRead(host: Host, x: Error, deadline: bool, n: nat)
    requires Whole(x, n) && Whole(Ended(x, deadline), n + 3)
    ensures var y := Ended(x, deadline);
      && Out(host, y, n + 4).Done? && HasFailure(Out(host, y, n + 4).value)
      && FailureOf(Out(host, y, n + 4).value).op == "mw.retry"
      && FailureOf(Out(host, y, n + 4).value).kind == KindFromInternal(EndedKind(deadline), NarrowNone)
      && AsRead(host, y) == Read(EndedKind(deadline), NarrowNone)
  {
    var y := Ended(x, deadline);
    TrustGuardStays(y.heap, y.at, n + 3, n + 4);
    RefusalIsNamed(host, y, n + 4);
    OperationIsRead(host, y.heap, y.at.id, 1);
    AsReadIs(host, y, 1);
  }

  /** What a caller is told of it: that the request timed out or was cancelled, by Retry, and of the failure that was
      waited out what its first 253 errors state. */
  lemma EndedTells(host: Host, x: Error, deadline: bool, n: nat)
    requires Whole(x, n)
    ensures var y := Ended(x, deadline);
      && Handed(host, y) && Told(host, y).op == "mw.retry"
      && Told(host, y).kind == Some(if deadline then ErrTimeout else ErrCanceled)
      && FactsIn(Told(host, y)) == Deep(host, x, 256 - 3, n)
      && AsRead(host, y) == Read(if deadline then KindTimeout else KindCanceled, NarrowNone)
  {
    var y := Ended(x, deadline);
    EndedIsWhole(x, deadline, n);
    EndedFacts(host, x, deadline, n);
    OutTellsChain(host, y, n + 3);
    EndedIsRead(host, x, deadline, n);
    OutOfIs(host, y, n + 4);
  }

  // ---------------------------------------------------------------- what has come through a join states all early

  /** What a join makes states all that it says in its first errors, so that there is room for more in front. */
  lemma JoinStatesEarly(host: Host, y: Error, name: string, model: string, n: nat, m: nat)
    requires Says(host, y, n) && 3 < m <= MAX_CHAIN_NODES
    ensures In(host, y, name, model, n + 1).Done?
    ensures Deep(host, In(host, y, name, model, n + 1).value, m, n + 5) == FactsIn(Through(FailureOf(y), name, model))
  {
    var h2, o, f := JoinIsRelay(host, y, name, model, n);
    SaidStatesEarly(host, y, h2, o, f, name, model, n, m);
  }

  lemma JoinIsRelay(host: Host, y: Error, name: string, model: string, n: nat) returns (h2: Heap, o: nat, f: Facts)
    requires Says(host, y, n)
    ensures In(host, y, name, model, n + 1) == Done(Error(h2, At(o))) && Finite(y.heap, y.at, n + 1)
    ensures FactsOf(host, y.heap, y.at, None, n + 1) == Done(f) && f.(message := "") == FactsIn(FailureOf(y))
    ensures IsRelay(y.heap, y.at, h2, o, FailureOf(y).kind.value, f, name, model, host.letter)
  {
    SaidIsRelayed(host, y, name, model, n);
    f := FactsOf(host, y.heap, y.at, None, n + 1).value;
    h2, o := In(host, y, name, model, n + 1).value.heap, In(host, y, name, model, n + 1).value.at.id;
  }

  lemma SaidStatesEarly(host: Host, y: Error, h2: Heap, o: nat, f: Facts, name: string, model: string, n: nat, m: nat)
    requires Says(host, y, n) && Finite(y.heap, y.at, n + 1) && 3 < m <= MAX_CHAIN_NODES
    requires FactsOf(host, y.heap, y.at, None, n + 1) == Done(f) && f.(message := "") == FactsIn(FailureOf(y))
    requires IsRelay(y.heap, y.at, h2, o, FailureOf(y).kind.value, f, name, model, host.letter)
    ensures Deep(host, Error(h2, At(o)), m, n + 5) == FactsIn(Through(FailureOf(y), name, model))
  {
    StatedOutside(host, y, n, m - InFront(h2, o, y.at));
    RelayStatesEarly(host, y, h2, o, FailureOf(y), f, name, model, n + 1, m);
  }

  lemma RelayStatesEarly(host: Host, y: Error, h2: Heap, o: nat, e: Failure, f: Facts, name: string, model: string,
      b: nat, m: nat)
    requires Sound(y.heap) && Live(y.heap, y.at) && Finite(y.heap, y.at, b) && 3 < m <= MAX_CHAIN_NODES && e.kind.Some?
    requires FactsOf(host, y.heap, y.at, None, b) == Done(f) && f.(message := "") == FactsIn(e)
    requires IsRelay(y.heap, y.at, h2, o, e.kind.value, f, name, model, host.letter)
    requires var seen := Within(y.heap, y.at, m - InFront(h2, o, y.at), host.letter);
      seen.status == e.status && seen.code == e.code
    ensures Deep(host, Error(h2, At(o)), m, b + 4) == FactsIn(Through(e, name, model))
  {
    RelayIsDeep(host, y.heap, y.at, h2, o, f, e.kind.value, name, model, b, m);
    ArrivesAll(f, e, Within(y.heap, y.at, m - InFront(h2, o, y.at), host.letter), name, model);
  }

  /** What a relay states in its first errors: the facts of the chain, with the status and the code that are
      within the walk. */
  lemma RelayIsDeep(host: Host, h: Heap, e: Ref, h2: Heap, o: nat, f: Facts, kind: Kind, name: string, model: string,
      b: nat, m: nat)
    requires Sound(h) && Live(h, e) && Finite(h, e, b) && 3 < m <= MAX_CHAIN_NODES
      && FactsOf(host, h, e, None, b) == Done(f)
    requires IsRelay(h, e, h2, o, kind, f, name, model, host.letter)
    ensures Deep(host, Error(h2, At(o)), m, b + 4)
      == Arriving(f, Within(h, e, m - InFront(h2, o, e), host.letter), name, model)
  {
    var extra := RelayFront(host, h, e, h2, o, f, kind, name, model, b, m);
    RelayRoute(h, e, h2, o, b);
    DeepArrives(host, h, e, Error(h2, At(o)), f, m - InFront(h2, o, e), extra, name, model, b, m);
  }

  lemma DeepArrives(host: Host, h: Heap, e: Ref, j: Error, f: Facts, cut: nat, extra: Facts, name: string,
      model: string, b: nat, m: nat)
    requires FactsOf(host, h, e, None, b) == Done(f) && cut <= MAX_CHAIN_NODES
    requires Within(j.heap, j.at, m, host.letter)
      == Fill(RelayStates(f, name, model), Fill(Within(h, e, cut, host.letter), extra))
    requires Adds(extra, f, Within(h, e, cut, host.letter), name, model)
      && RouteOf(j.heap, j.at, b + 4) == RouteOf(h, e, b)
    ensures Deep(host, j, m, b + 4) == Arriving(f, Within(h, e, cut, host.letter), name, model)
  {
    ReadArrives(host, h, e, f, cut, extra, name, model, b);
  }

  lemma RelayFront(host: Host, h: Heap, e: Ref, h2: Heap, o: nat, f: Facts, kind: Kind, name: string, model: string,
      b: nat, m: nat)
      returns (extra: Facts)
    requires Sound(h) && Live(h, e) && 3 < m <= MAX_CHAIN_NODES && FactsOf(host, h, e, None, b) == Done(f)
    requires IsRelay(h, e, h2, o, kind, f, name, model, host.letter)
    ensures var seen := Within(h, e, m - InFront(h2, o, e), host.letter);
      && Within(h2, At(o), m, host.letter) == Fill(RelayStates(f, name, model), Fill(seen, extra))
      && Adds(extra, f, seen, name, model)
  {
    extra := Extra(h, e, h2, o, m - 1, host.letter);
    RelayFacts(h, e, h2, o, m, host.letter);
    StatusIsWalked(host, h, e, b);
    RelayAdds(host, h, e, h2, o, name, model, f, m);
  }

  lemma RelayRoute(h: Heap, e: Ref, h2: Heap, o: nat, b: nat)
    requires Sound(h) && Live(h, e) && Relays(h, e, h2, o) && Finite(h, e, b)
    ensures RouteOf(h2, At(o), b + 4) == RouteOf(h, e, b)
  {
    RelayCallOf(h, e, h2, o, b);
  }

  lemma ArrivesAll(f: Facts, e: Failure, seen: Facts, name: string, model: string)
    requires f.(message := "") == FactsIn(e) && seen.status == e.status && seen.code == e.code
    ensures Arriving(f, seen, name, model) == FactsIn(Through(e, name, model))
  {
    assert f.provider == f.(message := "").provider && f.model == f.(message := "").model;
    assert f.requestID == f.(message := "").requestID && f.retryAfter == f.(message := "").retryAfter;
  }
}
