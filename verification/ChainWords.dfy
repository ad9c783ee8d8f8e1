/** Layers of a program's own that put words around the errors of a provider, as fmt.Errorf does: what is taken of an
    *Error with words in front of it, and chains with such layers (v2/provider_adapter.go:330-388;
    v2/errors_convert.go:122-212). */
module ChainWords {
  import opened Common
  import opened Kinds
  import opened ErrorGraph
  import opened Classifier
  import opened ErrorConvert
  import opened ErrorConvertLaws
  import opened ChainWalk
  import opened FiniteChains
  import opened MoreSteps
  import opened ConvertEnds
  import opened ProviderRoundTrip
  import opened Chain
  import opened ChainErrors
  import opened Readings
  import opened HandedErrors
  import opened EndedWaits
  import opened ChainLayers
  import opened ChainFusion

  /** An error with words around it. */
  function Worded(y: Error): Error { Error(y.heap + [Foreign([y.at])], At(|y.heap|)) }

  /** A walk of so many errors comes to an error of the root package that decides the kind. */
  predicate DecidedWithin(y: Error, kind: Kind, m: nat, n: nat) {
    match FirstVerdict(y.heap, Walk(GraphOf(y.heap), y.at, m), n)
    case Done(Some(v)) => v.source == FromLibrary && v.kind == kind
    case _ => false
  }

  /** So far into an error's chain is stated all that is told of it, and its kind decided. */
  predicate IsStated(host: Host, y: Error, e: ErrorGraph.Failure, m: nat, n: nat) {
    e.kind.Some? && Deep(host, y, m, n) == FactsIn(e) && DecidedWithin(y, e.kind.value, m, n)
  }

  /** All that is told of an error is what an *Error states that is this deep in its chain. */
  ghost predicate StatesWithin(host: Host, y: Error, e: ErrorGraph.Failure, d: nat, n: nat) {
    Whole(y, n) && forall m: nat | d < m <= MAX_CHAIN_NODES :: IsStated(host, y, e, m, n)
  }

  // ---------------------------------------------------------------- no words

  /** An *Error that says all of its chain states it at the outside. */
  lemma SaidIsOutside(host: Host, y: Error, n: nat)
    requires Says(host, y, n)
    ensures StatesWithin(host, y, FailureOf(y), 0, n + 1)
  {
    WrappedIsWhole(y.heap, y.at.id, n);
    var steps := n + 1;
    forall m: nat | 0 < m <= MAX_CHAIN_NODES ensures IsStated(host, y, FailureOf(y), m, steps) {
      SaidIsDeep(host, y, n, m);
      assert Walk(GraphOf(y.heap), y.at, m)[0] == y.at.id;
    }
  }

  lemma SaidIsDeep(host: Host, y: Error, n: nat, m: nat)
    requires Says(host, y, n) && 0 < m <= MAX_CHAIN_NODES
    ensures Deep(host, y, m, n + 1) == FactsIn(FailureOf(y))
  {
    var h, id, err := y.heap, y.at.id, y.heap[y.at.id].err;
    SeekPast(GraphOf(h), Routed(h), id, n);
    WrapperStatesFirst(h, id, err, m, host.letter);
    var rest := FurtherStates(h, err, m - 1, MAX_CHAIN_NODES - 1, host.letter);
    CoveredAtAnyDepth(FailureOf(y), Within(h, err, m - 1, host.letter), rest, RouteOf(h, err, n), host.letter);
  }

  lemma CoveredAtAnyDepth(e: ErrorGraph.Failure, seen: Facts, rest: Facts, route: Facts, letter: char -> bool)
    requires Covers(e, Fill(Fill(seen, rest), route)) && FixedWord(e.code, letter) == e.code
    ensures Fill(Fill(Facts(e.provider, e.model, e.requestID, e.status, FixedWord(e.code, letter), e.retryAfter,
      e.message), seen), route)
              .(message := "") == FactsIn(e)
  {
  }

  // ---------------------------------------------------------------- one layer of words

  lemma {:induction false} OldAnyKid(h: Heap, more: Heap, kids: seq<Ref>, kind: InternalKind, n: nat)
    requires Sound(h) && forall k | 0 <= k < |kids| :: Live(h, kids[k])
    ensures AnyKidHas(h + more, kids, kind, n) == AnyKidHas(h, kids, kind, n)
  {
    if kids != [] {
      OldKind(h, more, kids[0], n);
      OldAnyKid(h, more, kids[1..], kind, n);
    }
  }

  lemma OldVerdict(h: Heap, more: Heap, id: nat, n: nat)
    requires Sound(h) && id < |h|
    ensures VerdictOf(h + more, id, n) == VerdictOf(h, id, n)
  {
    assert Held(GraphOf(h), GraphOf(h)[id]) && GraphOf(h)[id] == ErrorGraph.Unwrap(h[id]);
    OldKind(h, more, At(id), n);
    if KindOf(h, At(id), n).Done? { OldAnyKid(h, more, ErrorGraph.Unwrap(h[id]), KindOf(h, At(id), n).value, n); }
  }

  lemma {:induction false} OldVerdicts(h: Heap, more: Heap, v: seq<nat>, n: nat)
    requires Sound(h) && forall i | 0 <= i < |v| :: v[i] < |h|
    ensures FirstVerdict(h + more, v, n) == FirstVerdict(h, v, n)
  {
    if v != [] {
      OldVerdict(h, more, v[0], n);
      OldVerdicts(h, more, v[1..], n);
    }
  }

  lemma WordedIsWhole(y: Error, n: nat)
    requires Whole(y, n)
    ensures Whole(Worded(y), n + 1)
  {
    var h, z := y.heap, Worded(y);
    var g := GraphOf(z.heap);
    SoundWith(h, Foreign([y.at]));
    SeekPast(g, Sentinels(z.heap, TRUST_BOUNDARY_VIOLATED), |h|, n);
    SeekPast(g, Sentinels(z.heap, UNTRUSTED_IN_SYSTEM_PROMPT), |h|, n);
    OldIsWhole(h, z.heap, y.at, n);
  }

  lemma WordedWalk(y: Error, m: nat, letter: char -> bool)
    requires Sound(y.heap) && Live(y.heap, y.at) && y.at.At? && m > 0
    ensures Walk(GraphOf(Worded(y).heap), Worded(y).at, m) == [|y.heap|] + Walk(GraphOf(y.heap), y.at, m - 1)
    ensures Within(Worded(y).heap, Worded(y).at, m, letter) == Within(y.heap, y.at, m - 1, letter)
  {
    var h, z := y.heap, Worded(y);
    WalkOfOne(GraphOf(z.heap), |h|, y.at, m);
    OldWithin(h, z.heap, y.at, m - 1, letter);
    ForeignStatesNothing(z.heap, |h|, Walk(GraphOf(h), y.at, m - 1), letter);
  }

  lemma WordedIsDeep(host: Host, y: Error, m: nat, n: nat)
    requires Sound(y.heap) && Live(y.heap, y.at) && y.at.At? && m > 0
    ensures Deep(host, Worded(y), m, n + 1) == Deep(host, y, m - 1, n)
  {
    var h, z := y.heap, Worded(y);
    WordedWalk(y, m, host.letter);
    SeekPast(GraphOf(z.heap), Routed(z.heap), |h|, n);
    OldSearch(h, [Foreign([y.at])], Routed(h), Routed(z.heap), y.at, n);
  }

  lemma WordsDecideNothing(y: Error, kind: Kind, m: nat, n: nat)
    requires Whole(y, n) && Whole(Worded(y), n + 1) && m > 0 && DecidedWithin(y, kind, m - 1, n)
    ensures DecidedWithin(Worded(y), kind, m, n + 1)
  {
    var h, z := y.heap, Worded(y);
    var v := Walk(GraphOf(h), y.at, m - 1);
    WordedWalk(y, m, (c: char) => true);
    WordsAreNoVerdict(z, |h|, n + 1);
    OldWalkDecides(h, [Foreign([y.at])], y.at, v, m - 1, n);
    assert ([|h|] + v)[1..] == v;
  }

  lemma WordsAreNoVerdict(z: Error, id: nat, n: nat)
    requires Whole(z, n) && z.at == At(id) && z.heap[id].Foreign?
    ensures VerdictOf(z.heap, id, n) == Done(None)
  {
    WholeIsFinite(z, n);
    KindOfReturns(z.heap, z.at, n);
    OtherDecidesNothing(z.heap, id, n);
  }

  /** What a walk of an old chain decides is what it did, with more steps and in a heap that has grown. */
  lemma OldWalkDecides(h: Heap, more: Heap, e: Ref, v: seq<nat>, m: nat, n: nat)
    requires Sound(h) && Live(h, e) && v == Walk(GraphOf(h), e, m) && FirstVerdict(h, v, n).Done?
    ensures FirstVerdict(h + more, v, n + 1) == FirstVerdict(h, v, n)
  {
    WalkIsPreOrder(GraphOf(h), e, m);
    NewNodesUnseen(GraphOf(h), [], [e], m);
    OldVerdicts(h, more, v, n + 1);
    FirstVerdictStays(h, v, n, n + 1);
  }

  /** With words around it an error states what it did, one deeper. */
  lemma WordedStates(host: Host, y: Error, e: ErrorGraph.Failure, d: nat, n: nat)
    requires StatesWithin(host, y, e, d, n)
    ensures StatesWithin(host, Worded(y), e, d + 1, n + 1)
  {
    WordedIsWhole(y, n);
    var z, steps := Worded(y), n + 1;
    forall m: nat | d + 1 < m <= MAX_CHAIN_NODES
      ensures IsStated(host, z, e, m, steps)
    {
      assert IsStated(host, y, e, m - 1, n);
      WordedIsDeep(host, y, m, n);
      WordsDecideNothing(y, e.kind.value, m, n);
    }
  }

  // ---------------------------------------------------------------- what is taken of it

  /** An error that states all of it within 254 errors is taken with nothing lost: the caller is told what it
      would be of the *Error in it through a join, and the layers read its kind. */
  lemma StatedIsTaken(host: Host, y: Error, e: ErrorGraph.Failure, d: nat, n: nat, name: string, model: string)
    requires StatesWithin(host, y, e, d, n) && d < 254
    ensures e.kind.Some?
    ensures var j := InOf(host, y, name, model);
      && Handed(host, j) && Told(host, j).(message := "") == Through(e, name, model)
      && AsRead(host, j) == Joined(e.kind.value)
  {
    assert IsStated(host, y, e, MAX_CHAIN_NODES, n);
    var h2, o := StatedIsRelayed(host, y, e, n, name, model);
    assert IsStated(host, y, e, MAX_CHAIN_NODES - InFront(h2, o, y.at), n);
    RelayIsTold(host, y, e, h2, o, name, model, n);
  }

  lemma StatedIsRelayed(host: Host, y: Error, e: ErrorGraph.Failure, n: nat, name: string, model: string)
      returns (h2: Heap, o: nat)
    requires Whole(y, n) && IsStated(host, y, e, MAX_CHAIN_NODES, n)
    ensures InOf(host, y, name, model) == Error(h2, At(o)) && FactsOf(host, y.heap, y.at, None, n).Done?
    ensures IsRelay(y.heap, y.at, h2, o, e.kind.value, FactsOf(host, y.heap, y.at, None, n).value, name, model,
      host.letter)
    ensures h2[o].op == ""
  {
    WholeIsFinite(y, n);
    FiniteFails(host, y.heap, y.at, name, model, n);
    RelayMade(host, y.heap, y.at, name, model, n);
    InOfIs(host, y, name, model, n);
    h2, o := InOf(host, y, name, model).heap, InOf(host, y, name, model).at.id;
  }

  /** What is told of a relay of it. */
  lemma RelayIsTold(host: Host, y: Error, e: ErrorGraph.Failure, h2: Heap, o: nat, name: string, model: string, n: nat)
    requires Whole(y, n) && FactsOf(host, y.heap, y.at, None, n).Done? && IsStated(host, y, e, MAX_CHAIN_NODES, n)
    requires IsRelay(y.heap, y.at, h2, o, e.kind.value, FactsOf(host, y.heap, y.at, None, n).value, name, model,
      host.letter)
    requires h2[o].op == "" && IsStated(host, y, e, MAX_CHAIN_NODES - InFront(h2, o, y.at), n)
    ensures var j := Error(h2, At(o));
      && Handed(host, j) && Told(host, j).(message := "") == Through(e, name, model)
      && AsRead(host, j) == Joined(e.kind.value)
  {
    var j, f := Error(h2, At(o)), FactsOf(host, y.heap, y.at, None, n).value;
    WholeIsFinite(y, n);
    StatedAreFacts(host, y, e, n);
    RelayStatesEarly(host, y, h2, o, e, f, name, model, n, MAX_CHAIN_NODES);
    RelayIsWhole(y, h2, o, n);
    OutTellsChain(host, j, n + 4);
    RelayIsNamed(host, j, e.kind.value, n + 4);
    OutOfIs(host, j, n + 5);
  }

  lemma StatedAreFacts(host: Host, y: Error, e: ErrorGraph.Failure, n: nat)
    requires IsStated(host, y, e, MAX_CHAIN_NODES, n) && FactsOf(host, y.heap, y.at, None, n).Done?
    ensures FactsOf(host, y.heap, y.at, None, n).value.(message := "") == FactsIn(e)
  {
    FactsAreStatedThenRoute(host, y.heap, y.at, n);
  }

  lemma RelayIsNamed(host: Host, j: Error, kind: Kind, n: nat)
    requires Whole(j, n) && n > 1 && j.heap[j.at.id].Operation? && j.heap[j.at.id].op == ""
    requires Read(j.heap[j.at.id].ikind, j.heap[j.at.id].narrow) == Joined(kind)
    ensures Out(host, j, n + 1).Done? && HasFailure(Out(host, j, n + 1).value)
    ensures var e := FailureOf(Out(host, j, n + 1).value); e.kind == Some(kind) && e.op == ""
    ensures AsRead(host, j) == Joined(kind)
  {
    TrustGuardStays(j.heap, j.at, n, n + 1);
    RefusalIsNamed(host, j, n + 1);
    OperationIsRead(host, j.heap, j.at.id, 1);
    AsReadIs(host, j, 1);
    assert LayerOp("") == "";
  }

  // ---------------------------------------------------------------- chains with words in them

  /** A layer of the program's that puts words around each error. */
  ghost predicate PutsWords(w: World, id: nat) {
    forall c: Complete, r: Request :: w.own(id, c)(r) == Words(c(r))
  }

  function Words(a: Reply): Reply { if a.Refusal? then Refusal(Worded(a.error)) else a }

  /** So many such layers around a provider. */
  ghost predicate WordsOver(w: World, p: Provider, d: nat, q: Provider) {
    if d == 0 then p == q else p.Own? && PutsWords(w, p.id) && WordsOver(w, p.inner, d - 1, q)
  }

  /** Two errors that state the same within so many errors. */
  ghost predicate StateAlike(host: Host, t: Place, y: Error, z: Error, d: nat) {
    exists e: ErrorGraph.Failure, e': ErrorGraph.Failure, n: nat, m: nat ::
      StatesWithin(host, y, e, d, n) && StatesWithin(host, z, e', d, m) && Tells(t, e, e')
  }

  lemma StateAlikeIsNear(w: World, p: Provider, r: Request, y: Error, z: Error, d: nat)
    requires StateAlike(w.host, PlaceOf(w, p, r), y, z, d) && d < 254
    ensures NearGiven(w, p, r, y, z)
  {
    var t, name, model := PlaceOf(w, p, r), NameOf(w, p), w.model(r);
    var e: ErrorGraph.Failure, e': ErrorGraph.Failure, n: nat, m: nat :|
      StatesWithin(w.host, y, e, d, n) && StatesWithin(w.host, z, e', d, m) && Tells(t, e, e');
    NameIsOne(w, p);
    StatedIsTaken(w.host, y, e, d, n, name, model);
    StatedIsTaken(w.host, z, e', d, m, name, model);
    ThroughTells(t, e, e', name);
    TellsAside(t, Told(w.host, InOf(w.host, y, name, model)), Told(w.host, InOf(w.host, z, name, model)));
  }

  ghost predicate SayAlike(host: Host, t: Place, a: Reply, b: Reply, d: nat) {
    match a
    case Reply(_, _) => b == a
    case Refusal(y) => b.Refusal? && StateAlike(host, t, y, b.error, d)
  }

  /** What is alike with some names to fill in is alike with more. */
  lemma MoreNames(host: Host, t: Place, t': Place, a: Reply, b: Reply, d: nat)
    requires SayAlike(host, t, a, b, d) && t.names <= t'.names && t.model == t'.model
    ensures SayAlike(host, t', a, b, d)
  {
    if a.Refusal? {
      var e: ErrorGraph.Failure, e': ErrorGraph.Failure, n: nat, m: nat :|
        StatesWithin(host, a.error, e, d, n) && StatesWithin(host, b.error, e', d, m) && Tells(t, e, e');
      assert Tells(t', e, e');
    }
  }

  /** Words put around an answer so many times. */
  function WordsTimes(a: Reply, d: nat): Reply { if d == 0 then a else Words(WordsTimes(a, d - 1)) }

  lemma {:induction false} WordsArePut(w: World, p: Provider, d: nat, q: Provider, r: Request)
    requires WordsOver(w, p, d, q)
    ensures Answers(w, p)(r) == WordsTimes(Answers(w, q)(r), d)
      && NaiveAnswers(w, p)(r) == WordsTimes(NaiveAnswers(w, q)(r), d)
    decreases p
  {
    if d > 0 { WordsArePut(w, p.inner, d - 1, q, r); }
  }

  lemma {:induction false} WordsHaveNames(w: World, p: Provider, d: nat, q: Provider)
    requires WordsOver(w, p, d, q)
    ensures Names(w, q) <= Names(w, p)
    decreases p
  {
    if d > 0 { WordsHaveNames(w, p.inner, d - 1, q); }
  }

  lemma {:induction false} WordsSayAlike(host: Host, t: Place, a: Reply, b: Reply, d: nat)
    requires SayAlike(host, t, a, b, 0)
    ensures SayAlike(host, t, WordsTimes(a, d), WordsTimes(b, d), d)
  {
    if d > 0 {
      WordsSayAlike(host, t, a, b, d - 1);
      WordedSayAlike(host, t, WordsTimes(a, d - 1), WordsTimes(b, d - 1), d - 1);
    }
  }

  lemma WordedSayAlike(host: Host, t: Place, a: Reply, b: Reply, d: nat)
    requires SayAlike(host, t, a, b, d)
    ensures SayAlike(host, t, Words(a), Words(b), d + 1)
  {
    if a.Refusal? { WordedStateAlike(host, t, a.error, b.error, d); }
  }

  lemma WordedStateAlike(host: Host, t: Place, y: Error, z: Error, d: nat)
    requires StateAlike(host, t, y, z, d)
    ensures StateAlike(host, t, Worded(y), Worded(z), d + 1)
  {
    var e: ErrorGraph.Failure, e': ErrorGraph.Failure, n: nat, m: nat :|
      StatesWithin(host, y, e, d, n) && StatesWithin(host, z, e', d, m) && Tells(t, e, e');
    WordedStates(host, y, e, d, n);
    WordedStates(host, z, e', d, m);
  }

  lemma WrapperSaysAlike(w: World, p: Provider, r: Request)
    requires p.Wrapper? && SaneBases(w) && LayersFit(w, p) && JoinsDecideAlike(w, p)
    ensures SayAlike(w.host, PlaceOf(w, p, r), Answers(w, p)(r), NaiveAnswers(w, p)(r), 0)
  {
    FusionIsUnseen(w, p);
    var a, b := HandlerOf(w, p)(r), NaiveHandlerOf(w, p)(r);
    assert Near(w.host, PlaceOf(w, p, r), a, b);
    if a.Failure? { HandedSayAlike(w.host, PlaceOf(w, p, r), a.error, b.error); }
  }

  lemma HandedSayAlike(host: Host, t: Place, x: Error, x': Error)
    requires NearErrors(host, t, x, x')
    ensures StateAlike(host, t, OutOf(host, x), OutOf(host, x'), 0)
  {
    HandedIsTold(host, x);
    HandedIsTold(host, x');
    var n: nat :| Says(host, OutOf(host, x), n);
    var m: nat :| Says(host, OutOf(host, x'), m);
    SaidIsOutside(host, OutOf(host, x), n);
    SaidIsOutside(host, OutOf(host, x'), m);
  }

  /** A chain with layers of the program's that put words around errors, up to 253 of them on a wrapper, is one to
      which the law of chains applies when it applies to what is under them. */
  lemma {:induction false} WordsFit(w: World, p: Provider, d: nat, q: Provider)
    requires WordsOver(w, p, d, q) && d < 254 && q.Wrapper? && SaneBases(w) && LayersFit(w, q) && JoinsDecideAlike(w, q)
    ensures LayersFit(w, p) && JoinsDecideAlike(w, p)
    decreases p
  {
    if d > 0 {
      WordsFit(w, p.inner, d - 1, q);
      forall r: Request ensures NearReply(w, p, r, Answers(w, p)(r), NaiveAnswers(w, p)(r)) {
        WrapperSaysAlike(w, q, r);
        WordsArePut(w, p, d, q, r);
        WordsSayAlike(w.host, PlaceOf(w, q, r), Answers(w, q)(r), NaiveAnswers(w, q)(r), d);
        WordsHaveNames(w, p, d, q);
        MoreNames(w.host, PlaceOf(w, q, r), PlaceOf(w, p, r), Answers(w, p)(r), NaiveAnswers(w, p)(r), d);
        SayAlikeIsNear(w, p, r, Answers(w, p)(r), NaiveAnswers(w, p)(r), d);
      }
    }
  }

  lemma SayAlikeIsNear(w: World, p: Provider, r: Request, a: Reply, b: Reply, d: nat)
    requires SayAlike(w.host, PlaceOf(w, p, r), a, b, d) && d < 254
    ensures NearReply(w, p, r, a, b)
  {
    if a.Refusal? { StateAlikeIsNear(w, p, r, a.error, b.error, d); }
  }
}
