/** Chains of middleware over the errors of their layers: what the layers of the package do with what is under
    them, the chain that converts once, at its outermost wrapper, and the one that converts at every join; and
    when two answers are the same as far as a join keeps them (v2/mw/mw.go:160-195, 197-211, 300-377;
    v2/internal/runtime/mw/retry.go:129-176, fallback.go:226-284). */
module ChainLayers {
  import opened Common
  import opened Kinds
  import opened ErrorGraph
  import opened Classifier
  import opened ChainWalk
  import opened ErrorConvert
  import opened ProviderRoundTrip
  import opened Chain
  import opened ChainErrors
  import opened Readings
  import opened HandedErrors
  import opened EndedWaits

  // ---------------------------------------------------------------- layers

  datatype Reply = Reply(content: nat, usage: Usage) | Refusal(error: Error)
  datatype Answer = Answer(content: nat, usage: TokenUsage) | Failure(error: Error)

  type Request = nat
  type Complete = Request -> Reply
  type Handler = Request -> Answer

  /** A route beside the primary one: when the context is over before it, which requests it may be asked, and
      what answers. */
  datatype Way = Way(over: Request -> Option<bool>, asked: Request -> bool, handler: Handler)

  /** What a layer does with the handler under it: it lets some requests by and refuses the others itself, with
      any error, as a budget, a rate limit, a bulkhead, an open circuit and a layer that was set up wrong do;
      it sends a failed request again, at most so many times, until its context is over in a wait; it goes on
      from some failures to other routes, as Fallback and Decisions do; or anything else. */
  datatype Layer =
    | Gate(admits: Request -> bool, refusal: Request -> Error)
    | Retry(attempts: nat, next: (Request, nat) -> Request, over: (Request, nat) -> Option<bool>)
    | Failover(goesOn: Decisions -> bool, ways: seq<Way>)
    | Other(build: Handler -> Handler)

  /** What is not this package's to decide: what a provider answers and what it is called, what a program's own
      layer makes of what is under it and what it is called, what the layer of each name is, and the model a
      request names. */
  datatype World = World(
    host: Host,
    base: nat -> Complete,
    named: nat -> string,
    own: (nat, Complete) -> Complete,
    renamed: (nat, string) -> string,
    layer: string -> Layer,
    model: Request -> string)

  /** The attempts of a Retry from one on. */
  ghost function Tries(host: Host, l: Layer, f: Handler, r: Request, i: nat): Answer
    requires l.Retry?
    decreases l.attempts - i
  {
    var a := f(l.next(r, i));
    if a.Answer? || !Repeats(AsRead(host, a.error)) || i + 1 >= l.attempts then a
    else match l.over(r, i)
      case Some(deadline) => Answer.Failure(Ended(a.error, deadline))
      case None => Tries(host, l, f, r, i + 1)
  }

  /** The context's own error. */
  function ContextError(deadline: bool): Error { Error([ContextOver(deadline)], At(0)) }

  /** The routes from one on, after an answer. */
  ghost function Onward(host: Host, goesOn: Decisions -> bool, ways: seq<Way>, last: Answer, r: Request): Answer {
    if ways == [] || last.Answer? || !goesOn(DecisionsOf(AsRead(host, last.error))) then last
    else match ways[0].over(r)
      case Some(deadline) => Answer.Failure(ContextError(deadline))
      case None => Onward(host, goesOn, ways[1..], if ways[0].asked(r) then ways[0].handler(r) else last, r)
  }

  ghost function Built(w: World, l: Layer, f: Handler): Handler {
    match l
    case Gate(admits, refusal) => (r: Request) => if admits(r) then f(r) else Answer.Failure(refusal(r))
    case Retry(_, _, _) => (r: Request) => Tries(w.host, l, f, r, 0)
    case Failover(goesOn, ways) => (r: Request) => Onward(w.host, goesOn, ways, f(r), r)
    case Other(build) => build(f)
  }

  // ---------------------------------------------------------------- the two chains

  function NameOf(w: World, p: Provider): string {
    match p
    case Base(id) => w.named(id)
    case Own(id, inner) => w.renamed(id, NameOf(w, inner))
    case Wrapper(_, inner, _) => NameOf(w, inner)
  }

  /** An answer in the call path's types, and one in the root package's. */
  ghost function Taken(w: World, r: Reply, p: Provider, req: Request): Answer {
    match r
    case Reply(content, usage) => Answer(content, UsageIn(usage))
    case Refusal(y) => Answer.Failure(InOf(w.host, y, NameOf(w, p), w.model(req)))
  }

  ghost function HandedOn(w: World, a: Answer): Reply {
    match a
    case Answer(content, usage) => Reply(content, UsageOut(usage))
    case Failure(x) => Refusal(OutOf(w.host, x))
  }

  /** What a provider answers: a wrapper converts what its handler answers. */
  ghost function Answers(w: World, p: Provider): Complete
    decreases p, 1
  {
    match p
    case Base(id) => w.base(id)
    case Own(id, inner) => w.own(id, Answers(w, inner))
    case Wrapper(_, _, _) =>
      var handler := HandlerOf(w, p);
      (r: Request) => HandedOn(w, handler(r))
  }

  /** A wrapper's handler, built around the handler of a wrapper below with nothing converted between. */
  ghost function HandlerOf(w: World, p: Provider): Handler
    requires p.Wrapper?
    decreases p, 0
  {
    Built(w, w.layer(p.name), InternalOf(w, p.inner))
  }

  ghost function InternalOf(w: World, p: Provider): Handler
    decreases p, 2
  {
    if p.Wrapper? then HandlerOf(w, p)
    else
      var complete := Answers(w, p);
      (r: Request) => Taken(w, complete(r), p, r)
  }

  /** The chain that converts at every join. */
  ghost function NaiveAnswers(w: World, p: Provider): Complete
    decreases p, 1
  {
    match p
    case Base(id) => w.base(id)
    case Own(id, inner) => w.own(id, NaiveAnswers(w, inner))
    case Wrapper(_, _, _) =>
      var handler := NaiveHandlerOf(w, p);
      (r: Request) => HandedOn(w, handler(r))
  }

  ghost function NaiveHandlerOf(w: World, p: Provider): Handler
    requires p.Wrapper?
    decreases p, 0
  {
    Built(w, w.layer(p.name), NaiveInternalOf(w, p.inner))
  }

  ghost function NaiveInternalOf(w: World, p: Provider): Handler
    decreases p, 2
  {
    var complete := NaiveAnswers(w, p);
    (r: Request) => Taken(w, complete(r), p, r)
  }

  // ---------------------------------------------------------------- the same, as far as a join keeps it

  /** The names of a provider and of what it is around, which are what joins within it fill in: one, unless a layer
      of the program's has a name of its own. */
  function Names(w: World, p: Provider): set<string> {
    match p
    case Base(id) => {w.named(id)}
    case Own(_, inner) => Names(w, inner) + {NameOf(w, p)}
    case Wrapper(_, inner, _) => Names(w, inner)
  }

  ghost predicate OneName(w: World, p: Provider) { Names(w, p) == {NameOf(w, p)} }

  lemma {:induction false} NameIsOne(w: World, p: Provider)
    ensures NameOf(w, p) in Names(w, p)
  {
    if p.Wrapper? { NameIsOne(w, p.inner); }
  }

  /** What joins fill in for one request: the provider's name, or one of its names, and the request's model. */
  datatype Place = Place(names: set<string>, model: string)

  function PlaceOf(w: World, p: Provider, r: Request): Place { Place(Names(w, p), w.model(r)) }

  /** A provider that is told without joins, and one that is told with them: the same, unless it is not stated; then
      it is a name that was filled in, and without joins none or a name that was filled in later. */
  predicate ProviderAlike(names: set<string>, s: string, s': string) {
    s' == s || (s' in names && s' != "" && (s == "" || s in names))
  }

  /** And a model: the same, unless it is not stated; then it is the request's. */
  predicate ModelAlike(model: string, s: string, s': string) { s' == s || (s == "" && s' == model) }

  predicate FactsAlike(t: Place, f: Facts, f': Facts) {
    && f'.requestID == f.requestID && f'.status == f.status && f'.code == f.code && f'.retryAfter == f.retryAfter
    && ProviderAlike(t.names, f.provider, f'.provider) && ModelAlike(t.model, f.model, f'.model)
  }

  /** What the one chain's caller is told, and the other's. The Op may be lost. */
  predicate Tells(t: Place, e: ErrorGraph.Failure, e': ErrorGraph.Failure) {
    e'.kind == e.kind && e'.op in {e.op, ""} && FactsAlike(t, FactsIn(e), FactsIn(e'))
  }

  /** Two errors of handlers that tell a caller the same and that the layers decide by alike. */
  ghost predicate NearErrors(host: Host, t: Place, x: Error, y: Error) {
    && Handed(host, x) && Handed(host, y) && Tells(t, Told(host, x), Told(host, y))
    && DecisionsOf(AsRead(host, x)) == DecisionsOf(AsRead(host, y))
  }

  ghost predicate Near(host: Host, t: Place, a: Answer, b: Answer) {
    match a
    case Answer(_, _) => b == a
    case Failure(x) => b.Failure? && NearErrors(host, t, x, b.error)
  }

  /** Two errors a provider returns for a request that are taken alike by a layer above it. */
  ghost predicate NearGiven(w: World, p: Provider, r: Request, y: Error, z: Error) {
    && Given(y) && Given(z)
    && NearErrors(w.host, PlaceOf(w, p, r), InOf(w.host, y, NameOf(w, p), w.model(r)),
         InOf(w.host, z, NameOf(w, p), w.model(r)))
  }

  ghost predicate NearReply(w: World, p: Provider, r: Request, a: Reply, b: Reply) {
    match a
    case Reply(_, _) => b == a
    case Refusal(y) => b.Refusal? && NearGiven(w, p, r, y, b.error)
  }

  /** Two handlers over a provider. */
  ghost predicate SameAnswers(w: World, p: Provider, f: Handler, g: Handler) {
    forall r: Request :: Near(w.host, PlaceOf(w, p, r), f(r), g(r))
  }

  ghost predicate SameReplies(w: World, p: Provider, f: Complete, g: Complete) {
    forall r: Request :: NearReply(w, p, r, f(r), g(r))
  }

  /** An answer whose total is filled in, so that a join does not change it. */
  predicate FilledIn(a: Answer) { a.Answer? ==> UsageIn(UsageOut(a.usage)) == a.usage }

  ghost predicate AllFilledIn(f: Handler) { forall r: Request :: FilledIn(f(r)) }

  lemma NearItself(host: Host, t: Place, a: Answer)
    requires a.Failure? ==> Handed(host, a.error)
    ensures Near(host, t, a, a)
  {
  }

  // ---------------------------------------------------------------- layers keep it

  /** What is told of an error is stated in the first 253 errors of its chain, or is the route of its call, so that
      it is told as well when three more are put in front; or it is a route that a join would fill in. */
  ghost predicate Roomy(host: Host, t: Place, x: Error) {
    Handed(host, x) && exists n: nat ::
      Whole(x, n) && FactsAlike(t, Deep(host, x, MAX_CHAIN_NODES - 3, n), FactsIn(Told(host, x)))
  }

  /** All of it is. */
  ghost predicate Early(host: Host, x: Error) {
    Handed(host, x) && exists n: nat :: Whole(x, n) && Deep(host, x, MAX_CHAIN_NODES - 3, n) == FactsIn(Told(host, x))
  }

  /** An attempt of a Retry whose failure is waited out, one after which the next is made, and one whose wait the
      context ends. */
  ghost predicate WaitsOut(host: Host, l: Layer, f: Handler, r: Request, i: nat)
    requires l.Retry?
  {
    i + 1 < l.attempts && f(l.next(r, i)).Failure? && Repeats(AsRead(host, f(l.next(r, i)).error))
  }

  ghost function Going(host: Host, l: Layer, f: Handler, r: Request): nat -> bool
    requires l.Retry?
  {
    (i: nat) => WaitsOut(host, l, f, r, i) && l.over(r, i).None?
  }

  ghost predicate GivesUp(host: Host, l: Layer, f: Handler, r: Request, i: nat)
    requires l.Retry?
  {
    WaitsOut(host, l, f, r, i) && l.over(r, i).Some? && forall k: nat | k < i :: Going(host, l, f, r)(k)
  }

  /** What a layer asks: a gate refuses with errors a handler may return, a repeated request is for the same model,
      and other routes answer what a handler may. */
  ghost predicate Fits(w: World, l: Layer) {
    match l
    case Gate(admits, refusal) => forall r: Request :: admits(r) || Handed(w.host, refusal(r))
    case Retry(_, next, _) => forall r: Request, i: nat :: w.model(next(r, i)) == w.model(r)
    case Failover(_, ways) =>
      forall k, r: Request | 0 <= k < |ways| ::
        FilledIn(ways[k].handler(r)) && (ways[k].handler(r).Failure? ==> Handed(w.host, ways[k].handler(r).error))
    case Other(_) => true
  }

  /** There is room in front of the failures whose wait a Retry gives up. */
  ghost predicate HasRoom(w: World, p: Provider, l: Layer, f: Handler) {
    l.Retry? ==> forall r: Request, i: nat ::
      GivesUp(w.host, l, f, r, i) ==> Roomy(w.host, PlaceOf(w, p, r), f(l.next(r, i)).error)
  }

  ghost predicate IsEarly(w: World, l: Layer, f: Handler) {
    l.Retry? ==> forall r: Request, i: nat :: GivesUp(w.host, l, f, r, i) ==> Early(w.host, f(l.next(r, i)).error)
  }

  /** The facts of two errors, and what is stated early of the first, which is none where none is told. */
  lemma EarlyAlike(t: Place, e: Facts, e': Facts, f: Facts)
    requires FactsAlike(t, e, e') && (e.provider == "" ==> f.provider == "") && (e.model == "" ==> f.model == "")
    ensures FactsAlike(t, f, e') <==> FactsAlike(t, f, e)
  {
  }

  /** The wait for two failures that are alike is ended alike exactly when what is told of the one without a join
      is stated within 253 errors: what has come through a join always is. */
  lemma EndedAlikeIff(host: Host, t: Place, x: Error, y: Error, deadline: bool)
    requires NearErrors(host, t, x, y) && Early(host, y)
    ensures NearErrors(host, t, Ended(x, deadline), Ended(y, deadline)) <==> Roomy(host, t, x)
  {
    var m: nat :| Whole(y, m) && Deep(host, y, MAX_CHAIN_NODES - 3, m) == FactsIn(Told(host, y));
    forall n: nat | Whole(x, n)
      ensures NearErrors(host, t, Ended(x, deadline), Ended(y, deadline))
        <==> FactsAlike(t, Deep(host, x, MAX_CHAIN_NODES - 3, n), FactsIn(Told(host, x)))
    {
      EndedIsTold(host, t, x, y, deadline, n, m);
      DeepStatesNoMore(host, x, MAX_CHAIN_NODES - 3, n);
      EarlyAlike(t, FactsIn(Told(host, x)), FactsIn(Told(host, y)), Deep(host, x, MAX_CHAIN_NODES - 3, n));
    }
  }

  lemma EndedIsTold(host: Host, t: Place, x: Error, y: Error, deadline: bool, n: nat, m: nat)
    requires Whole(x, n) && Whole(y, m)
    ensures NearErrors(host, t, Ended(x, deadline), Ended(y, deadline))
      <==> FactsAlike(t, Deep(host, x, MAX_CHAIN_NODES - 3, n), Deep(host, y, MAX_CHAIN_NODES - 3, m))
  {
    EndedTells(host, x, deadline, n);
    EndedTells(host, y, deadline, m);
  }

  /** Of two failures that are alike both are waited out, or neither is. */
  lemma AttemptsAlike(w: World, p: Provider, l: Layer, f: Handler, g: Handler, r: Request, i: nat)
    requires l.Retry? && SameAnswers(w, p, f, g) && Fits(w, l)
    ensures Near(w.host, PlaceOf(w, p, r), f(l.next(r, i)), g(l.next(r, i)))
    ensures WaitsOut(w.host, l, f, r, i) <==> WaitsOut(w.host, l, g, r, i)
  {
    var a, b := f(l.next(r, i)), g(l.next(r, i));
    assert Near(w.host, PlaceOf(w, p, l.next(r, i)), a, b);
    assert PlaceOf(w, p, l.next(r, i)) == PlaceOf(w, p, r);
    if a.Failure? {
      assert DecisionsOf(AsRead(w.host, a.error)).repeats == DecisionsOf(AsRead(w.host, b.error)).repeats;
    }
  }

  /** The last attempt, from one on, and what a Retry returns for it. */
  function Last(going: nat -> bool, attempts: nat, i: nat): (k: nat)
    ensures k >= i && (forall j: nat | i <= j < k :: going(j)) && (k < attempts ==> !going(k))
    decreases attempts - i
  {
    if i < attempts && going(i) then Last(going, attempts, i + 1) else i
  }

  ghost function Closing(host: Host, l: Layer, f: Handler, r: Request, i: nat): Answer
    requires l.Retry?
  {
    if WaitsOut(host, l, f, r, i) && l.over(r, i).Some? then
      Answer.Failure(Ended(f(l.next(r, i)).error, l.over(r, i).value))
    else f(l.next(r, i))
  }

  lemma TriesAre(host: Host, l: Layer, f: Handler, r: Request, i: nat)
    requires l.Retry?
    ensures WaitsOut(host, l, f, r, i) ==> i + 1 < l.attempts
    ensures Tries(host, l, f, r, i) ==
      if WaitsOut(host, l, f, r, i) && l.over(r, i).None? then Tries(host, l, f, r, i + 1)
      else Closing(host, l, f, r, i)
  {
  }

  lemma {:induction false} TriesEnd(host: Host, l: Layer, f: Handler, r: Request, i: nat, going: nat -> bool)
    requires l.Retry? && going == Going(host, l, f, r)
    ensures Tries(host, l, f, r, i) == Closing(host, l, f, r, Last(going, l.attempts, i))
    decreases l.attempts - i
  {
    TriesAre(host, l, f, r, i);
    if going(i) { TriesEnd(host, l, f, r, i + 1, going); }
  }

  lemma {:induction false} LastAlike(going: nat -> bool, going': nat -> bool, attempts: nat, i: nat)
    requires forall k: nat :: going(k) == going'(k)
    ensures Last(going, attempts, i) == Last(going', attempts, i)
    decreases attempts - i
  {
    if i < attempts && going(i) { LastAlike(going, going', attempts, i + 1); }
  }

  lemma GoingAlike(w: World, p: Provider, l: Layer, f: Handler, g: Handler, r: Request)
    requires l.Retry? && SameAnswers(w, p, f, g) && Fits(w, l)
    ensures forall k: nat :: Going(w.host, l, f, r)(k) == Going(w.host, l, g, r)(k)
  {
    forall k: nat ensures Going(w.host, l, f, r)(k) == Going(w.host, l, g, r)(k) { AttemptsAlike(w, p, l, f, g, r, k); }
  }

  lemma TriesAlike(w: World, p: Provider, l: Layer, f: Handler, g: Handler, r: Request)
    requires l.Retry? && SameAnswers(w, p, f, g) && Fits(w, l) && HasRoom(w, p, l, f) && IsEarly(w, l, g)
    requires AllFilledIn(f)
    ensures Near(w.host, PlaceOf(w, p, r), Tries(w.host, l, f, r, 0), Tries(w.host, l, g, r, 0))
    ensures FilledIn(Tries(w.host, l, f, r, 0))
  {
    var goingF, goingG := Going(w.host, l, f, r), Going(w.host, l, g, r);
    var i := Last(goingF, l.attempts, 0);
    TriesEnd(w.host, l, f, r, 0, goingF);
    TriesEnd(w.host, l, g, r, 0, goingG);
    GoingAlike(w, p, l, f, g, r);
    LastAlike(goingF, goingG, l.attempts, 0);
    AttemptsAlike(w, p, l, f, g, r, i);
    assert FilledIn(f(l.next(r, i)));
    if WaitsOut(w.host, l, f, r, i) && l.over(r, i).Some? { GivenUpAlike(w, p, l, f, g, r, i); }
  }

  lemma GivenUpAlike(w: World, p: Provider, l: Layer, f: Handler, g: Handler, r: Request, i: nat)
    requires l.Retry? && HasRoom(w, p, l, f) && IsEarly(w, l, g)
    requires GivesUp(w.host, l, f, r, i) && GivesUp(w.host, l, g, r, i)
    requires Near(w.host, PlaceOf(w, p, r), f(l.next(r, i)), g(l.next(r, i)))
    ensures NearErrors(w.host, PlaceOf(w, p, r), Ended(f(l.next(r, i)).error, l.over(r, i).value),
      Ended(g(l.next(r, i)).error, l.over(r, i).value))
  {
    EndedAlikeIff(w.host, PlaceOf(w, p, r), f(l.next(r, i)).error, g(l.next(r, i)).error, l.over(r, i).value);
  }

  lemma ContextErrorIsHanded(host: Host, deadline: bool)
    ensures Handed(host, ContextError(deadline))
  {
    var x := ContextError(deadline);
    var g := GraphOf(x.heap);
    assert g == [[]];
    SeekPast(g, Sentinels(x.heap, TRUST_BOUNDARY_VIOLATED), 0, 0);
    SeekPast(g, Sentinels(x.heap, UNTRUSTED_IN_SYSTEM_PROMPT), 0, 0);
    assert Whole(x, 1);
  }

  lemma {:induction false} OnwardAlike(host: Host, t: Place, l: Layer, ways: seq<Way>, a: Answer, b: Answer, r: Request)
    requires l.Failover? && Near(host, t, a, b) && FilledIn(a)
    requires forall k | 0 <= k < |ways| ::
      FilledIn(ways[k].handler(r)) && (ways[k].handler(r).Failure? ==> Handed(host, ways[k].handler(r).error))
    ensures Near(host, t, Onward(host, l.goesOn, ways, a, r), Onward(host, l.goesOn, ways, b, r))
    ensures FilledIn(Onward(host, l.goesOn, ways, a, r))
  {
    if ways != [] && a.Failure? && l.goesOn(DecisionsOf(AsRead(host, a.error))) {
      var c := ways[0].handler(r);
      NearItself(host, t, c);
      if ways[0].over(r).Some? { ContextErrorIsHanded(host, ways[0].over(r).value); }
      OnwardAlike(host, t, l, ways[1..], if ways[0].asked(r) then c else a, if ways[0].asked(r) then c else b, r);
    }
  }

  /** A layer of the package over what answers alike answers alike: whatever it refuses with, however often it
      repeats, whichever routes it goes on to, and when it puts an error of its own in front of a failure. */
  lemma LayerCarries(w: World, p: Provider, l: Layer, f: Handler, g: Handler)
    requires !l.Other? && SameAnswers(w, p, f, g) && Fits(w, l) && HasRoom(w, p, l, f) && IsEarly(w, l, g)
    requires AllFilledIn(f)
    ensures SameAnswers(w, p, Built(w, l, f), Built(w, l, g)) && AllFilledIn(Built(w, l, f))
  {
    var f', g' := Built(w, l, f), Built(w, l, g);
    forall r: Request ensures Near(w.host, PlaceOf(w, p, r), f'(r), g'(r)) && FilledIn(f'(r)) {
      assert Near(w.host, PlaceOf(w, p, r), f(r), g(r)) && FilledIn(f(r));
      match l
      case Gate(admits, refusal) => NearItself(w.host, PlaceOf(w, p, r), f'(r));
      case Retry(_, _, _) => TriesAlike(w, p, l, f, g, r);
      case Failover(_, ways) => OnwardAlike(w.host, PlaceOf(w, p, r), l, ways, f(r), g(r), r);
    }
  }
}
