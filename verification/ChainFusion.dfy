/** A chain of middleware that converts once, at its outermost wrapper, against one that converts at every join:
    for any base and any layers of the package's and of the program's in any order, whatever they answer, refuse,
    repeat or go on to (v2/mw/mw.go:160-195, 197-211, 300-377). */
module ChainFusion {
  import opened Common
  import opened Kinds
  import opened ErrorGraph
  import opened Classifier
  import opened ErrorConvert
  import opened ChainWalk
  import opened ProviderRoundTrip
  import opened Chain
  import opened ChainErrors
  import opened Readings
  import opened HandedErrors
  import opened EndedWaits
  import opened ChainLayers

  // ---------------------------------------------------------------- what is asked of a chain

  ghost predicate SaneBases(w: World) { forall id, r: Request :: w.base(id)(r).Refusal? ==> Given(w.base(id)(r).error) }

  /** A failure the layers above decide by alike with a join beneath them and without. */
  ghost predicate DecidedAlike(host: Host, x: Error) {
    Handed(host, x) && Told(host, x).kind.Some?
      && DecisionsOf(Joined(Told(host, x).kind.value)) == DecisionsOf(AsRead(host, x))
  }

  /** At every place where a wrapper stands on a wrapper, the failures of the one below are. */
  ghost predicate JoinsDecideAlike(w: World, p: Provider) {
    match p
    case Base(_) => true
    case Own(_, inner) => JoinsDecideAlike(w, inner)
    case Wrapper(_, inner, _) =>
      && JoinsDecideAlike(w, inner)
      && (inner.Wrapper? ==>
          forall r: Request :: HandlerOf(w, inner)(r).Failure? ==> DecidedAlike(w.host, HandlerOf(w, inner)(r).error))
  }

  /** Each layer fits, with room in front of the failures under it whose wait it gives up, and where nothing is
      joined under it all that is told of those stated early. Of a layer of the program's, or one of the package's
      that is not modelled, what it makes of the two chains under it is alike when they are. */
  ghost predicate LayersFit(w: World, p: Provider) {
    match p
    case Base(_) => true
    case Own(_, inner) =>
      && LayersFit(w, inner)
      && (SameReplies(w, inner, Answers(w, inner), NaiveAnswers(w, inner))
        ==> SameReplies(w, p, Answers(w, p), NaiveAnswers(w, p)))
    case Wrapper(name, inner, _) =>
      var l, f, g := w.layer(name), InternalOf(w, inner), NaiveInternalOf(w, inner);
      && LayersFit(w, inner) && Fits(w, l) && HasRoom(w, inner, l, f) && (inner.Wrapper? || IsEarly(w, l, g))
      && (l.Other? && SameAnswers(w, inner, f, g) && AllFilledIn(f) ==>
            SameAnswers(w, inner, l.build(f), l.build(g)) && AllFilledIn(l.build(f)))
  }

  // ---------------------------------------------------------------- the proof

  lemma GivenIsNearItself(w: World, p: Provider, r: Request, y: Error)
    requires Given(y)
    ensures NearGiven(w, p, r, y, y)
  {
    TakenIsHanded(w.host, y, NameOf(w, p), w.model(r));
  }

  lemma ThroughTells(t: Place, e: ErrorGraph.Failure, e': ErrorGraph.Failure, name: string)
    requires Tells(t, e, e') && name in t.names
    ensures Tells(t, Through(e, name, t.model), Through(e', name, t.model))
  {
  }

  /** What is told without a join, and with one. */
  lemma JoinTells(t: Place, e: ErrorGraph.Failure, e': ErrorGraph.Failure, name: string)
    requires Tells(t, e, e') && name in t.names
    ensures Tells(t, e, Through(e', name, t.model))
  {
  }

  lemma TellsAside(t: Place, e: ErrorGraph.Failure, e': ErrorGraph.Failure)
    requires Tells(t, e.(message := ""), e'.(message := ""))
    ensures Tells(t, e, e')
  {
    assert FactsIn(e) == FactsIn(e.(message := "")) && FactsIn(e') == FactsIn(e'.(message := ""));
    assert e.op == e.(message := "").op && e.kind == e.(message := "").kind;
    assert e'.op == e'.(message := "").op && e'.kind == e'.(message := "").kind;
  }

  /** Two errors of handlers that are alike are handed on alike. */
  lemma HandedOnAlike(w: World, p: Provider, r: Request, x: Error, y: Error)
    requires NearErrors(w.host, PlaceOf(w, p, r), x, y)
    ensures NearGiven(w, p, r, OutOf(w.host, x), OutOf(w.host, y))
  {
    HandedIsTold(w.host, x);
    HandedIsTold(w.host, y);
    var name, model := NameOf(w, p), w.model(r);
    NameIsOne(w, p);
    TakenTells(w.host, x, name, model);
    TakenTells(w.host, y, name, model);
    ThroughTells(PlaceOf(w, p, r), Told(w.host, x), Told(w.host, y), name);
    TellsAside(PlaceOf(w, p, r), Told(w.host, InOf(w.host, OutOf(w.host, x), name, model)),
      Told(w.host, InOf(w.host, OutOf(w.host, y), name, model)));
  }

  /** A failure that is not joined, beside one that is alike and is. */
  lemma JoinedAlike(w: World, p: Provider, r: Request, x: Error, y: Error)
    requires NearErrors(w.host, PlaceOf(w, p, r), x, y) && DecidedAlike(w.host, x)
    ensures NearErrors(w.host, PlaceOf(w, p, r), x, InOf(w.host, OutOf(w.host, y), NameOf(w, p), w.model(r)))
  {
    var name, model := NameOf(w, p), w.model(r);
    NameIsOne(w, p);
    TakenTells(w.host, y, name, model);
    JoinTells(PlaceOf(w, p, r), Told(w.host, x), Told(w.host, y), name);
    ToldAside(PlaceOf(w, p, r), Told(w.host, x), Told(w.host, InOf(w.host, OutOf(w.host, y), name, model)),
      Through(Told(w.host, y), name, model));
  }

  lemma ToldAside(t: Place, e: ErrorGraph.Failure, e': ErrorGraph.Failure, through: ErrorGraph.Failure)
    requires Tells(t, e, through) && e'.(message := "") == through
    ensures Tells(t, e, e')
  {
    assert FactsIn(e') == FactsIn(through) && e'.op == through.op && e'.kind == through.kind;
  }

  lemma RepliesAlike(w: World, p: Provider, f: Handler, g: Handler)
    requires SameAnswers(w, p, f, g)
    ensures forall r: Request :: NearReply(w, p, r, HandedOn(w, f(r)), HandedOn(w, g(r)))
  {
    forall r: Request ensures NearReply(w, p, r, HandedOn(w, f(r)), HandedOn(w, g(r))) {
      assert Near(w.host, PlaceOf(w, p, r), f(r), g(r));
      if f(r).Failure? { HandedOnAlike(w, p, r, f(r).error, g(r).error); }
    }
  }

  /** What has come through a join states all of it early. */
  lemma JoinedIsEarly(host: Host, x: Error, name: string, model: string)
    requires Handed(host, x)
    ensures Early(host, InOf(host, OutOf(host, x), name, model))
  {
    TakenTells(host, x, name, model);
    HandedIsTold(host, x);
    var y := OutOf(host, x);
    var n: nat :| Says(host, y, n);
    JoinStatesEarly(host, y, name, model, n, MAX_CHAIN_NODES - 3);
    JoinKeeps(host, y, name, model, n);
    InOfIs(host, y, name, model, n + 1);
    var j := InOf(host, y, name, model);
    assert FactsIn(Told(host, j)) == FactsIn(Told(host, j).(message := ""));
    assert Whole(j, n + 5) && FactsIn(Told(host, j)) == Deep(host, j, MAX_CHAIN_NODES - 3, n + 5);
  }

  lemma JoinedAreEarly(w: World, p: Provider, l: Layer)
    requires p.Wrapper? && SameAnswers(w, p, HandlerOf(w, p), NaiveHandlerOf(w, p))
    ensures IsEarly(w, l, NaiveInternalOf(w, p))
  {
    var g, h := NaiveInternalOf(w, p), NaiveHandlerOf(w, p);
    forall q: Request | g(q).Failure? ensures Early(w.host, g(q).error) {
      assert Near(w.host, PlaceOf(w, p, q), HandlerOf(w, p)(q), h(q));
      assert NaiveAnswers(w, p)(q) == HandedOn(w, h(q));
      JoinedIsEarly(w.host, h(q).error, NameOf(w, p), w.model(q));
    }
  }

  /** For any base, any layers, and any answers, refusals and failures: the chain that converts once, at its
      outermost wrapper, answers as the one that converts at every join. An answer is the same; of a failure
      the caller is told the same kind, id, status, code and wait, and the same route where one is stated: where it
      is not, the joins fill in the provider's name and the request's model. It is so as long as the failures where
      a wrapper stands on a wrapper are ones a join leaves nothing to tell apart, and there is room in front of
      those that a Retry puts an error of its own in front of. */
  lemma {:induction false} FusionIsUnseen(w: World, p: Provider)
    requires SaneBases(w) && LayersFit(w, p) && JoinsDecideAlike(w, p)
    ensures SameReplies(w, p, Answers(w, p), NaiveAnswers(w, p))
    ensures p.Wrapper? ==> SameAnswers(w, p, HandlerOf(w, p), NaiveHandlerOf(w, p)) && AllFilledIn(HandlerOf(w, p))
    decreases p
  {
    match p
    case Base(id) =>
      forall r: Request ensures NearReply(w, p, r, w.base(id)(r), w.base(id)(r)) {
        if w.base(id)(r).Refusal? { GivenIsNearItself(w, p, r, w.base(id)(r).error); }
      }
    case Own(_, inner) => FusionIsUnseen(w, inner);
    case Wrapper(name, inner, _) =>
      FusionIsUnseen(w, inner);
      JoinIsUnseen(w, inner);
      LayerIsUnseen(w, p);
      RepliesAlike(w, p, HandlerOf(w, p), NaiveHandlerOf(w, p));
  }

  lemma LayerIsUnseen(w: World, p: Provider)
    requires p.Wrapper? && LayersFit(w, p) && AllFilledIn(InternalOf(w, p.inner))
    requires SameAnswers(w, p.inner, InternalOf(w, p.inner), NaiveInternalOf(w, p.inner))
    requires p.inner.Wrapper? ==> SameAnswers(w, p.inner, HandlerOf(w, p.inner), NaiveHandlerOf(w, p.inner))
    ensures SameAnswers(w, p, HandlerOf(w, p), NaiveHandlerOf(w, p)) && AllFilledIn(HandlerOf(w, p))
  {
    var l, f, g := w.layer(p.name), InternalOf(w, p.inner), NaiveInternalOf(w, p.inner);
    if p.inner.Wrapper? { JoinedAreEarly(w, p.inner, l); }
    if !l.Other? { LayerCarries(w, p.inner, l, f, g); }
    WrapsTheSame(w, p, HandlerOf(w, p), NaiveHandlerOf(w, p));
  }

  /** A wrapper has the name of what it wraps. */
  lemma WrapsTheSame(w: World, p: Provider, f: Handler, g: Handler)
    requires p.Wrapper? && SameAnswers(w, p.inner, f, g)
    ensures SameAnswers(w, p, f, g)
  {
    forall r: Request ensures Near(w.host, PlaceOf(w, p, r), f(r), g(r)) {
      assert Near(w.host, PlaceOf(w, p.inner, r), f(r), g(r)) && PlaceOf(w, p.inner, r) == PlaceOf(w, p, r);
    }
  }

  lemma JoinIsUnseen(w: World, p: Provider)
    requires SameReplies(w, p, Answers(w, p), NaiveAnswers(w, p))
    requires p.Wrapper? ==> SameAnswers(w, p, HandlerOf(w, p), NaiveHandlerOf(w, p)) && AllFilledIn(HandlerOf(w, p))
    requires p.Wrapper? ==>
      forall r: Request :: HandlerOf(w, p)(r).Failure? ==> DecidedAlike(w.host, HandlerOf(w, p)(r).error)
    ensures SameAnswers(w, p, InternalOf(w, p), NaiveInternalOf(w, p)) && AllFilledIn(InternalOf(w, p))
  {
    if p.Wrapper? {
      forall r: Request ensures Near(w.host, PlaceOf(w, p, r), InternalOf(w, p)(r), NaiveInternalOf(w, p)(r)) {
        WrapperJoins(w, p, r);
      }
    } else {
      forall r: Request ensures Near(w.host, PlaceOf(w, p, r), InternalOf(w, p)(r), NaiveInternalOf(w, p)(r)) {
        assert NearReply(w, p, r, Answers(w, p)(r), NaiveAnswers(w, p)(r));
      }
      forall r: Request ensures FilledIn(InternalOf(w, p)(r)) {
        if Answers(w, p)(r).Reply? { UsageComesBack(Answers(w, p)(r).usage); }
      }
    }
  }

  lemma WrapperJoins(w: World, p: Provider, r: Request)
    requires p.Wrapper? && SameAnswers(w, p, HandlerOf(w, p), NaiveHandlerOf(w, p)) && AllFilledIn(HandlerOf(w, p))
    requires HandlerOf(w, p)(r).Failure? ==> DecidedAlike(w.host, HandlerOf(w, p)(r).error)
    ensures Near(w.host, PlaceOf(w, p, r), InternalOf(w, p)(r), NaiveInternalOf(w, p)(r))
  {
    var a, b := HandlerOf(w, p)(r), NaiveHandlerOf(w, p)(r);
    assert Near(w.host, PlaceOf(w, p, r), a, b);
    assert NaiveAnswers(w, p)(r) == HandedOn(w, b);
    if a.Failure? { JoinedAlike(w, p, r, a.error, b.error); }
  }

  /** What is told of a route with joins, against what is told without: the model is the same, or none is stated and
      the request's is filled in; and so is the provider, when no layer of the program's has a name of its own. */
  predicate RouteKept(name: string, model: string, e: ErrorGraph.Failure, e': ErrorGraph.Failure) {
    && (e'.provider == e.provider || (e.provider == "" && e'.provider == name))
    && (e'.model == e.model || (e.model == "" && e'.model == model))
  }

  /** What a caller of a chain whose outermost layer is the package's is told of a failure. */
  lemma CallersAreToldAlike(w: World, p: Provider, r: Request)
    requires SaneBases(w) && LayersFit(w, p) && JoinsDecideAlike(w, p) && p.Wrapper?
    ensures match Answers(w, p)(r)
      case Reply(_, _) => NaiveAnswers(w, p)(r) == Answers(w, p)(r)
      case Refusal(y) =>
        var b := NaiveAnswers(w, p)(r);
        && b.Refusal? && HasFailure(y) && HasFailure(b.error)
        && Tells(PlaceOf(w, p, r), FailureOf(y), FailureOf(b.error))
        && (OneName(w, p) ==> RouteKept(NameOf(w, p), w.model(r), FailureOf(y), FailureOf(b.error)))
  {
    FusionIsUnseen(w, p);
    var a, b := HandlerOf(w, p)(r), NaiveHandlerOf(w, p)(r);
    assert Near(w.host, PlaceOf(w, p, r), a, b);
    if a.Failure? {
      HandedIsTold(w.host, a.error);
      HandedIsTold(w.host, b.error);
      OneNameKeepsRoutes(w, p, r, Told(w.host, a.error), Told(w.host, b.error));
    }
  }

  lemma OneNameKeepsRoutes(w: World, p: Provider, r: Request, e: ErrorGraph.Failure, e': ErrorGraph.Failure)
    requires Tells(PlaceOf(w, p, r), e, e')
    ensures OneName(w, p) ==> RouteKept(NameOf(w, p), w.model(r), e, e')
  {
  }
}
