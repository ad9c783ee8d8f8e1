/** Where the chain that converts once and the chain that converts at every join differ: in the Op, in what a layer
    decides by a failure that a join makes another of, and in the route of a failure that states none; for what a
    Retry puts in front of a failure see DeepFailures (v2/mw/mw.go:214-250, 362-377;
    v2/internal/runtime/mw/retry.go:159-172, 211-221, fallback.go:307-338). */
module ChainDiffers {
  import opened Common
  import opened Kinds
  import opened ErrorGraph
  import opened Classifier
  import opened ErrorConvert
  import opened ChainWalk
  import opened FiniteChains
  import opened MoreSteps
  import opened ProviderRoundTrip
  import opened Chain
  import opened ChainErrors
  import opened Readings
  import opened HandedErrors
  import opened EndedWaits
  import opened ChainLayers
  import opened ChainFusion
  import Fallback
  import FallbackDefault
  import Records

  // ---------------------------------------------------------------- the Op

  /** The outermost layer of a chain hands on as it is the failure of the wrapper under it, in both chains. */
  ghost predicate HandsOn(w: World, p: Provider, r: Request) {
    && p.Wrapper? && p.inner.Wrapper? && SaneBases(w) && LayersFit(w, p.inner) && JoinsDecideAlike(w, p.inner)
    && HandlerOf(w, p.inner)(r).Failure? && HandlerOf(w, p)(r) == InternalOf(w, p.inner)(r)
    && NaiveHandlerOf(w, p)(r) == NaiveInternalOf(w, p.inner)(r)
  }

  /** What is told of it: without the join what is told of the failure itself, and with it what a join makes of a
      failure that is alike. */
  lemma HandedOnIsTold(w: World, p: Provider, r: Request) returns (x: Error, y: Error)
    requires HandsOn(w, p, r)
    ensures HandlerOf(w, p.inner)(r) == Answer.Failure(x) && NearErrors(w.host, PlaceOf(w, p.inner, r), x, y)
    ensures Answers(w, p)(r).Refusal? && NaiveAnswers(w, p)(r).Refusal?
    ensures HasFailure(Answers(w, p)(r).error) && HasFailure(NaiveAnswers(w, p)(r).error)
    ensures FailureOf(Answers(w, p)(r).error) == Told(w.host, x)
    ensures FailureOf(NaiveAnswers(w, p)(r).error).(message := "")
      == Through(Told(w.host, y), NameOf(w, p.inner), w.model(r))
  {
    FusionIsUnseen(w, p.inner);
    var b := NaiveHandlerOf(w, p.inner)(r);
    assert Near(w.host, PlaceOf(w, p.inner, r), HandlerOf(w, p.inner)(r), b);
    assert NaiveAnswers(w, p.inner)(r) == HandedOn(w, b);
    x, y := HandlerOf(w, p.inner)(r).error, b.error;
    TakenTells(w.host, y, NameOf(w, p.inner), w.model(r));
    HandedIsTold(w.host, x);
    HandedIsTold(w.host, InOf(w.host, OutOf(w.host, y), NameOf(w, p.inner), w.model(r)));
  }

  /** Whatever the layers, where the outermost hands on as it is the failure of the wrapper under it: the Op that
      is told through the join is none, and without it the one the failure has by then, so that the two chains
      differ in it exactly when a layer named itself below. */
  lemma OpIsLostIff(w: World, p: Provider, r: Request)
    requires HandsOn(w, p, r)
    ensures Answers(w, p)(r).Refusal? && NaiveAnswers(w, p)(r).Refusal?
    ensures var x, y, z := HandlerOf(w, p.inner)(r).error, Answers(w, p)(r).error, NaiveAnswers(w, p)(r).error;
      && HasFailure(y) && HasFailure(z) && Handed(w.host, x)
      && FailureOf(z).op == "" && FailureOf(y).op == Told(w.host, x).op
      && (FailureOf(y).op == FailureOf(z).op <==> Told(w.host, x).op == "")
  {
    var x, y := HandedOnIsTold(w, p, r);
    var e := FailureOf(NaiveAnswers(w, p)(r).error);
    assert e.op == e.(message := "").op;
  }

  // ---------------------------------------------------------------- the route

  /** The route that is told through the join is the failure's where it states one, and else the provider's name and
      the request's model, which without the join are not told: so the two chains differ in the model exactly when
      none is stated and the request names one, and in the provider exactly when none is stated and it has a name.
      Where a layer of the program's has a name of its own, a provider that is none of the names is told as it is
      by both. */
  lemma RouteIsFilledInIff(w: World, p: Provider, r: Request)
    requires HandsOn(w, p, r)
    ensures Answers(w, p)(r).Refusal? && NaiveAnswers(w, p)(r).Refusal?
    ensures HasFailure(Answers(w, p)(r).error) && HasFailure(NaiveAnswers(w, p)(r).error)
    ensures var e, e' := FailureOf(Answers(w, p)(r).error), FailureOf(NaiveAnswers(w, p)(r).error);
      && e'.model == Or(e.model, w.model(r)) && (e'.model != e.model <==> e.model == "" && w.model(r) != "")
      && (OneName(w, p.inner) ==>
            && e'.provider == Or(e.provider, NameOf(w, p.inner))
            && (e'.provider != e.provider <==> e.provider == "" && NameOf(w, p.inner) != ""))
      && (e.provider != "" && e.provider !in Names(w, p.inner) ==> e'.provider == e.provider)
      && (e'.provider != e.provider ==> e'.provider in Names(w, p.inner))
  {
    var x, y := HandedOnIsTold(w, p, r);
    NameIsOne(w, p.inner);
    var e' := FailureOf(NaiveAnswers(w, p)(r).error);
    assert e'.provider == e'.(message := "").provider && e'.model == e'.(message := "").model;
  }

  // ---------------------------------------------------------------- two layers

  /** A chain of two layers of the package around a base. */
  function Two(): Provider { NewWrapper("above", NewWrapper("below", Base(0))) }

  function Stack(host: Host, above: Layer, below: Layer, base: Complete, name: string, model: string): World {
    World(host, (id: nat) => base, (id: nat) => name, (id: nat, c: Complete) => c, (id: nat, given: string) => given,
          (layer: string) => if layer == "above" then above else below, (r: Request) => model)
  }

  const SPENT := TokenUsage(0, 0, 0, 0, 0, 0, 0, 0)

  /** A base, and another route, that always answer. */
  function Answering(): Complete { (r: Request) => Reply(0, UsageOut(SPENT)) }

  function AnotherWay(): Way {
    Way((r: Request) => None, (r: Request) => true, (r: Request) => Answer.Answer(0, SPENT))
  }

  /** A layer that refuses every request with an error, or only the first. */
  function Refusing(x: Error): Layer { Gate((r: Request) => false, (r: Request) => x) }

  function RefusingOnce(x: Error): Layer { Gate((r: Request) => r != 0, (r: Request) => x) }

  /** It has the name of its base. */
  lemma TwoIsNamed(w: World)
    ensures w.named(0) in Names(w, Two())
  {
    var below := NewWrapper("below", Base(0));
    assert Two().inner == below && NameOf(w, Two()) == NameOf(w, below) == NameOf(w, Base(0));
    NameIsOne(w, Two());
  }

  /** What the lower of the two answers, and what a join makes of that. */
  lemma TheLower(w: World, r: Request)
    ensures Two().inner.Wrapper? && NameOf(w, Two().inner) == w.named(0)
    ensures InternalOf(w, Two().inner) == HandlerOf(w, Two().inner)
      == Built(w, w.layer("below"), InternalOf(w, Base(0)))
    ensures NaiveHandlerOf(w, Two().inner) == Built(w, w.layer("below"), NaiveInternalOf(w, Base(0)))
    ensures NaiveInternalOf(w, Two().inner)(r)
      == Taken(w, HandedOn(w, NaiveHandlerOf(w, Two().inner)(r)), Two().inner, r)
  {
  }

  /** What the upper has under it where the lower fails: the failure itself, and what a join makes of it. */
  lemma UnderTheUpper(w: World, below: Layer, x: Error, r: Request)
    requires w.layer("below") == below && below.Gate? && !below.admits(r) && below.refusal(r) == x
    ensures InternalOf(w, Two().inner)(r) == Answer.Failure(x)
    ensures NaiveInternalOf(w, Two().inner)(r) == Answer.Failure(InOf(w.host, OutOf(w.host, x), w.named(0), w.model(r)))
  {
    TheLower(w, r);
  }

  /** What the two chains answer is what the upper layer makes of those. */
  lemma UpperAnswers(w: World, r: Request)
    ensures Answers(w, Two())(r) == HandedOn(w, Built(w, w.layer("above"), InternalOf(w, Two().inner))(r))
    ensures NaiveAnswers(w, Two())(r) == HandedOn(w, Built(w, w.layer("above"), NaiveInternalOf(w, Two().inner))(r))
  {
  }

  /** What a caller is told. */
  function KindTold(a: Reply): Option<Kind> {
    if a.Refusal? && HasFailure(a.error) then FailureOf(a.error).kind else None
  }

  function OpTold(a: Reply): Option<string> {
    if a.Refusal? && HasFailure(a.error) then Some(FailureOf(a.error).op) else None
  }

  function StatusTold(a: Reply): Option<int> {
    if a.Refusal? && HasFailure(a.error) then Some(FailureOf(a.error).status) else None
  }

  function RouteTold(a: Reply): Option<(string, string)> {
    if a.Refusal? && HasFailure(a.error) then Some((FailureOf(a.error).provider, FailureOf(a.error).model)) else None
  }

  lemma ToldIs(host: Host, x: Error)
    requires Handed(host, x)
    ensures var a := Refusal(OutOf(host, x));
      && KindTold(a) == Told(host, x).kind && OpTold(a) == Some(Told(host, x).op)
      && StatusTold(a) == Some(Told(host, x).status)
      && RouteTold(a) == Some((Told(host, x).provider, Told(host, x).model))
  {
    HandedIsTold(host, x);
  }

  // ---------------------------------------------------------------- what is decided by a failure

  /** Fallback, or any layer that goes on to another route by what it reads of a failure, over a layer that fails;
      around any base, of any name and for any model. */
  ghost predicate Chooses(w: World, goesOn: Decisions -> bool, x: Error) {
    w.layer("above") == Failover(goesOn, [AnotherWay()]) && w.layer("below") == Refusing(x)
  }

  lemma Chosen(w: World, goesOn: Decisions -> bool, x: Error, r: Request)
    requires Handed(w.host, x) && Chooses(w, goesOn, x)
    ensures var j := InOf(w.host, OutOf(w.host, x), w.named(0), w.model(r));
      && (Answers(w, Two())(r) == if goesOn(DecisionsOf(AsRead(w.host, x))) then Reply(0, UsageOut(SPENT))
        else Refusal(OutOf(w.host, x)))
      && (NaiveAnswers(w, Two())(r) == if goesOn(DecisionsOf(AsRead(w.host, j))) then Reply(0, UsageOut(SPENT))
        else Refusal(OutOf(w.host, j)))
  {
    UnderTheUpper(w, Refusing(x), x, r);
    UpperAnswers(w, r);
    GoesOnOnce(w.host, goesOn, [AnotherWay()], x, r);
    GoesOnOnce(w.host, goesOn, [AnotherWay()], InOf(w.host, OutOf(w.host, x), w.named(0), w.model(r)), r);
  }

  /** The same, as what the callers of the two are told. */
  lemma ChosenTells(w: World, goesOn: Decisions -> bool, x: Error, kind: Kind, r: Request)
    requires Handed(w.host, x) && Chooses(w, goesOn, x) && Told(w.host, x).kind == Some(kind)
    ensures var a := Answers(w, Two())(r);
      if goesOn(DecisionsOf(AsRead(w.host, x))) then a.Reply?
      else
        && a.Refusal? && KindTold(a) == Some(kind) && OpTold(a) == Some(Told(w.host, x).op)
        && RouteTold(a) == Some((Told(w.host, x).provider, Told(w.host, x).model))
    ensures var b := NaiveAnswers(w, Two())(r);
      if goesOn(DecisionsOf(Joined(kind))) then b.Reply?
      else
        && b.Refusal? && KindTold(b) == Some(kind) && OpTold(b) == Some("")
        && RouteTold(b) == Some((Or(Told(w.host, x).provider, w.named(0)), Or(Told(w.host, x).model, w.model(r))))
  {
    JoinedIsTold(w.host, x, w.named(0), w.model(r));
    TakenIsRead(w.host, x, w.named(0), w.model(r), kind);
    Chosen(w, goesOn, x, r);
    ToldIs(w.host, x);
    ToldIs(w.host, InOf(w.host, OutOf(w.host, x), w.named(0), w.model(r)));
  }

  lemma JoinedIsTold(host: Host, x: Error, name: string, model: string)
    requires Handed(host, x)
    ensures Handed(host, InOf(host, OutOf(host, x), name, model))
    ensures var e, e' := Told(host, x), Told(host, InOf(host, OutOf(host, x), name, model));
      e'.kind == e.kind && e'.op == "" && e'.provider == Or(e.provider, name) && e'.model == Or(e.model, model)
  {
    TakenTells(host, x, name, model);
    var e' := Told(host, InOf(host, OutOf(host, x), name, model));
    assert e'.op == e'.(message := "").op && e'.kind == e'.(message := "").kind;
    assert e'.provider == e'.(message := "").provider && e'.model == e'.(message := "").model;
  }

  lemma LayersOf(host: Host, above: Layer, below: Layer, base: Complete, name: string, model: string)
    ensures var w := Stack(host, above, below, base, name, model);
      w.layer("above") == above && w.layer("below") == below
  {
    assert "above"[0] != "below"[0];
  }

  lemma GoesOnOnce(host: Host, goesOn: Decisions -> bool, ways: seq<Way>, x: Error, r: Request)
    requires ways == [AnotherWay()]
    ensures Onward(host, goesOn, ways, Answer.Failure(x), r)
         == if goesOn(DecisionsOf(AsRead(host, x))) then Answer.Answer(0, SPENT) else Answer.Failure(x)
  {
    assert ways[1..] == [];
  }

  /** A failure, and what a join makes of it, are taken alike at another join. */
  lemma JoinedTwice(w: World, p: Provider, r: Request, x: Error, name: string)
    requires Handed(w.host, x) && name in Names(w, p)
    ensures NearGiven(w, p, r, OutOf(w.host, x), OutOf(w.host, InOf(w.host, OutOf(w.host, x), name, w.model(r))))
  {
    var host, given, model := w.host, NameOf(w, p), w.model(r);
    var j := InOf(host, OutOf(host, x), name, model);
    TakenTells(host, x, name, model);
    TakenTells(host, x, given, model);
    TakenTells(host, j, given, model);
    HandedIsTold(host, x);
    HandedIsTold(host, j);
    assert Through(Told(host, j), given, model) == Through(Told(host, j).(message := ""), given, model);
    NameIsOne(w, p);
    TellsAside(PlaceOf(w, p, r), Told(host, InOf(host, OutOf(host, x), given, model)),
      Told(host, InOf(host, OutOf(host, j), given, model)));
    assert Told(host, j).kind == Told(host, j).(message := "").kind;
  }

  /** For a request the one of two providers answers or fails with an error, and the other answers or fails with
      what a join makes of it. */
  ghost predicate Splits(w: World, f: Complete, g: Complete, x: Error, name: string, goes: bool, goes': bool,
      r: Request)
  {
    && f(r) == (if goes then Reply(0, UsageOut(SPENT)) else Refusal(OutOf(w.host, x)))
    && g(r) == (if goes' then Reply(0, UsageOut(SPENT))
                else Refusal(OutOf(w.host, InOf(w.host, OutOf(w.host, x), name, w.model(r)))))
  }

  lemma SplitIsNear(w: World, p: Provider, f: Complete, g: Complete, x: Error, name: string, goes: bool, goes': bool,
      r: Request)
    requires Handed(w.host, x) && name in Names(w, p) && Splits(w, f, g, x, name, goes, goes', r)
    ensures NearReply(w, p, r, f(r), g(r)) <==> goes == goes'
  {
    JoinedTwice(w, p, r, x, name);
  }

  lemma SplitsAreAlikeIff(w: World, p: Provider, f: Complete, g: Complete, x: Error, name: string, goes: bool,
      goes': bool)
    requires Handed(w.host, x) && name in Names(w, p) && Splits(w, f, g, x, name, goes, goes', 0)
    requires forall r: Request | r != 0 ::
      Splits(w, f, g, x, name, goes, goes', r) || Splits(w, f, g, x, name, true, true, r)
    ensures SameReplies(w, p, f, g) <==> goes == goes'
  {
    SplitIsNear(w, p, f, g, x, name, goes, goes', 0);
    forall r: Request ensures goes == goes' ==> NearReply(w, p, r, f(r), g(r)) {
      if Splits(w, f, g, x, name, goes, goes', r) {
        SplitIsNear(w, p, f, g, x, name, goes, goes', r);
      } else {
        SplitIsNear(w, p, f, g, x, name, true, true, r);
      }
    }
  }

  lemma ChosenSplits(w: World, goesOn: Decisions -> bool, x: Error, kind: Kind, r: Request)
    requires Handed(w.host, x) && Chooses(w, goesOn, x) && Told(w.host, x).kind == Some(kind)
    ensures Splits(w, Answers(w, Two()), NaiveAnswers(w, Two()), x, w.named(0),
      goesOn(DecisionsOf(AsRead(w.host, x))), goesOn(DecisionsOf(Joined(kind))), r)
  {
    TakenIsRead(w.host, x, w.named(0), w.model(r), kind);
    Chosen(w, goesOn, x, r);
  }

  /** Under a layer that goes on to another route by what it reads of a failure, the two chains answer alike exactly
      when it decides alike by what it reads without the join and after it. */
  lemma ChosenAlikeIff(w: World, goesOn: Decisions -> bool, x: Error, kind: Kind)
    requires Handed(w.host, x) && Chooses(w, goesOn, x) && Told(w.host, x).kind == Some(kind)
    ensures SameReplies(w, Two(), Answers(w, Two()), NaiveAnswers(w, Two())) <==>
      (goesOn(DecisionsOf(AsRead(w.host, x))) == goesOn(DecisionsOf(Joined(kind))))
  {
    var goes, goes' := goesOn(DecisionsOf(AsRead(w.host, x))), goesOn(DecisionsOf(Joined(kind)));
    var f, g := Answers(w, Two()), NaiveAnswers(w, Two());
    forall r: Request ensures Splits(w, f, g, x, w.named(0), goes, goes', r) { ChosenSplits(w, goesOn, x, kind, r); }
    TwoIsNamed(w);
    SplitsAreAlikeIff(w, Two(), f, g, x, w.named(0), goes, goes');
  }

  /** Under any such layer, in any world, the two chains are told apart by no request. */
  ghost predicate ChosenAlike(host: Host, x: Error, goesOn: Decisions -> bool) {
    forall w: World | w.host == host && Chooses(w, goesOn, x) ::
      SameReplies(w, Two(), Answers(w, Two()), NaiveAnswers(w, Two()))
  }

  lemma ChosenAlikeIs(host: Host, x: Error, goesOn: Decisions -> bool, kind: Kind)
    requires Handed(host, x) && Told(host, x).kind == Some(kind)
    ensures ChosenAlike(host, x, goesOn) <==>
      (goesOn(DecisionsOf(AsRead(host, x))) == goesOn(DecisionsOf(Joined(kind))))
  {
    forall w: World | w.host == host && Chooses(w, goesOn, x)
      ensures SameReplies(w, Two(), Answers(w, Two()), NaiveAnswers(w, Two())) <==>
        (goesOn(DecisionsOf(AsRead(host, x))) == goesOn(DecisionsOf(Joined(kind))))
    {
      ChosenAlikeIff(w, goesOn, x, kind);
    }
    var w := Stack(host, Failover(goesOn, [AnotherWay()]), Refusing(x), Answering(), "", "");
    LayersOf(host, Failover(goesOn, [AnotherWay()]), Refusing(x), Answering(), "", "");
    assert w.host == host && Chooses(w, goesOn, x);
  }

  /** To be decided alike is not only enough of a failure at a join, it is what it takes: of any failure, whether
      it is decided alike is whether the two chains answer alike under every layer that decides by it. */
  lemma DecidedAlikeIffUnseen(host: Host, x: Error)
    requires Handed(host, x)
    ensures DecidedAlike(host, x) <==> forall goesOn: Decisions -> bool :: ChosenAlike(host, x, goesOn)
  {
    TakenTells(host, x, "", "");
    var kind := Told(host, x).kind.value;
    if DecidedAlike(host, x) {
      forall goesOn: Decisions -> bool ensures ChosenAlike(host, x, goesOn) { ChosenAlikeIs(host, x, goesOn, kind); }
    } else {
      var goesOn := OnlyFor(DecisionsOf(AsRead(host, x)));
      ChosenAlikeIs(host, x, goesOn, kind);
      assert !ChosenAlike(host, x, goesOn);
    }
  }

  function OnlyFor(seen: Decisions): Decisions -> bool { (d: Decisions) => d == seen }

  /** Which failures are decided alike, for every error a handler may return: by what decided its kind, and by
      what the layers read of it. */
  lemma DecidedAlikeIffSurvives(host: Host, x: Error, n: nat)
    requires Whole(x, n) && Fixed(host, x) && n > 0
    ensures ClassifiedBy(x.heap, x.at, n).Done? && SentinelKind(x.heap, x.at, 0, n).Done?
    ensures DecidedAlike(host, x)
       <==> IsReadAsTold(x.heap, ClassifiedBy(x.heap, x.at, n).value, SentinelKind(x.heap, x.at, 0, n).value,
         AsRead(host, x))
  {
    AlikeIff(host, x, n);
    ToldIsHandedOn(host, x, n);
    OutOfIs(host, x, n + 1);
    AsReadIs(host, x, n);
    ReadAlikeIff(ToldKind(host, x, n).value, ReadOf(host, x, n).value);
  }

  /** A refusal of a layer of the package, with any message and any wait: it states no route. */
  predicate IsRefusal(x: Error, kind: InternalKind, op: string) {
    && |x.heap| == 1 && x.at == At(0) && x.heap[0].Operation? && kind != KindUnknown
    && x.heap[0] == Operation(kind, NarrowNone, op, "", "", "", x.heap[0].retryAfter, x.heap[0].message, Nil)
  }

  lemma RefusalIsHanded(host: Host, x: Error, kind: InternalKind, op: string)
    requires IsRefusal(x, kind, op)
    ensures Whole(x, 2) && Handed(host, x)
  {
    FallbackDefault.OperationAloneIsWhole(x);
  }

  /** What is read of a refusal, and what a caller is told of it. */
  lemma RefusalIsRead(host: Host, x: Error, kind: InternalKind, op: string)
    requires IsRefusal(x, kind, op)
    ensures Handed(host, x) && AsRead(host, x) == Read(kind, NarrowNone)
    ensures Told(host, x).kind == KindFromInternal(kind, NarrowNone) && Told(host, x).op == LayerOp(op)
  {
    RefusalIsHanded(host, x, kind, op);
    RefusalIsNamed(host, x, 2);
    OutOfIs(host, x, 2);
    OperationIsRead(host, x.heap, 0, 1);
    AsReadIs(host, x, 1);
  }

  /** And it states no route. */
  lemma RefusalIsNowhere(host: Host, x: Error, kind: InternalKind, op: string)
    requires IsRefusal(x, kind, op)
    ensures Handed(host, x) && Told(host, x).provider == "" && Told(host, x).model == ""
  {
    var h := x.heap;
    RefusalIsHanded(host, x, kind, op);
    OutTellsChain(host, x, 2);
    OutOfIs(host, x, 3);
    var e := Told(host, x);
    assert e.provider == FactsIn(e).provider && e.model == FactsIn(e).model;
    assert Routed(h) == {};
    NothingIsSought(GraphOf(h), Routed(h), 1);
    SeekPast(GraphOf(h), Routed(h), 0, 1);
    WrapperStatesFirst(h, 0, Nil, MAX_CHAIN_NODES, host.letter);
  }

  /** A budget's refusal is named by the chain that converts once, and told without a route; after a join it has no
      name, and the provider's name and the request's model. */
  lemma BudgetLosesItsName(w: World, x: Error, r: Request)
    requires IsRefusal(x, KindBudgetExceeded, "mw.Budget") && Chooses(w, (d: Decisions) => d.failsOver, x)
    ensures OpTold(Answers(w, Two())(r)) == Some("mw.budget") && OpTold(NaiveAnswers(w, Two())(r)) == Some("")
    ensures RouteTold(Answers(w, Two())(r)) == Some(("", ""))
    ensures RouteTold(NaiveAnswers(w, Two())(r)) == Some((w.named(0), w.model(r)))
  {
    RefusalIsRead(w.host, x, KindBudgetExceeded, "mw.Budget");
    RefusalIsNowhere(w.host, x, KindBudgetExceeded, "mw.Budget");
    BudgetStops();
    ChosenTells(w, (d: Decisions) => d.failsOver, x, ErrBudgetExceeded, r);
  }

  lemma BudgetStops()
    ensures KindFromInternal(KindBudgetExceeded, NarrowNone) == Some(ErrBudgetExceeded)
      && LayerOp("mw.Budget") == "mw.budget"
    ensures !DecisionsOf(Read(KindBudgetExceeded, NarrowNone)).failsOver
      && !DecisionsOf(Joined(ErrBudgetExceeded)).failsOver
  {
  }

  /** A layer that was set up wrong, beneath a Fallback: with nothing converted between, the request is answered by
      the next route, unless the text of the error holds a phrase of the library's that stops; and after a join it
      is refused as the configuration error it is. */
  lemma MisconfiguredIsAnsweredForIff(w: World, failure: ErrorGraph.Failure, r: Request)
    requires failure.kind == Some(ErrConfiguration) && failure.code == ""
    requires Chooses(w, (d: Decisions) => d.failsOver, Alone(failure))
    ensures var read := KindFromText(w.host, w.host.text(Alone(failure).heap, 0));
      Answers(w, Two())(r).Reply? <==> read !in {KindConfiguration, KindCanceled, KindBudgetExceeded}
    ensures KindTold(NaiveAnswers(w, Two())(r)) == Some(ErrConfiguration)
  {
    MisconfiguredIsHanded(w.host, failure);
    TextGoesOn(w.host, w.host.text(Alone(failure).heap, 0));
    ChosenTells(w, (d: Decisions) => d.failsOver, Alone(failure), ErrConfiguration, r);
  }

  /** What Fallback makes of a phrase, and of a configuration error after a join. */
  lemma TextGoesOn(host: Host, text: string)
    ensures DecisionsOf(Read(KindFromText(host, text), NarrowNone)).failsOver
       <==> KindFromText(host, text) !in {KindConfiguration, KindCanceled, KindBudgetExceeded}
    ensures !DecisionsOf(Joined(ErrConfiguration)).failsOver
  {
  }

  /** Fallback tells the two chains apart by a failure exactly when its own reading of it is another after a join. */
  lemma FallbackIsAlikeIff(w: World, x: Error, kind: Kind)
    requires Handed(w.host, x) && Told(w.host, x).kind == Some(kind) && Chooses(w, (d: Decisions) => d.failsOver, x)
    ensures var r, j := AsRead(w.host, x), Joined(kind);
      SameReplies(w, Two(), Answers(w, Two()), NaiveAnswers(w, Two())) <==>
      (Fallback.GoesOnByDefault(r.kind, r.narrow) == Fallback.GoesOnByDefault(j.kind, j.narrow))
  {
    ChosenAlikeIff(w, (d: Decisions) => d.failsOver, x, kind);
  }

  lemma MisconfiguredIsHanded(host: Host, failure: ErrorGraph.Failure)
    requires failure.kind.Some? && failure.code == ""
    ensures var x := Alone(failure);
      && Handed(host, x) && Told(host, x).kind == failure.kind
      && AsRead(host, x) == Read(KindFromText(host, host.text(x.heap, 0)), NarrowNone)
  {
    var x := Alone(failure);
    AloneIs(host, failure);
    AsReadIs(host, x, 2);
    ToldIsHandedOn(host, x, 2);
    OutOfIs(host, x, 3);
  }

  /** A Retry of two attempts, that is not ended in its wait. */
  function TwoAttempts(over: Option<bool>): Layer {
    Retry(2, (r: Request, i: nat) => r + i, (r: Request, i: nat) => over)
  }

  lemma TriedTwice(w: World, f: Handler, x: Error, over: Option<bool>)
    requires f(0) == Answer.Failure(x)
    ensures Tries(w.host, TwoAttempts(over), f, 0, 0) == Second(w.host, f, x, over)
  {
    var l := TwoAttempts(over);
    assert l.next(0, 0) == 0 && l.next(0, 1) == 1;
    if Repeats(AsRead(w.host, x)) && over.None? { assert Tries(w.host, l, f, 0, 1) == f(1); }
  }

  /** What two attempts come to when the first fails. */
  ghost function Second(host: Host, f: Handler, x: Error, over: Option<bool>): Answer {
    if !Repeats(AsRead(host, x)) then Answer.Failure(x)
    else if over.Some? then Answer.Failure(Ended(x, over.value))
    else f(1)
  }

  lemma RetryAnswers(w: World, x: Error, y: Error, over: Option<bool>)
    requires w.layer("above") == TwoAttempts(over)
    requires InternalOf(w, Two().inner)(0) == Answer.Failure(x)
      && NaiveInternalOf(w, Two().inner)(0) == Answer.Failure(y)
    ensures Answers(w, Two())(0) == HandedOn(w, Second(w.host, InternalOf(w, Two().inner), x, over))
    ensures NaiveAnswers(w, Two())(0) == HandedOn(w, Second(w.host, NaiveInternalOf(w, Two().inner), y, over))
  {
    TriedTwice(w, InternalOf(w, Two().inner), x, over);
    TriedTwice(w, NaiveInternalOf(w, Two().inner), y, over);
    UpperAnswers(w, 0);
  }

  /** A Retry over a layer that fails the first request and lets the others by, to a base that answers, of any name
      and for any model. */
  ghost predicate RepeatsOnce(w: World, x: Error) {
    && w.layer("above") == TwoAttempts(None) && w.layer("below") == RefusingOnce(x)
    && forall r: Request :: w.base(0)(r) == Reply(0, UsageOut(SPENT))
  }

  lemma Repeated(w: World, x: Error)
    requires Handed(w.host, x) && RepeatsOnce(w, x)
    ensures var j := InOf(w.host, OutOf(w.host, x), w.named(0), w.model(0));
      && (Answers(w, Two())(0)
          == if Repeats(AsRead(w.host, x)) then Reply(0, UsageOut(SPENT)) else Refusal(OutOf(w.host, x)))
      && (NaiveAnswers(w, Two())(0)
          == if Repeats(AsRead(w.host, j)) then Reply(0, UsageOut(SPENT)) else Refusal(OutOf(w.host, j)))
  {
    UnderTheUpper(w, RefusingOnce(x), x, 0);
    RetryAnswers(w, x, InOf(w.host, OutOf(w.host, x), w.named(0), w.model(0)), None);
    LetsBy(w, RefusingOnce(x), 1);
  }

  /** Any other request is let by and answered by both. */
  lemma OthersAreAnswered(w: World, x: Error, r: Request)
    requires RepeatsOnce(w, x) && r != 0
    ensures Answers(w, Two())(r) == NaiveAnswers(w, Two())(r) == Reply(0, UsageOut(SPENT))
  {
    LetsBy(w, RefusingOnce(x), r);
    UpperAnswers(w, r);
  }

  /** Retry tells the two chains apart by a failure exactly when its own reading of it is another after a join. */
  lemma RetryIsAlikeIff(w: World, x: Error, kind: Kind)
    requires Handed(w.host, x) && Told(w.host, x).kind == Some(kind) && RepeatsOnce(w, x)
    ensures SameReplies(w, Two(), Answers(w, Two()), NaiveAnswers(w, Two())) <==>
      (Repeats(AsRead(w.host, x)) == Repeats(Joined(kind)))
  {
    var goes, goes' := Repeats(AsRead(w.host, x)), Repeats(Joined(kind));
    var f, g := Answers(w, Two()), NaiveAnswers(w, Two());
    assert Splits(w, f, g, x, w.named(0), goes, goes', 0) by {
      TakenIsRead(w.host, x, w.named(0), w.model(0), kind);
      Repeated(w, x);
    }
    forall r: Request | r != 0 ensures Splits(w, f, g, x, w.named(0), true, true, r) { OthersAreAnswered(w, x, r); }
    TwoIsNamed(w);
    SplitsAreAlikeIff(w, Two(), f, g, x, w.named(0), goes, goes');
  }

  /** An open circuit beneath a Retry, that is closed again by the next request: it is not repeated, and with a join
      between the two it would be, and answered. */
  lemma OpenCircuitIsRepeatedAfterAJoin(w: World, x: Error, op: string)
    requires IsRefusal(x, KindCircuitOpen, op) && RepeatsOnce(w, x)
    ensures Answers(w, Two())(0).Refusal? && NaiveAnswers(w, Two())(0).Reply?
  {
    RefusalIsRead(w.host, x, KindCircuitOpen, op);
    OpenCircuitIsOne();
    TakenIsRead(w.host, x, w.named(0), w.model(0), ErrUnavailable);
    Repeated(w, x);
  }

  lemma OpenCircuitIsOne()
    ensures KindFromInternal(KindCircuitOpen, NarrowNone) == Some(ErrUnavailable)
    ensures !Repeats(Read(KindCircuitOpen, NarrowNone)) && Repeats(Joined(ErrUnavailable))
  {
  }

  /** What a gate lets by comes to what the base answers. */
  lemma LetsBy(w: World, below: Layer, r: Request)
    requires w.layer("below") == below && below.Gate? && below.admits(r)
    ensures InternalOf(w, Two().inner)(r) == Taken(w, w.base(0)(r), Base(0), r)
    ensures NaiveInternalOf(w, Two().inner)(r)
      == Taken(w, HandedOn(w, Taken(w, w.base(0)(r), Base(0), r)), Two().inner, r)
  {
    TheLower(w, r);
  }
}
