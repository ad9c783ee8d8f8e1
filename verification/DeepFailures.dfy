/** A failure whose status is stated deep in its chain, under a Retry whose wait is ended: where the chain that
    converts once loses the status and the chain that converts at every join does not
    (v2/internal/runtime/mw/retry.go:159-172; v2/mw/mw.go:160-179). */
module DeepFailures {
  import opened Common
  import opened Kinds
  import opened ErrorGraph
  import opened Classifier
  import opened ErrorConvert
  import opened ChainWalk
  import opened FiniteChains
  import opened ProviderRoundTrip
  import opened Chain
  import opened ChainErrors
  import opened Readings
  import opened HandedErrors
  import opened EndedWaits
  import opened ChainLayers
  import opened ChainFusion
  import opened ChainDiffers

  /** An outage, as a provider states it. */
  const UNAVAILABLE := 503

  function Deepest(n: nat): Error
    requires n > 0
  {
    Error(Line(n, UNAVAILABLE, 0), At(0))
  }

  // ---------------------------------------------------------------- what is read of it

  lemma {:induction false} LineIsSearched(h: Heap, n: nat, status: int, i: nat)
    requires n > 0 && h == Line(n, status, 0) && i <= n
    ensures Seek(GraphOf(h), {n}, [At(i)], n - i + 1) == Found(n)
    decreases n - i
  {
    LineAt(h, n, status, 0, i);
    if i < n {
      SeekPast(GraphOf(h), {n}, i, n - i);
      LineIsSearched(h, n, status, i + 1);
    }
  }

  lemma LineHoldsOneStatus(h: Heap, n: nat, status: int)
    requires n > 0 && h == Line(n, status, 0)
    ensures Canceled(h) == Deadlines(h) == {} && Apis(h) == {n} && KindGraphOf(h) == GraphOf(h)
  {
    assert forall i | 0 <= i < |h| :: if i == n then h[i].Api? else h[i].Lib? || h[i].Foreign?;
  }

  lemma LineIsRead(host: Host, h: Heap, n: nat, status: int)
    requires n > 0 && h == Line(n, status, 0)
    ensures Classify(host, h, At(0), n + 1) == Done(KindForStatus(status))
  {
    LineHoldsNone(h, n, status, 0);
    LineHoldsOneStatus(h, n, status);
    LineIsFound(h, n, status, 0, {});
    LineIsSearched(h, n, status, 0);
    LineAt(h, n, status, 0, n);
  }

  // ---------------------------------------------------------------- what is taken of it

  lemma DeepestIsWhole(n: nat)
    requires n > 0
    ensures Whole(Deepest(n), n + 1)
  {
    LineIsSound(Deepest(n).heap, n, UNAVAILABLE, 0);
    LineHasNoGuard(Deepest(n).heap, n, UNAVAILABLE, 0);
  }

  /** What a join takes of it. */
  ghost predicate IsTaken(host: Host, n: nat, x: Error)
    requires n > 0
  {
    && x.at.At? && FactsOf(host, Deepest(n).heap, At(0), None, n + 1).Done?
    && IsRelay(Deepest(n).heap, At(0), x.heap, x.at.id, ErrUnavailable,
               FactsOf(host, Deepest(n).heap, At(0), None, n + 1).value, "", "", host.letter)
    && InFront(x.heap, x.at.id, At(0)) == 1
  }

  /** It is relayed as an outage. */
  lemma DeepestIsTaken(host: Host, n: nat, h: Heap)
    requires n > 0 && h == Deepest(n).heap
    ensures IsTaken(host, n, InOf(host, Deepest(n), "", ""))
  {
    DeepestIsRead(host, h, n);
    LineIsFinite(h, n, UNAVAILABLE, 0, 0);
    UndecidedIsTaken(host, Deepest(n), "", "", n + 1);
    LineFacts(host, h, n, UNAVAILABLE, 0);
  }

  lemma DeepestIsRead(host: Host, h: Heap, n: nat)
    requires n > 0 && h == Deepest(n).heap
    ensures ClassifiedBy(h, At(0), n + 1) == Done(None) && FailureKind(host, h, At(0), n + 1) == Done(ErrUnavailable)
  {
    NothingClassifies(h, n, UNAVAILABLE, 0, n + 1);
    LineIsRead(host, h, n, UNAVAILABLE);
    UndecidedIsRead(host, h, At(0), n + 1);
  }

  lemma UndecidedIsRead(host: Host, h: Heap, e: Ref, b: nat)
    requires ClassifiedBy(h, e, b) == Done(None) && Classify(host, h, e, b) == Done(KindProviderUnavailable)
    ensures FailureKind(host, h, e, b) == Done(ErrUnavailable)
  {
  }

  lemma UndecidedIsTaken(host: Host, y: Error, name: string, model: string, b: nat)
    requires y.at.At? && Live(y.heap, y.at) && Finite(y.heap, y.at, b) && ClassifiedBy(y.heap, y.at, b) == Done(None)
    ensures FailureKind(host, y.heap, y.at, b).Done? && FactsOf(host, y.heap, y.at, None, b).Done?
    ensures var x := InOf(host, y, name, model);
      && x.at.At?
      && IsRelay(y.heap, y.at, x.heap, x.at.id, FailureKind(host, y.heap, y.at, b).value,
                 FactsOf(host, y.heap, y.at, None, b).value, name, model, host.letter)
      && InFront(x.heap, x.at.id, y.at) == Wrapping(host, y.heap, y.at, b)
  {
    FiniteFails(host, y.heap, y.at, name, model, b);
    RelayMade(host, y.heap, y.at, name, model, b);
    InOfIs(host, y, name, model, b);
  }

  lemma TakenIsRelay(host: Host, n: nat, x: Error)
    requires n > 0 && IsTaken(host, n, x)
    ensures Whole(x, n + 5) && !HasFailure(x) && ReadOf(host, x, 1) == Done(Joined(ErrUnavailable))
  {
    DeepestIsWhole(n);
    LineIsFinite(Deepest(n).heap, n, UNAVAILABLE, 0, 0);
    RelayIsWhole(Deepest(n), x.heap, x.at.id, n + 1);
    OperationIsRead(host, x.heap, x.at.id, 1);
  }

  /** The status that the first errors of the relay come to. */
  lemma TakenStates(host: Host, n: nat, x: Error, m: nat)
    requires n > 0 && IsTaken(host, n, x) && 3 < m <= MAX_CHAIN_NODES
    ensures Deep(host, x, m, n + 5).status == if m - 1 > n then UNAVAILABLE else 0
  {
    var h, f := Deepest(n).heap, FactsOf(host, Deepest(n).heap, At(0), None, n + 1).value;
    LineIsSound(h, n, UNAVAILABLE, 0);
    LineIsFinite(h, n, UNAVAILABLE, 0, 0);
    RelayIsDeep(host, h, At(0), x.heap, x.at.id, f, ErrUnavailable, "", "", n + 1, m);
    LineStates(h, n, UNAVAILABLE, 0, m - 1, host.letter);
  }

  // ---------------------------------------------------------------- what is told of it

  /** Without a join: with the wait ended, three errors are in front of the relay. */
  lemma TakenTold(host: Host, n: nat, x: Error)
    requires n > 0 && IsTaken(host, n, x)
    ensures Handed(host, x) && Told(host, x).kind == Some(ErrUnavailable) && AsRead(host, x) == Joined(ErrUnavailable)
    ensures Told(host, x).status == if n < 255 then UNAVAILABLE else 0
    ensures Handed(host, Ended(x, false)) && Told(host, Ended(x, false)).status == if n < 252 then UNAVAILABLE else 0
  {
    TakenIsRelay(host, n, x);
    AsReadIs(host, x, 1);
    TakenKind(host, n, x);
    OutTellsChain(host, x, n + 5);
    OutOfIs(host, x, n + 6);
    TakenStates(host, n, x, MAX_CHAIN_NODES);
    EndedTells(host, x, false, n + 5);
    TakenStates(host, n, x, MAX_CHAIN_NODES - 3);
  }

  lemma TakenKind(host: Host, n: nat, x: Error)
    requires n > 0 && IsTaken(host, n, x) && Whole(x, n + 5)
    ensures Out(host, x, n + 6).Done? && HasFailure(Out(host, x, n + 6).value)
    ensures FailureOf(Out(host, x, n + 6).value).kind == Some(ErrUnavailable)
  {
    TrustGuardIsStable(x, n + 5, n + 6);
    RefusalIsNamed(host, x, n + 6);
  }

  lemma TrustGuardIsStable(x: Error, n: nat, more: nat)
    requires Whole(x, n) && n <= more
    ensures Whole(x, more)
  {
    SeekIsStable(GraphOf(x.heap), Sentinels(x.heap, TRUST_BOUNDARY_VIOLATED), [x.at], n, more);
    SeekIsStable(GraphOf(x.heap), Sentinels(x.heap, UNTRUSTED_IN_SYSTEM_PROMPT), [x.at], n, more);
  }

  /** With a join: the status is stated by the *Error, that is early in the chain. */
  lemma JoinedTold(w: World, x: Error)
    requires Handed(w.host, x)
    ensures var y := InOf(w.host, OutOf(w.host, x), "", "");
      && Handed(w.host, y) && Handed(w.host, Ended(y, false))
      && Told(w.host, Ended(y, false)).status == Told(w.host, x).status
  {
    var y := InOf(w.host, OutOf(w.host, x), "", "");
    TakenTells(w.host, x, "", "");
    assert Told(w.host, y).status == Told(w.host, y).(message := "").status;
    JoinedIsEarly(w.host, x, "", "");
    var m: nat :| Whole(y, m) && Deep(w.host, y, MAX_CHAIN_NODES - 3, m) == FactsIn(Told(w.host, y));
    EndedTells(w.host, y, false, m);
  }

  // ---------------------------------------------------------------- the two chains

  function LettingBy(): Layer { Gate((r: Request) => true, (r: Request) => ContextError(false)) }

  function Failing(n: nat): Complete
    requires n > 0
  {
    (r: Request) => Refusal(Deepest(n))
  }

  /** A Retry whose wait is ended, around a layer that lets the request by, around a provider that fails with a
      status n errors deep: the chain that converts at every join tells it wherever a walk of the relay comes to
      it, and the one that converts once only three errors less deep. */
  lemma DeepStatusIsLost(host: Host, n: nat)
    requires n > 0
    ensures var w := Stack(host, TwoAttempts(Some(false)), LettingBy(), Failing(n), "", "");
      && StatusTold(Answers(w, Two())(0)) == Some(if n < 252 then UNAVAILABLE else 0)
      && StatusTold(NaiveAnswers(w, Two())(0)) == Some(if n < 255 then UNAVAILABLE else 0)
  {
    LayersOf(host, TwoAttempts(Some(false)), LettingBy(), Failing(n), "", "");
    DeepestIsTaken(host, n, Deepest(n).heap);
    WaitIsEnded(Stack(host, TwoAttempts(Some(false)), LettingBy(), Failing(n), "", ""), n,
      InOf(host, Deepest(n), "", ""));
  }

  lemma WaitIsEnded(w: World, n: nat, x: Error)
    requires n > 0 && w.layer("above") == TwoAttempts(Some(false)) && w.layer("below") == LettingBy()
    requires w.named(0) == "" && w.model(0) == "" && w.base(0)(0) == Refusal(Deepest(n))
    requires x == InOf(w.host, Deepest(n), "", "") && IsTaken(w.host, n, x)
    ensures StatusTold(Answers(w, Two())(0)) == Some(if n < 252 then UNAVAILABLE else 0)
    ensures StatusTold(NaiveAnswers(w, Two())(0)) == Some(if n < 255 then UNAVAILABLE else 0)
  {
    var y := InOf(w.host, OutOf(w.host, x), "", "");
    TakenTold(w.host, n, x);
    TakenIsRead(w.host, x, "", "", ErrUnavailable);
    JoinedTold(w, x);
    WaitedFor(w, x, y, Deepest(n));
    ToldIs(w.host, Ended(x, false));
    ToldIs(w.host, Ended(y, false));
  }

  lemma WaitedFor(w: World, x: Error, y: Error, given: Error)
    requires w.layer("above") == TwoAttempts(Some(false)) && w.layer("below") == LettingBy()
    requires w.named(0) == "" && w.model(0) == "" && w.base(0)(0) == Refusal(given)
    requires x == InOf(w.host, given, "", "") && y == InOf(w.host, OutOf(w.host, x), "", "")
    requires AsRead(w.host, x) == AsRead(w.host, y) == Joined(ErrUnavailable)
    ensures Answers(w, Two())(0) == Refusal(OutOf(w.host, Ended(x, false)))
    ensures NaiveAnswers(w, Two())(0) == Refusal(OutOf(w.host, Ended(y, false)))
  {
    OpenCircuitIsOne();
    LetsBy(w, LettingBy(), 0);
    RetryAnswers(w, x, y, Some(false));
  }
}
