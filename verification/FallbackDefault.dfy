/** The default of Fallback, over the errors it is given: what the selector reads of a failure, against the kind
    the caller is told and the list it is documented by (v2/mw/fallback.go:60-81;
    v2/internal/runtime/mw/fallback.go:307-338). */
module FallbackDefault {
  import opened Common
  import opened Kinds
  import opened ChainWalk
  import opened ErrorGraph
  import opened Classifier
  import opened ErrorConvert
  import opened ErrorConvertLaws
  import opened FiniteChains
  import opened ProviderRoundTrip
  import opened ChainErrors
  import opened Readings
  import opened Fallback

  /** What is read of a failure sends the request on exactly when the kind the caller is told is one that is
      documented to. */
  predicate AsDocumented(r: Read, told: Option<Kind>) {
    GoesOnByDefault(r.kind, r.narrow) == DocumentedToGoOn(told)
  }

  /** Every kind, as the root package hands it to the call path, is treated as it is documented to be. */
  lemma KindIsAsDocumented(kind: Kind)
    ensures AsDocumented(Readings.Joined(kind), Some(kind))
  {
  }

  /** A failure of a program's own provider that no internal error decided, whatever its chain: the default goes
      on from it exactly when the kind its caller would be told is documented to go on. */
  lemma RelayedIsAsDocumented(host: Host, y: Error, name: string, model: string, n: nat)
    requires Whole(y, n) && n > 0 && ClassifiedBy(y.heap, y.at, n).Done?
    requires var d := ClassifiedBy(y.heap, y.at, n).value; d.None? || d.value.source == FromLibrary
    ensures In(host, y, name, model, n).Done?
    ensures var j := In(host, y, name, model, n).value;
      var told := DecidedKind(host, j.heap, j.at, n + 4);
      && told.Done? && told.value.0.Some? && ReadOf(host, j, n).Done?
      && AsDocumented(ReadOf(host, j, n).value, told.value.0)
  {
    WholeIsFinite(y, n);
    FiniteFails(host, y.heap, y.at, name, model, n);
    RelayMade(host, y.heap, y.at, name, model, n);
    var (h2, r) := ProviderFailure(host, y.heap, y.at, name, model, n).value;
    RelayIsAsDocumented(host, y, h2, r.id, FailureKind(host, y.heap, y.at, n).value, n);
  }

  /** A relay of a kind. */
  lemma RelayIsAsDocumented(host: Host, y: Error, h2: Heap, o: nat, kind: Kind, n: nat)
    requires Whole(y, n) && n > 0 && Finite(y.heap, y.at, n) && Relays(y.heap, y.at, h2, o)
    requires h2[o].ikind == KindToInternal(kind).0 && h2[o].narrow == KindToInternal(kind).1
    ensures DecidedKind(host, h2, At(o), n + 4).Done? && DecidedKind(host, h2, At(o), n + 4).value.0 == Some(kind)
    ensures ReadOf(host, Error(h2, At(o)), n) == Done(Readings.Joined(kind))
      && AsDocumented(Readings.Joined(kind), Some(kind))
  {
    RelayKind(host, y.heap, y.at, h2, o, kind, n);
    OperationIsRead(host, h2, o, n);
    KindIsAsDocumented(kind);
  }

  // ---------------------------------------------------------------- any failure a selector is given

  /** What the default reads as the end of the request: what stops the layers, and a panic. */
  predicate StopsFallback(r: Read) { StopsLayers(r) || r == Read(KindInvariantViolation, NarrowPanic) }

  /** The kinds that are documented to stop the request. */
  predicate DocumentedToStop(kind: Kind) {
    kind in {ErrConfiguration, ErrInvalidRequest, ErrUnauthorized, ErrPolicy, ErrRefused, ErrBudgetExceeded, ErrBusy,
             ErrCanceled, ErrClosed, ErrReviewRequired, ErrInternal}
  }

  /** Where what is read is the kind of the error that decided, by its own mark: without one, all is treated as
      it is documented to be but an exhausted repair, and a broken invariant over a panic; with one, what stops. */
  predicate TreatedAsDocumented(own: Narrowing, r: Read) {
    if own == NarrowNone then r.kind != KindRepairExhausted && r != Read(KindInvariantViolation, NarrowPanic)
    else StopsFallback(r)
  }

  lemma SidesAre(r: Read, told: Option<Kind>)
    ensures GoesOnByDefault(r.kind, r.narrow) <==> !StopsFallback(r)
    ensures DocumentedToGoOn(told) <==> told.None? || !DocumentedToStop(told.value)
  {
    if told.Some? { ListsAreComplete(told.value); }
  }

  /** The two lists of the documentation leave out no kind, and no kind is in both. */
  lemma ListsAreComplete(kind: Kind)
    ensures DocumentedToGoOn(Some(kind)) <==> !DocumentedToStop(kind)
  {
    match kind
    case ErrConfiguration | ErrInvalidRequest | ErrUnauthorized | ErrPolicy | ErrRefused | ErrBudgetExceeded =>
    case ErrBusy | ErrCanceled | ErrClosed | ErrReviewRequired | ErrInternal =>
    case ErrUnsupported | ErrRateLimited | ErrUnavailable | ErrTimeout =>
    case ErrTooLarge | ErrTruncated | ErrInvalidAnswer =>
  }

  lemma TreatedIff(own: Narrowing, r: Read)
    ensures AsDocumented(r, KindFromInternal(r.kind, own)) <==> TreatedAsDocumented(own, r)
  {
    SidesAre(r, KindFromInternal(r.kind, own));
  }

  /** Exactly which failures are treated as documented, by what decided the kind that is told: an error of the
      call path whose kind is what is read, by that and its mark; an *Error, a bare Kind or a sentinel, when what
      is read of the chain beside it stops exactly as its kind is documented to; and a failure that nothing
      decided, always but for an exhausted repair or a panic beneath. */
  predicate Meets(h: Heap, decided: Option<Verdict>, sentinel: Option<Kind>, r: Read) {
    match decided
    case Some(d) =>
      if d.source != FromLibrary && d.node < |h| && OwnKind(h[d.node]) == r.kind
        then TreatedAsDocumented(OwnMark(h[d.node]), r)
      else StopsFallback(r) == DocumentedToStop(d.kind)
    case None =>
      if sentinel.Some? then StopsFallback(r) == DocumentedToStop(sentinel.value)
        else TreatedAsDocumented(NarrowNone, r)
  }

  /** For every failure a selector is given, of a layer, of the context, or of a provider. */
  lemma DefaultIsAsDocumentedIff(host: Host, x: Error, n: nat)
    requires Whole(x, n) && n > 0
    ensures ReadOf(host, x, n).Done? && DecidedKind(host, x.heap, x.at, n).Done?
    ensures ClassifiedBy(x.heap, x.at, n).Done? && SentinelKind(x.heap, x.at, 0, n).Done?
    ensures AsDocumented(ReadOf(host, x, n).value, DecidedKind(host, x.heap, x.at, n).value.0)
       <==> Meets(x.heap, ClassifiedBy(x.heap, x.at, n).value, SentinelKind(x.heap, x.at, 0, n).value,
         ReadOf(host, x, n).value)
  {
    WholeIsFinite(x, n);
    ReadReturns(host, x, n);
    ClassifiedByReturns(x.heap, x.at, n);
    SentinelKindReturns(x.heap, x.at, 0, n);
    DecidedKindReturns(host, x.heap, x.at, n);
    var r := ReadOf(host, x, n).value;
    SidesAre(r, DecidedKind(host, x.heap, x.at, n).value.0);
    match ClassifiedBy(x.heap, x.at, n).value
    case Some(d) =>
      if d.source != FromLibrary {
        DeciderIsOwn(x.heap, x.at, n);
        TreatedIff(OwnMark(x.heap[d.node]), r);
      }
    case None => TreatedIff(NarrowNone, r);
  }

  // ---------------------------------------------------------------- failures it is given

  /** Of an *Error, or a bare Kind, around what says nothing more: it is treated as its kind is documented to be exactly
      when its text holds a phrase of the library's that stops and the kind is one that stops, or neither. */
  lemma LibraryIsAsDocumentedIff(host: Host, x: Error, kind: Kind, n: nat)
    requires Whole(x, n + 1) && (x.heap[x.at.id].Lib? || x.heap[x.at.id].Bare?)
    requires VerdictOf(x.heap, x.at.id, n + 1) == Done(Some(Verdict(kind, FromLibrary, x.at.id)))
    requires x.heap[x.at.id].Lib? ==> Mute(x.heap, x.heap[x.at.id].err, n)
    ensures ReadOf(host, x, n + 1).Done?
    ensures var read := KindFromText(host, host.text(x.heap, x.at.id));
      AsDocumented(ReadOf(host, x, n + 1).value, Some(kind)) <==>
      ((read in {KindConfiguration, KindCanceled, KindBudgetExceeded}) == DocumentedToStop(kind))
    ensures DecidedKind(host, x.heap, x.at, n + 1).Done? && DecidedKind(host, x.heap, x.at, n + 1).value.0 == Some(kind)
  {
    LibraryIsReadByItsText(host, x, n);
    SidesAre(ReadOf(host, x, n + 1).value, Some(kind));
    assert Walk(GraphOf(x.heap), x.at, MAX_CHAIN_NODES)[0] == x.at.id;
  }

  /** A layer that was set up wrong, beneath a Fallback with no list and nothing converted between: its error is
      told as ErrConfiguration, which is documented to stop the request, and the selector, which reads no kind
      of it, goes on to the next route, exactly when its text holds none of the library's phrases that stop. */
  lemma MisconfiguredIsGoneOnFrom(host: Host, failure: ErrorGraph.Failure)
    requires failure.kind == Some(ErrConfiguration)
    ensures var x := Alone(failure);
      var r := ReadOf(host, x, 2);
      && Whole(x, 2) && r.Done? && DecidedKind(host, x.heap, x.at, 2).Done?
      && DecidedKind(host, x.heap, x.at, 2).value.0 == Some(ErrConfiguration) && DocumentedToStop(ErrConfiguration)
      && (AsDocumented(r.value, Some(ErrConfiguration)) <==>
          KindFromText(host, host.text(x.heap, 0)) in {KindConfiguration, KindCanceled, KindBudgetExceeded})
  {
    AloneIs(host, failure);
    DefaultIsAsDocumentedIff(host, Alone(failure), 2);
  }

  /** An exhausted repair, which the operations make above this seam (v2/internal/ops/op.go:335-337), is told as
      an answer that failed its checks and is not gone on from. */
  lemma ExhaustedIsNotGoneOnFrom(host: Host, op: string)
    ensures var x := Error([Operation(KindRepairExhausted, NarrowNone, op, "", "", "", 0, "", Nil)], At(0));
      && ReadOf(host, x, 2) == Done(Read(KindRepairExhausted, NarrowNone))
      && DecidedKind(host, x.heap, x.at, 2).Done?
        && DecidedKind(host, x.heap, x.at, 2).value.0 == Some(ErrInvalidAnswer)
      && !AsDocumented(Read(KindRepairExhausted, NarrowNone), Some(ErrInvalidAnswer))
  {
    var x := Error([Operation(KindRepairExhausted, NarrowNone, op, "", "", "", 0, "", Nil)], At(0));
    OperationAloneIsWhole(x);
    OperationIsRead(host, x.heap, 0, 2);
    assert Walk(GraphOf(x.heap), x.at, MAX_CHAIN_NODES)[0] == 0;
  }

  lemma OperationAloneIsWhole(x: Error)
    requires |x.heap| == 1 && x.at == At(0) && x.heap[0].Operation? && x.heap[0].err.Nil?
    ensures Whole(x, 2)
  {
    var g := GraphOf(x.heap);
    assert g == [[Nil]] && [Nil][1..] == [];
    SeekPast(g, Sentinels(x.heap, TRUST_BOUNDARY_VIOLATED), 0, 1);
    SeekPast(g, Sentinels(x.heap, UNTRUSTED_IN_SYSTEM_PROMPT), 0, 1);
    assert Sound(x.heap) by { assert Held(g, g[0]); }
  }
}
