/** What a caller is told of any error of the call path and what the layers read of it, which are two readings of
    one chain; what the layers decide by theirs; and when a join, after which they read what the caller would be
    told, leaves that as it is (v2/errors_convert.go:180-298; v2/internal/llm/classify.go;
    v2/internal/runtime/mw/retry.go:211-221, circuitbreaker.go:143-180, fallback.go:307-338, decisions.go). */
module Readings {
  import opened Common
  import opened Kinds
  import opened ChainWalk
  import opened ErrorGraph
  import opened Classifier
  import opened ErrorConvert
  import opened ErrorConvertLaws
  import opened FiniteChains
  import opened MoreSteps
  import opened ConvertEnds
  import opened ProviderRoundTrip
  import opened ChainErrors
  import Fallback

  // ---------------------------------------------------------------- what a layer reads

  /** What the layers of the package read of a failure: the kind the classifier gives it, and the mark. */
  datatype Read = Read(kind: InternalKind, narrow: Narrowing)

  const NOTHING_READ := Read(KindUnknown, NarrowNone)

  function ReadOf(host: Host, x: Error, fuel: nat): Run<Read> {
    match Classify(host, x.heap, x.at, fuel)
    case Hung => Hung
    case Done(kind) =>
      match NarrowingOf(x.heap, x.at, fuel)
      case Hung => Hung
      case Done(narrow) => Done(Read(kind, narrow))
  }

  lemma ReadReturns(host: Host, x: Error, n: nat)
    requires Finite(x.heap, x.at, n)
    ensures ReadOf(host, x, n).Done?
  {
    ClassifyReturns(host, x.heap, x.at, n);
    SeekOfFinite(GraphOf(x.heap), Marking(x.heap), [x.at], n, n);
  }

  lemma OperationIsRead(host: Host, h: Heap, o: nat, fuel: nat)
    requires o < |h| && h[o].Operation? && h[o].ikind != KindUnknown && fuel > 0
    ensures ReadOf(host, Error(h, At(o)), fuel) == Done(Read(h[o].ikind, h[o].narrow))
  {
    assert o in Kinded(h) && o in Marking(h);
    assert Seek(KindGraphOf(h), Kinded(h), [At(o)], fuel) == Found(o);
    assert Seek(GraphOf(h), Marking(h), [At(o)], fuel) == Found(o);
  }

  /** Nothing in the chain of an error says more than that something failed: no kind, no mark, no context that
      ended, no status and no network error. */
  predicate Mute(h: Heap, e: Ref, n: nat) {
    && KindOf(h, e, n) == Done(KindUnknown) && NarrowingOf(h, e, n) == Done(NarrowNone)
    && Seek(GraphOf(h), Canceled(h), [e], n).Absent? && Seek(GraphOf(h), Deadlines(h), [e], n).Absent?
    && Seek(GraphOf(h), Limits(h), [e], n).Absent? && Seek(GraphOf(h), Apis(h), [e], n).Absent?
    && Seek(GraphOf(h), Nets(h), [e], n).Absent?
  }

  /** An *Error, or a bare Kind, is not read by its kind. Around what says nothing, it is read by the library's
      phrases, if one is in its text, and else as nothing at all. */
  lemma LibraryIsReadByItsText(host: Host, x: Error, n: nat)
    requires x.at.At? && x.at.id < |x.heap| && (x.heap[x.at.id].Lib? || x.heap[x.at.id].Bare?)
    requires x.heap[x.at.id].Lib? ==> Mute(x.heap, x.heap[x.at.id].err, n)
    ensures ReadOf(host, x, n + 1) == Done(Read(KindFromText(host, host.text(x.heap, x.at.id)), NarrowNone))
  {
    var h, id := x.heap, x.at.id;
    var g, k := GraphOf(h), KindGraphOf(h);
    assert g[id] == k[id] == Unwrap(h[id]);
    SeekPast(k, Kinded(h), id, n);
    SeekPast(g, Marking(h), id, n);
    SeekPast(g, Canceled(h), id, n);
    SeekPast(g, Deadlines(h), id, n);
    SeekPast(g, Limits(h), id, n);
    SeekPast(g, Apis(h), id, n);
    SeekPast(g, Nets(h), id, n);
  }

  // ---------------------------------------------------------------- what a caller is told

  /** The kind a caller is told: that of the first error that decides one, or what the sentinels or the
      classifier say, and an outage when nothing does. */
  function ToldKind(host: Host, x: Error, fuel: nat): Run<Kind> {
    match DecidedKind(host, x.heap, x.at, fuel)
    case Hung => Hung
    case Done(d) => Done(if d.0.Some? then d.0.value else ErrUnavailable)
  }

  lemma ToldIsHandedOn(host: Host, x: Error, n: nat)
    requires Whole(x, n) && Fixed(host, x)
    ensures ToldKind(host, x, n).Done? && Out(host, x, n + 1).Done? && HasFailure(Out(host, x, n + 1).value)
    ensures FailureOf(Out(host, x, n + 1).value).kind == Some(ToldKind(host, x, n).value)
  {
    WholeIsFinite(x, n);
    DecidedKindReturns(host, x.heap, x.at, n);
    LibraryDecidesItself(x.heap, x.at, n);
    ConvertedSays(host, x, n);
    ConversionStays(host, x.heap, "", x.at, ErrUnavailable, n, n + 1);
    var (h, r) := ConvertWith(host, x.heap, "", x.at, ErrUnavailable, n).value;
    NamedSays(host, Error(h, r), n);
  }

  /** The mark of one error. */
  function OwnMark(n: Node): Narrowing { if n.Operation? || n.Classified? then n.narrow else NarrowNone }

  /** A verdict of the call path's is the kind and the mark of the error that decided. */
  lemma VerdictIsOwn(h: Heap, id: nat, n: nat)
    requires id < |h| && VerdictOf(h, id, n).Done? && VerdictOf(h, id, n).value.Some? && n > 0
    requires VerdictOf(h, id, n).value.value.source != FromLibrary
    ensures Some(VerdictOf(h, id, n).value.value.kind) == KindFromInternal(OwnKind(h[id]), OwnMark(h[id]))
  {
    if !h[id].Operation? {
      if h[id].Classified? || h[id].Review? || h[id].KindSentinel? {
        OwnKindIsFound(h, id, n);
      } else {
        OtherDecidesNothing(h, id, n);
      }
    }
  }

  lemma DeciderIsOwn(h: Heap, e: Ref, n: nat)
    requires Sound(h) && Live(h, e) && ClassifiedBy(h, e, n).Done? && ClassifiedBy(h, e, n).value.Some? && n > 0
    requires ClassifiedBy(h, e, n).value.value.source != FromLibrary
    ensures var d := ClassifiedBy(h, e, n).value.value;
      d.node < |h| && Some(d.kind) == KindFromInternal(OwnKind(h[d.node]), OwnMark(h[d.node]))
  {
    ClassifiedByIsFirst(h, e, n);
    VerdictIsOwn(h, ClassifiedBy(h, e, n).value.value.node, n);
  }

  /** An *Error by itself: what a layer that was set up wrong fails with (misconfigured). */
  function Alone(failure: Failure): Error { Error([Lib(failure, Nil)], At(0)) }

  lemma NothingIsSought(g: Graph, goals: set<nat>, n: nat)
    ensures Seek(g, goals, [Nil], n) == Absent
  {
    assert [Nil][1..] == [];
  }

  lemma NilIsMute(h: Heap, n: nat)
    ensures Mute(h, Nil, n) && IsTrustGuard(h, Nil, n) == Done(false)
  {
    NothingIsSought(KindGraphOf(h), Kinded(h), n);
    NothingIsSought(GraphOf(h), Marking(h), n);
    NothingIsSought(GraphOf(h), Sentinels(h, TRUST_BOUNDARY_VIOLATED), n);
    NothingIsSought(GraphOf(h), Sentinels(h, UNTRUSTED_IN_SYSTEM_PROMPT), n);
  }

  lemma AloneIsWhole(failure: Failure)
    ensures Whole(Alone(failure), 2)
  {
    var x := Alone(failure);
    var g := GraphOf(x.heap);
    assert g == [[Nil]];
    NilIsMute(x.heap, 1);
    SeekPast(g, Sentinels(x.heap, TRUST_BOUNDARY_VIOLATED), 0, 1);
    SeekPast(g, Sentinels(x.heap, UNTRUSTED_IN_SYSTEM_PROMPT), 0, 1);
    assert Sound(x.heap) by { assert Held(g, g[0]); }
  }

  lemma AloneIs(host: Host, failure: Failure)
    requires failure.kind.Some?
    ensures var x := Alone(failure);
      && Whole(x, 2) && ReadOf(host, x, 2) == Done(Read(KindFromText(host, host.text(x.heap, 0)), NarrowNone))
      && ClassifiedBy(x.heap, x.at, 2) == Done(Some(Verdict(failure.kind.value, FromLibrary, 0)))
  {
    AloneIsWhole(failure);
    NilIsMute(Alone(failure).heap, 1);
    LibraryIsReadByItsText(host, Alone(failure), 1);
    LibraryDecidesItself(Alone(failure).heap, At(0), 2);
  }

  // ---------------------------------------------------------------- what the layers decide by what they read

  /** Retry repeats a failure that sending again can cure, but for an open circuit (retryRepeats). */
  predicate Repeats(r: Read) { r.kind in {KindRateLimited, KindProviderUnavailable, KindTimeout} }

  /** CircuitBreaker counts these against the endpoint, under a context that is live (circuitOutcomeOf). */
  predicate Trips(r: Read) {
    r.kind in {KindUnknown, KindRateLimited, KindProviderUnavailable, KindTimeout} || r
      == Read(KindInvariantViolation, NarrowPanic)
  }

  datatype Escalation = Stays | ForLackOf | ForOutage

  /** What Decisions makes of a failure of its decision provider. */
  function Escalates(r: Read): Escalation {
    if r.kind == KindUnsupportedCapability then ForLackOf
    else if r.kind in {KindProviderUnavailable, KindRateLimited, KindTimeout, KindCircuitOpen} then ForOutage
    else Stays
  }

  /** All that the layers of the package decide by a failure. */
  datatype Decisions = Decisions(repeats: bool, trips: bool, escalates: Escalation, failsOver: bool)

  function DecisionsOf(r: Read): Decisions {
    Decisions(Repeats(r), Trips(r), Escalates(r), Fallback.GoesOnByDefault(r.kind, r.narrow))
  }

  /** How the kind of a root package's error is read after a join. */
  function Joined(kind: Kind): Read { Read(KindToInternal(kind).0, KindToInternal(kind).1) }

  /** A failure with this reading stops the layers: what is terminal, but for a capability the route lacks, and
      a limit of the program's own. */
  predicate StopsLayers(r: Read) {
    r.kind == KindAdmissionRejected || (Terminal(r.kind) && r.kind != KindUnsupportedCapability)
  }

  /** What has to be read of a failure for the layers to decide by it as by the kind its caller is told. */
  predicate ReadAlike(told: Kind, r: Read) {
    match told
    case ErrUnsupported => r.kind == KindUnsupportedCapability
    case ErrRateLimited | ErrUnavailable | ErrTimeout => Repeats(r)
    case ErrInternal => r == Read(KindInvariantViolation, NarrowPanic)
    case ErrTooLarge | ErrTruncated | ErrInvalidAnswer =>
      || r.kind in {KindContextTooLarge, KindOutputTruncated, KindMalformedOutput, KindSchemaViolation,
                    KindBatchProtocolViolation, KindEvidenceViolation}
      || (r.kind == KindInvariantViolation && r.narrow != NarrowPanic)
    case _ => StopsLayers(r)
  }

  /** What is decided by a kind as it is read after a join. */
  lemma JoinedDecides(told: Kind)
    ensures DecisionsOf(Joined(told)) ==
      match told
      case ErrUnsupported => Decisions(false, false, ForLackOf, true)
      case ErrRateLimited | ErrUnavailable | ErrTimeout => Decisions(true, true, ForOutage, true)
      case ErrInternal => Decisions(false, true, Stays, false)
      case ErrTooLarge | ErrTruncated | ErrInvalidAnswer => Decisions(false, false, Stays, true)
      case _ => Decisions(false, false, Stays, false)
  {
  }

  lemma ReadAlikeIff(told: Kind, r: Read)
    ensures DecisionsOf(Joined(told)) == DecisionsOf(r) <==> ReadAlike(told, r)
  {
    JoinedDecides(told);
  }

  /** The same where what is read is the kind of the error that decided, by its own mark: an open circuit, an
      exhausted repair and a kind with a mark it does not go with are told as something else. */
  predicate SurvivesAJoin(own: Narrowing, r: Read) {
    match own
    case NarrowNone =>
      r.kind !in {KindUnknown, KindCircuitOpen, KindRepairExhausted} && r != Read(KindInvariantViolation, NarrowPanic)
    case NarrowRefusal => StopsLayers(r)
    case NarrowPanic => r == Read(KindInvariantViolation, NarrowPanic)
  }

  lemma SurvivesIff(own: Narrowing, r: Read, told: Kind)
    requires KindFromInternal(r.kind, own) == Some(told)
    ensures ReadAlike(told, r) <==> SurvivesAJoin(own, r)
  {
  }

  /** Exactly when the layers above a join decide on a failure as they do without one, by what decided its kind:
      an error of the call path whose kind is what is read, by that and its mark; an *Error, a bare Kind or a
      sentinel, by what is read against it; and a failure that nothing decided, by whether anything is read. */
  predicate IsReadAsTold(h: Heap, decided: Option<Verdict>, sentinel: Option<Kind>, r: Read) {
    match decided
    case Some(d) =>
      if d.source != FromLibrary && d.node < |h| && OwnKind(h[d.node]) == r.kind
        then SurvivesAJoin(OwnMark(h[d.node]), r)
      else ReadAlike(d.kind, r)
    case None => if sentinel.Some? then ReadAlike(sentinel.value, r) else SurvivesAJoin(NarrowNone, r)
  }

  lemma AlikeIff(host: Host, x: Error, n: nat)
    requires Whole(x, n) && n > 0
    ensures ReadOf(host, x, n).Done? && ToldKind(host, x, n).Done?
    ensures ClassifiedBy(x.heap, x.at, n).Done? && SentinelKind(x.heap, x.at, 0, n).Done?
    ensures ReadAlike(ToldKind(host, x, n).value, ReadOf(host, x, n).value)
       <==> IsReadAsTold(x.heap, ClassifiedBy(x.heap, x.at, n).value, SentinelKind(x.heap, x.at, 0, n).value,
         ReadOf(host, x, n).value)
  {
    WholeIsFinite(x, n);
    ReadReturns(host, x, n);
    ClassifiedByReturns(x.heap, x.at, n);
    SentinelKindReturns(x.heap, x.at, 0, n);
    DecidedKindReturns(host, x.heap, x.at, n);
    var r := ReadOf(host, x, n).value;
    match ClassifiedBy(x.heap, x.at, n).value
    case Some(d) =>
      if d.source != FromLibrary {
        DeciderIsOwn(x.heap, x.at, n);
        if OwnKind(x.heap[d.node]) == r.kind { SurvivesIff(OwnMark(x.heap[d.node]), r, d.kind); }
      }
    case None =>
      if SentinelKind(x.heap, x.at, 0, n).value.None? && r.kind != KindUnknown {
        SurvivesIff(NarrowNone, r, KindFromInternal(r.kind, NarrowNone).value);
      }
  }

  /** A failure, and the same failure through a join, are decided on alike exactly when it survives. */
  lemma JoinIsDecidedAlikeIff(host: Host, x: Error, name: string, model: string, n: nat)
    requires Whole(x, n) && Fixed(host, x) && n > 0
    ensures ReadOf(host, x, n).Done? && ClassifiedBy(x.heap, x.at, n).Done? && SentinelKind(x.heap, x.at, 0, n).Done?
    ensures Out(host, x, n + 1).Done? && In(host, Out(host, x, n + 1).value, name, model, n + 1).Done?
    ensures var r, j := ReadOf(host, x, n).value,
      ReadOf(host, In(host, Out(host, x, n + 1).value, name, model, n + 1).value, n);
      j.Done? && (DecisionsOf(j.value) == DecisionsOf(r) <==>
                  IsReadAsTold(x.heap, ClassifiedBy(x.heap, x.at, n).value, SentinelKind(x.heap, x.at, 0, n).value, r))
  {
    AlikeIff(host, x, n);
    ToldIsHandedOn(host, x, n);
    OutSays(host, x, n);
    JoinIsRead(host, Out(host, x, n + 1).value, name, model, n, n);
    ReadAlikeIff(ToldKind(host, x, n).value, ReadOf(host, x, n).value);
  }

  /** Of what has come through a join a layer reads the kind the root package has for it. */
  lemma JoinIsRead(host: Host, y: Error, name: string, model: string, n: nat, fuel: nat)
    requires Says(host, y, n) && fuel > 0
    ensures In(host, y, name, model, n + 1).Done?
    ensures ReadOf(host, In(host, y, name, model, n + 1).value, fuel) == Done(Joined(FailureOf(y).kind.value))
  {
    SaidIsRelayed(host, y, name, model, n);
    var (h2, r) := ProviderFailure(host, y.heap, y.at, name, model, n + 1).value;
    OperationIsRead(host, h2, r.id, fuel);
  }

  /** What a wrapper hands on for an error that is an operation error at the outside: its kind, and the name of
      the layer when it is a refusal of one. */
  lemma RefusalIsNamed(host: Host, x: Error, n: nat)
    requires Whole(x, n) && x.heap[x.at.id].Operation? && n > 1
    requires KindFromInternal(x.heap[x.at.id].ikind, x.heap[x.at.id].narrow).Some?
    ensures Out(host, x, n).Done? && HasFailure(Out(host, x, n).value)
    ensures var e, made := FailureOf(Out(host, x, n).value), x.heap[x.at.id];
      e.kind == KindFromInternal(made.ikind, made.narrow) && e.op == LayerOp(made.op)
  {
    var h, o := x.heap, x.at.id;
    WholeIsFinite(x, n);
    FiniteConverts(host, h, "", x.at, ErrUnavailable, n);
    assert Walk(GraphOf(h), x.at, MAX_CHAIN_NODES)[0] == o;
    var (h1, r) := ConvertWith(host, h, "", x.at, ErrUnavailable, n).value;
    assert h1[r.id].err == x.at && h1[o] == h[o];
    var g, goals := GraphOf(h1), Operations(h1);
    assert KidsOf(g, r.id) + [At(r.id)][1..] == [x.at];
    assert r.id !in goals && o in goals;
    assert Seek(g, goals, [x.at], n - 1) == Found(o);
  }
}
