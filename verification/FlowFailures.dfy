/** The failures the combinators make themselves: what each is turned into for the caller, and what another
    combinator makes of it when it is the failure of a step (v2/flow/errors.go:97-136, v2/flow/approve.go:171-193;
    v2/internal/ops/combinators.go, v2/internal/ops/flow.go:159-189). */
module FlowFailures {
  import opened Common
  import opened Kinds
  import opened ChainWalk
  import opened ErrorGraph
  import opened Classifier
  import opened ErrorConvert
  import opened FiniteChains
  import opened FlowErrors

  /** A failure of a combinator itself: an argument it cannot use, a context that is over, attempts that ran
      out, a review it asks for, and a step of a Gather that panicked. */
  datatype Stop = Refused | Over(deadline: bool) | Exhausted | ReviewAsked | Panicked

  function KindOfOwn(own: Stop): Kind {
    match own
    case Refused => ErrInvalidRequest
    case Over(deadline) => if deadline then ErrTimeout else ErrCanceled
    case Exhausted => ErrInvalidAnswer
    case ReviewAsked => ErrReviewRequired
    case Panicked => ErrInternal
  }

  /** What another combinator reads of it. */
  function ReadsOwn(own: Stop): InternalKind {
    match own
    case Refused => KindInvalidRequest
    case Over(deadline) => if deadline then KindTimeout else KindCanceled
    case Exhausted => KindRepairExhausted
    case ReviewAsked => KindReviewRequired
    case Panicked => KindConfiguration
  }

  // ---------------------------------------------------------------- as it is made

  function OverKind(deadline: bool): InternalKind { if deadline then KindTimeout else KindCanceled }

  function Plain(kind: InternalKind, narrow: Narrowing, op: string): Node {
    Operation(kind, narrow, op, "", "", "", 0, "", Nil)
  }

  function LibOf(kind: Kind, op: string, err: Ref): Node {
    Lib(Failure(Some(kind), op, "", "", "", 0, "", 0, ""), err)
  }

  /** begin: a context that is over before anything starts. */
  function BegunOver(host: Host, h: Heap, op: string, deadline: bool, fuel: nat): Run<(Heap, Ref)> {
    ConvertError(host, h + [ContextOver(deadline)], op, At(|h|), fuel)
  }

  /** contextEnded, and end. */
  function EndedOver(host: Host, h: Heap, op: string, deadline: bool, fuel: nat): Run<(Heap, Ref)> {
    End(host, h + [ContextOver(deadline), Classified(OverKind(deadline), NarrowNone, None, At(|h|))], false, op,
      At(|h| + 1), fuel)
  }

  /** refuse. */
  function Refusal(h: Heap, op: string): (Heap, Ref) { (h + [LibOf(ErrInvalidRequest, op, Nil)], At(|h|)) }

  /** Attempts that ran out, and end. */
  function RanOut(host: Host, h: Heap, op: string, fuel: nat): Run<(Heap, Ref)> {
    End(host, h + [Plain(KindRepairExhausted, NarrowNone, "until")], false, op, At(|h|), fuel)
  }

  /** stepPanicked, and flowEnd. */
  function PanickedStep(host: Host, h: Heap, op: string, fuel: nat): Run<(Heap, Ref)> {
    End(host, h + [Plain(KindInvariantViolation, NarrowPanic, op)], true, op, At(|h|), fuel)
  }

  function Reviews(h: Heap): set<nat> { set i | 0 <= i < |h| && h[i].Review? }

  /** endReview. */
  function EndReview(host: Host, h: Heap, op: string, e: Ref, fuel: nat): Run<(Heap, Ref)> {
    match Seek(GraphOf(h), MarksOf(h, false), [e], fuel)
    case Running => Hung
    case Found(m) => Done((h, if m < |h| && h[m].Mark? then h[m].err else Nil))
    case Absent =>
      match Seek(GraphOf(h), Reviews(h), [e], fuel)
      case Running => Hung
      case Found(_) => Done((h + [Foreign([]), LibOf(ErrReviewRequired, op, At(|h|))], At(|h| + 1)))
      case Absent => ConvertError(host, h, op, e, fuel)
  }

  // ---------------------------------------------------------------- what it is

  /** The *Error of a combinator's own failure, with what it is over. */
  predicate IsOwn(h: Heap, x: Ref, own: Stop) {
    && x.At? && x.id < |h| && h[x.id].Lib? && h[x.id].failure.kind == Some(KindOfOwn(own))
    && var err := h[x.id].err;
       match own
       case Refused => err.Nil?
       case Over(deadline) => err.At? && err.id < |h| && IsOver(h, err.id, deadline)
       case Exhausted => err.At? && err.id < |h| && h[err.id] == Plain(KindRepairExhausted, NarrowNone, "until")
       case ReviewAsked => err.At? && err.id < |h| && h[err.id] == Foreign([])
       case Panicked => err.At? && err.id < |h| && h[err.id].Operation? && h[err.id].ikind == KindInvariantViolation
                        && h[err.id].narrow == NarrowPanic && h[err.id].err.Nil?
  }

  predicate IsOver(h: Heap, id: nat, deadline: bool)
    requires id < |h|
  {
    || h[id] == ContextOver(deadline)
    || (h[id].Classified? && h[id].ikind == OverKind(deadline) && h[id].narrow == NarrowNone && h[id].route.None?
        && h[id].err.At? && h[id].err.id < |h| && h[h[id].err.id] == ContextOver(deadline))
  }

  /** An error that wraps nothing. */
  predicate Bottom(h: Heap, id: nat) { id < |h| && Unwrap(h[id]) in {[], [Nil]} }

  lemma BottomSeek(g: Graph, goals: set<nat>, id: nat, fuel: nat)
    requires id < |g| && g[id] in {[], [Nil]} && fuel > 0
    ensures Seek(g, goals, [At(id)], fuel) == if id in goals then Found(id) else Absent
  {
    assert KidsOf(g, id) + [At(id)][1..] == g[id];
    assert [Nil][1..] == [];
    assert Seek(g, goals, g[id], fuel - 1) == Absent;
  }

  /** A search of an error around one: the outer is looked at, then the inner. */
  lemma WrapSeek(g: Graph, goals: set<nat>, id: nat, inner: Ref, fuel: nat)
    requires id < |g| && g[id] == [inner] && id !in goals && fuel > 0
    ensures Seek(g, goals, [At(id)], fuel) == Seek(g, goals, [inner], fuel - 1)
  {
    SeekPast(g, goals, id, fuel - 1);
  }

  lemma BottomIsFinite(h: Heap, id: nat, b: nat)
    requires Bottom(h, id) && b > 0
    ensures Finite(h, At(id), b)
  {
    var g := GraphOf(h);
    assert KidsOf(g, id) + [At(id)][1..] == g[id];
    assert [Nil][1..] == [];
    assert Finishes(g, g[id], b - 1);
  }

  lemma WrapIsFinite(h: Heap, id: nat, inner: nat, b: nat)
    requires id < |h| && Unwrap(h[id]) == [At(inner)] && b > 0 && Finite(h, At(inner), b - 1)
    ensures Finite(h, At(id), b)
  {
    assert KidsOf(GraphOf(h), id) + [At(id)][1..] == [At(inner)];
  }

  lemma BottomWalk(h: Heap, id: nat, b: nat)
    requires Bottom(h, id) && b > 0
    ensures Walk(GraphOf(h), At(id), b) == [id]
  {
    var g := GraphOf(h);
    var none := WalkAll(g, [], b - 1);
    assert [Nil][1..] == [];
    assert WalkAll(g, g[id], b - 1) == [];
  }

  // ---------------------------------------------------------------- each is what it is said to be

  /** What a failure is made into: a new *Error of its kind, around the failure, under the combinator's name. */
  predicate Made(h: Heap, r: Run<(Heap, Ref)>, own: Stop, op: string) {
    && r.Done? && h <= r.value.0 && r.value.1.At? && r.value.1.id >= |h|
    && IsOwn(r.value.0, r.value.1, own) && r.value.0[r.value.1.id].failure.op == op
  }

  lemma {:induction false} NoSentinelKind(h: Heap, e: Ref, index: nat, fuel: nat)
    requires forall k: nat :: Is(h, e, k, fuel) == Done(false)
    ensures SentinelKind(h, e, index, fuel) == Done(None)
    decreases |PLAIN_SENTINELS| - index
  {
    if index < |PLAIN_SENTINELS| { NoSentinelKind(h, e, index + 1, fuel); }
  }

  /** The context's own error is read as what it is. */
  lemma ContextDecides(host: Host, h: Heap, id: nat, deadline: bool, fuel: nat)
    requires id < |h| && h[id] == ContextOver(deadline) && fuel > 0
    ensures DecidedKind(host, h, At(id), fuel) == Done((Some(if deadline then ErrTimeout else ErrCanceled), None))
  {
    BottomWalk(h, id, MAX_CHAIN_NODES);
    BottomSeek(KindGraphOf(h), Kinded(h), id, fuel);
    assert FirstVerdict(h, [id], fuel) == Done(None) by {
      assert [id][1..] == [];
      assert VerdictOf(h, id, fuel) == Done(None);
    }
    forall k: nat ensures Is(h, At(id), k, fuel) == Done(false) { BottomSeek(GraphOf(h), Sentinels(h, k), id, fuel); }
    NoSentinelKind(h, At(id), 0, fuel);
    BottomSeek(GraphOf(h), Canceled(h), id, fuel);
    BottomSeek(GraphOf(h), Deadlines(h), id, fuel);
  }

  lemma BegunOverIs(host: Host, h: Heap, op: string, deadline: bool, fuel: nat)
    requires fuel > 0
    ensures Made(h, BegunOver(host, h, op, deadline, fuel), Over(deadline), op)
  {
    var h' := h + [ContextOver(deadline)];
    ContextDecides(host, h', |h|, deadline, fuel);
    BottomIsFinite(h', |h|, fuel);
    FactsOfReturns(host, h', At(|h|), None, fuel);
  }

  /** An operation error with a kind or a mark decides its own kind. */
  lemma PlainDecides(host: Host, h: Heap, id: nat, kind: Kind, fuel: nat)
    requires Bottom(h, id) && h[id].Operation? && KindFromInternal(h[id].ikind, h[id].narrow) == Some(kind) && fuel > 0
    ensures DecidedKind(host, h, At(id), fuel) == Done((Some(kind), Some(Verdict(kind, FromOperationError, id))))
  {
    BottomWalk(h, id, MAX_CHAIN_NODES);
    BottomSeek(GraphOf(h), Sentinels(h, TRUST_BOUNDARY_VIOLATED), id, fuel);
    BottomSeek(GraphOf(h), Sentinels(h, UNTRUSTED_IN_SYSTEM_PROMPT), id, fuel);
  }

  lemma PlainEnds(host: Host, h: Heap, root: bool, op: string, id: nat, kind: Kind, fuel: nat)
    requires Bottom(h, id) && h[id].Operation? && KindFromInternal(h[id].ikind, h[id].narrow) == Some(kind) && fuel > 0
    ensures var r := End(host, h, root, op, At(id), fuel);
      && r.Done? && h <= r.value.0 && |r.value.0| == |h| + 1 && r.value.1 == At(|h|)
      && r.value.0[|h|].Lib? && r.value.0[|h|].failure.kind == Some(kind) && r.value.0[|h|].err == At(id)
      && r.value.0[|h|].failure.op == op
  {
    BottomSeek(GraphOf(h), MarksOf(h, root), id, fuel);
    PlainDecides(host, h, id, kind, fuel);
    BottomIsFinite(h, id, fuel);
    FactsOfReturns(host, h, At(id), Some(Verdict(kind, FromOperationError, id)), fuel);
  }

  lemma RanOutIs(host: Host, h: Heap, op: string, fuel: nat)
    requires fuel > 0
    ensures Made(h, RanOut(host, h, op, fuel), Exhausted, op)
  {
    PlainEnds(host, h + [Plain(KindRepairExhausted, NarrowNone, "until")], false, op, |h|, ErrInvalidAnswer, fuel);
  }

  lemma PanickedStepIs(host: Host, h: Heap, op: string, fuel: nat)
    requires fuel > 0
    ensures Made(h, PanickedStep(host, h, op, fuel), Panicked, op)
  {
    PlainEnds(host, h + [Plain(KindInvariantViolation, NarrowPanic, op)], true, op, |h|, ErrInternal, fuel);
  }

  lemma CarrierDecides(host: Host, h: Heap, id: nat, deadline: bool, fuel: nat)
    requires id > 0 && id < |h| && h[id - 1] == ContextOver(deadline) && fuel > 1
    requires h[id] == Classified(OverKind(deadline), NarrowNone, None, At(id - 1))
    ensures ClassifiedBy(h, At(id), fuel)
      == Done(Some(Verdict(if deadline then ErrTimeout else ErrCanceled, FromCarrier, id)))
  {
    var g := KindGraphOf(h);
    BottomSeek(g, Kinded(h), id, fuel);
    BottomSeek(g, Kinded(h), id - 1, fuel);
    assert AnyKidHas(h, [At(id - 1)], OverKind(deadline), fuel) == Done(false) by {
      assert [At(id - 1)][1..] == [];
    }
    assert Walk(GraphOf(h), At(id), MAX_CHAIN_NODES)[0] == id;
  }

  lemma OverDecides(host: Host, h: Heap, id: nat, deadline: bool, fuel: nat)
    requires id > 0 && id < |h| && h[id - 1] == ContextOver(deadline) && fuel > 1
    requires h[id] == Classified(OverKind(deadline), NarrowNone, None, At(id - 1))
    ensures var kind := if deadline then ErrTimeout else ErrCanceled;
      DecidedKind(host, h, At(id), fuel) == Done((Some(kind), Some(Verdict(kind, FromCarrier, id))))
  {
    CarrierDecides(host, h, id, deadline, fuel);
    OverSeek(h, id, Sentinels(h, TRUST_BOUNDARY_VIOLATED), fuel);
    OverSeek(h, id, Sentinels(h, UNTRUSTED_IN_SYSTEM_PROMPT), fuel);
  }

  lemma EndedOverIs(host: Host, h: Heap, op: string, deadline: bool, fuel: nat)
    requires fuel > 1
    ensures Made(h, EndedOver(host, h, op, deadline, fuel), Over(deadline), op)
  {
    var h' := h + [ContextOver(deadline), Classified(OverKind(deadline), NarrowNone, None, At(|h|))];
    var id := |h| + 1;
    OverDecides(host, h', id, deadline, fuel);
    OverSeek(h', id, MarksOf(h', false), fuel);
    BottomIsFinite(h', |h|, fuel - 1);
    WrapIsFinite(h', id, |h|, fuel);
    FactsOfReturns(host, h', At(id), DecidedKind(host, h', At(id), fuel).value.1, fuel);
  }

  lemma OverSeek(h: Heap, id: nat, goals: set<nat>, fuel: nat)
    requires id < |h| && h[id].Classified? && h[id].err.At? && h[id].err.id < |h| && h[h[id].err.id].ContextOver?
    requires id !in goals && h[id].err.id !in goals && fuel > 1
    ensures Seek(GraphOf(h), goals, [At(id)], fuel) == Absent
  {
    WrapSeek(GraphOf(h), goals, id, h[id].err, fuel);
    BottomSeek(GraphOf(h), goals, h[id].err.id, fuel - 1);
  }

  lemma ReviewIs(host: Host, h: Heap, op: string, fuel: nat)
    requires fuel > 0
    ensures Made(h, EndReview(host, h + [Review], op, At(|h|), fuel), ReviewAsked, op)
  {
    var h' := h + [Review];
    BottomSeek(GraphOf(h'), MarksOf(h', false), |h|, fuel);
    BottomSeek(GraphOf(h'), Reviews(h'), |h|, fuel);
  }

  // ---------------------------------------------------------------- what is read of it

  lemma OwnIsKept(h: Heap, more: Heap, x: Ref, own: Stop)
    requires IsOwn(h, x, own)
    ensures IsOwn(h + more, x, own)
  {
  }

  /** The first *Error of its chain is the failure itself. */
  lemma FirstIsItself(h: Heap, x: nat, fuel: nat)
    requires x < |h| && h[x].Lib? && fuel > 0
    ensures FirstLib(h, At(x), fuel) == Done(Some(x))
  {
  }

  /** The kind the call path finds in a failure of a combinator's own. */
  lemma KindOfOwnIs(h: Heap, x: Ref, own: Stop, fuel: nat)
    requires IsOwn(h, x, own) && fuel > 2
    ensures KindOf(h, x, fuel) == Done(
      match own
      case Exhausted => KindRepairExhausted
      case Panicked => KindInvariantViolation
      case Over(deadline) => if h[h[x.id].err.id].Classified? then OverKind(deadline) else KindUnknown
      case _ => KindUnknown)
  {
    var g := KindGraphOf(h);
    var err := h[x.id].err;
    if own == Refused {
      BottomSeek(g, Kinded(h), x.id, fuel);
    } else {
      WrapSeek(g, Kinded(h), x.id, err, fuel);
      BottomSeek(g, Kinded(h), err.id, fuel - 1);
    }
  }

  /** What is filed beside it under a mark: nothing when the call path has a kind for it, and else its kind. */
  lemma BesideOwn(h: Heap, x: Ref, own: Stop, fuel: nat)
    requires IsOwn(h, x, own) && fuel > 2
    ensures KindOf(h, x, fuel).Done?
    ensures BesideOf(h, x, fuel) == Done(
      if own == Panicked then First(KindConfiguration, NarrowNone)
      else if KindOf(h, x, fuel).value != KindUnknown then Alone
      else After(KindToInternal(KindOfOwn(own)).0, KindToInternal(KindOfOwn(own)).1))
  {
    FirstIsItself(h, x.id, fuel);
    KindOfOwnIs(h, x, own, fuel);
  }

  lemma OwnReads(host: Host, h: Heap, x: Ref, own: Stop, fuel: nat)
    requires Speaks(host) && Sound(h) && IsOwn(h, x, own) && fuel > 2
    ensures Own(h, x, fuel).Done? && ReadThrough(host, h, x, fuel) == Done(ReadsOwn(own))
  {
    BesideOwn(h, x, own, fuel);
    ReadThroughIs(host, h, x, fuel);
    OwnReading(host, h, x, own, fuel);
  }

  lemma OwnReading(host: Host, h: Heap, x: Ref, own: Stop, fuel: nat)
    requires IsOwn(h, x, own) && fuel > 2
    ensures Reading(host, h, x, fuel) == Done(ReadsOwn(own))
  {
    BesideOwn(h, x, own, fuel);
    KindOfOwnIs(h, x, own, fuel);
    KindOfOwnIs(h, x, own, fuel + 1);
  }

  // ---------------------------------------------------------------- no mark is in it

  /** No search finds a mark in the chain of a combinator's own failure. */
  lemma OwnHoldsNoMark(h: Heap, x: Ref, own: Stop, root: bool, fuel: nat)
    requires IsOwn(h, x, own)
    ensures !Seek(GraphOf(h), MarksOf(h, root), [x], fuel).Found?
  {
    var g, goals := GraphOf(h), MarksOf(h, root);
    if fuel > 0 {
      var err := h[x.id].err;
      if own == Refused {
        BottomSeek(g, goals, x.id, fuel);
      } else {
        WrapSeek(g, goals, x.id, err, fuel);
        if fuel > 1 { BeneathHoldsNoMark(h, err.id, own, root, fuel - 1); }
      }
    }
  }

  lemma BeneathHoldsNoMark(h: Heap, id: nat, own: Stop, root: bool, fuel: nat)
    requires id < |h| && fuel > 0 && (Bottom(h, id) || (own.Over? && IsOver(h, id, own.deadline))) && !h[id].Mark?
    ensures !Seek(GraphOf(h), MarksOf(h, root), [At(id)], fuel).Found?
  {
    var g, goals := GraphOf(h), MarksOf(h, root);
    if Bottom(h, id) {
      BottomSeek(g, goals, id, fuel);
    } else if h[id].Classified? {
      WrapSeek(g, goals, id, h[id].err, fuel);
      if fuel > 1 { BottomSeek(g, goals, h[id].err.id, fuel - 1); }
    }
  }
}
