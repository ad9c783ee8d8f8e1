/** The mark an error of the caller's own travels under through an internal combinator, and what a combinator
    reads through it (v2/flow/errors.go, v2/flow.go:336-375; v2/internal/llm/classify.go). */
module FlowErrors {
  import opened Common
  import opened Kinds
  import opened ChainWalk
  import opened ErrorGraph
  import opened Classifier
  import opened ErrorConvert

  // ---------------------------------------------------------------- own

  function Libs(h: Heap): set<nat> { set i | 0 <= i < |h| && h[i].Lib? }

  /** The marks of one package: the root's flowCallerError, or the flow package's callerError. */
  function MarksOf(h: Heap, root: bool): set<nat> { set i | 0 <= i < |h| && h[i].Mark? && h[i].root == root }

  /** errors.As for an *Error: the first of the chain. */
  function FirstLib(h: Heap, e: Ref, fuel: nat): Run<Option<nat>> {
    match Seek(GraphOf(h), Libs(h), [e], fuel)
    case Found(id) => Done(Some(id))
    case Absent => Done(None)
    case Running => Hung
  }

  /** The internal error that Unwrap of a mark gives beside the caller's, before it or after it. */
  datatype Beside = Alone | First(kind: InternalKind, narrow: Narrowing) | After(kind: InternalKind, narrow: Narrowing)

  function LibKind(h: Heap, lib: Option<nat>): Option<Kind> {
    if lib.Some? && lib.value < |h| && h[lib.value].Lib? then h[lib.value].failure.kind else None
  }

  /** Unwrap of a mark. A chain whose first *Error is of kind ErrInternal is a defect. */
  function BesideOf(h: Heap, e: Ref, fuel: nat): Run<Beside> {
    match FirstLib(h, e, fuel)
    case Hung => Hung
    case Done(lib) =>
      if LibKind(h, lib) == Some(ErrInternal) then Done(First(KindConfiguration, NarrowNone))
      else match KindOf(h, e, fuel)
        case Hung => Hung
        case Done(kind) =>
          if kind == KindUnknown && LibKind(h, lib).Some?
          then Done(After(KindToInternal(LibKind(h, lib).value).0, KindToInternal(LibKind(h, lib).value).1))
          else Done(Alone)
  }

  function Filed(kind: InternalKind, narrow: Narrowing): Node {
    Operation(kind, narrow, "flow", "", "", "", 0, "", Nil)
  }

  /** A heap with one more mark in it, with what its Unwrap gives. */
  function Marked(h: Heap, root: bool, e: Ref, beside: Beside): (Heap, Ref) {
    match beside
    case Alone => (h + [Mark(root, e, [e])], At(|h|))
    case First(kind, narrow) => (h + [Filed(kind, narrow), Mark(root, e, [At(|h|), e])], At(|h| + 1))
    case After(kind, narrow) => (h + [Filed(kind, narrow), Mark(root, e, [e, At(|h|)])], At(|h| + 1))
  }

  /** own, and what Unwrap of the mark gives when it is asked. */
  function Own(h: Heap, e: Ref, fuel: nat): Run<(Heap, Ref)> {
    if e.Nil? then Done((h, Nil))
    else match BesideOf(h, e, fuel)
      case Hung => Hung
      case Done(beside) => Done(Marked(h, false, e, beside))
  }

  /** end, and flowEnd: the caller's own error as it was given, or the combinator's own failure as an *Error. */
  function End(host: Host, h: Heap, root: bool, op: string, e: Ref, fuel: nat): Run<(Heap, Ref)> {
    match Seek(GraphOf(h), MarksOf(h, root), [e], fuel)
    case Found(m) => Done((h, if m < |h| && h[m].Mark? then h[m].err else Nil))
    case Absent => ConvertError(host, h, op, e, fuel)
    case Running => Hung
  }

  // ---------------------------------------------------------------- what is read through a mark

  /** What a combinator is to make of a caller's error: a defect is a configuration error, an error the call
      path has no kind for is of the kind its *Error has, and any other is what the classifier says. */
  function Reading(host: Host, h: Heap, e: Ref, fuel: nat): Run<InternalKind> {
    match BesideOf(h, e, fuel)
    case Hung => Hung
    case Done(First(kind, _)) => Done(kind)
    case Done(After(kind, _)) => Done(kind)
    case Done(Alone) => Classify(host, h, e, fuel + 1)
  }

  /** What a combinator reads through the mark, with the classifier, is that. */
  lemma KindIsReadThroughTheMark(host: Host, h: Heap, e: Ref, fuel: nat)
    requires Speaks(host) && Sound(h) && Live(h, e) && e.At? && Own(h, e, fuel).Done?
    ensures var (h', m) := Own(h, e, fuel).value;
      Classify(host, h', m, fuel + 2) == Reading(host, h, e, fuel)
  {
    match BesideOf(h, e, fuel).value
    case Alone => AloneIsRead(host, h, e, fuel);
    case First(kind, narrow) => FirstIsRead(h, e, kind, narrow, fuel);
    case After(kind, narrow) => AfterIsRead(h, e, kind, narrow, fuel);
  }

  lemma OldSearchPast(h: Heap, more: Heap, e: Ref, goals: set<nat>, goals': set<nat>, fuel: nat)
    requires Sound(h) && Live(h, e) && more == [Mark(false, e, [e])]
    requires (forall id | 0 <= id < |h| :: id in goals <==> id in goals') && |h| !in goals'
    ensures Seek(GraphOf(h + more), goals', [At(|h|)], fuel + 1) == Seek(GraphOf(h), goals, [e], fuel)
    ensures Seek(GraphOf(h), goals, [e], fuel).Found? ==> Seek(GraphOf(h), goals, [e], fuel).id < |h|
  {
    SeekPast(GraphOf(h + more), goals', |h|, fuel);
    assert GraphOf(h + more)[|h|] == [e];
    OldSearch(h, more, goals, goals', e, fuel);
  }

  lemma TransportPast(host: Host, h: Heap, more: Heap, e: Ref, fuel: nat)
    requires Speaks(host) && Sound(h) && Live(h, e) && e.At? && more == [Mark(false, e, [e])]
    ensures KindOfTransport(host, h + more, At(|h|), fuel + 1) == KindOfTransport(host, h, e, fuel)
  {
    OldSearchPast(h, more, e, Limits(h), Limits(h + more), fuel);
    OldSearchPast(h, more, e, Apis(h), Apis(h + more), fuel);
    OldSearchPast(h, more, e, Nets(h), Nets(h + more), fuel);
    var s := Seek(GraphOf(h), Limits(h), [e], fuel);
    if s.Found? { OldLimit(h, more, s.id); }
    assert host.text(h + more, |h|) == host.text(h + more, e.id) == host.text(h, e.id);
  }

  lemma UnderneathPast(host: Host, h: Heap, more: Heap, e: Ref, fuel: nat)
    requires Speaks(host) && Sound(h) && Live(h, e) && e.At? && more == [Mark(false, e, [e])]
    ensures KindUnderneath(host, h + more, At(|h|), fuel + 1) == KindUnderneath(host, h, e, fuel)
  {
    OldSearchPast(h, more, e, Canceled(h), Canceled(h + more), fuel);
    OldSearchPast(h, more, e, Deadlines(h), Deadlines(h + more), fuel);
    TransportPast(host, h, more, e, fuel);
  }

  lemma KindPast(h: Heap, more: Heap, e: Ref, fuel: nat)
    requires Sound(h) && Live(h, e) && more == [Mark(false, e, [e])]
    ensures KindOf(h + more, At(|h|), fuel + 1) == KindOf(h, e, fuel)
  {
    var g := KindGraphOf(h + more);
    assert g[|h|] == [e];
    SeekPast(g, Kinded(h + more), |h|, fuel);
    OldKind(h, more, e, fuel);
  }

  lemma AloneIsRead(host: Host, h: Heap, e: Ref, fuel: nat)
    requires Speaks(host) && Sound(h) && Live(h, e) && e.At?
    ensures var (h', m) := Marked(h, false, e, Alone);
      Classify(host, h', m, fuel + 2) == Classify(host, h, e, fuel + 1)
  {
    KindPast(h, [Mark(false, e, [e])], e, fuel + 1);
    UnderneathPast(host, h, [Mark(false, e, [e])], e, fuel + 1);
  }

  lemma FirstIsRead(h: Heap, e: Ref, kind: InternalKind, narrow: Narrowing, fuel: nat)
    requires e.At? && kind != KindUnknown
    ensures var (h', m) := Marked(h, false, e, First(kind, narrow));
      KindOf(h', m, fuel + 2) == Done(kind)
  {
    var (h', _) := Marked(h, false, e, First(kind, narrow));
    SeekPast(KindGraphOf(h'), Kinded(h'), |h| + 1, fuel + 1);
    assert KindGraphOf(h')[|h| + 1] == [At(|h|), e];
    assert |h| in Kinded(h') && OwnKind(h'[|h|]) == kind;
  }

  lemma AfterIsRead(h: Heap, e: Ref, kind: InternalKind, narrow: Narrowing, fuel: nat)
    requires Sound(h) && Live(h, e) && e.At? && kind != KindUnknown && KindOf(h, e, fuel) == Done(KindUnknown)
    ensures var (h', m) := Marked(h, false, e, After(kind, narrow));
      KindOf(h', m, fuel + 2) == Done(kind)
  {
    var (h', _) := Marked(h, false, e, After(kind, narrow));
    SeekPast(KindGraphOf(h'), Kinded(h'), |h| + 1, fuel + 1);
    assert KindGraphOf(h')[|h| + 1] == [e, At(|h|)];
    NothingThenFound(h, h'[|h|..], e, fuel);
    assert h' == h + h'[|h|..] && OwnKind(h'[|h|]) == kind;
  }

  lemma NothingThenFound(h: Heap, more: Heap, e: Ref, fuel: nat)
    requires Sound(h) && Live(h, e) && KindOf(h, e, fuel) == Done(KindUnknown)
    requires |more| > 0 && OwnKind(more[0]) != KindUnknown
    ensures Seek(KindGraphOf(h + more), Kinded(h + more), [e, At(|h|)], fuel + 1) == Found(|h|)
  {
    var g, goals := KindGraphOf(h + more), Kinded(h + more);
    assert (h + more)[|h|] == more[0] && |h| in goals;
    NothingFound(h, more, e, fuel);
    AbsentThenGoal(g, goals, e, |h|, fuel);
  }

  lemma NothingFound(h: Heap, more: Heap, e: Ref, fuel: nat)
    requires Sound(h) && Live(h, e) && KindOf(h, e, fuel) == Done(KindUnknown)
    ensures Seek(KindGraphOf(h + more), Kinded(h + more), [e], fuel) == Absent
  {
    KindGraphClosed(h);
    GraphsGrow(h, more);
    FoundIsGoal(KindGraphOf(h), Kinded(h), [e], fuel);
    NewNodesUnsought(KindGraphOf(h), KindGraphOf(more), Kinded(h), Kinded(h + more), [e], fuel);
  }

  lemma AbsentThenGoal(g: Graph, goals: set<nat>, e: Ref, id: nat, fuel: nat)
    requires Seek(g, goals, [e], fuel) == Absent && id in goals
    ensures Seek(g, goals, [e, At(id)], fuel + 1) == Found(id)
  {
    SeekIsFirstGoal(g, goals, [e], fuel);
    FinishedSeesAll(g, [e], fuel, fuel + 1);
    SeekIsStable(g, goals, [e], fuel, fuel + 1);
    SeekOfConcat(g, goals, [e], [At(id)], fuel + 1);
    assert [e] + [At(id)] == [e, At(id)];
  }

  /** What is read of an error that was there before does not depend on what has been made since. */
  lemma OldReading(host: Host, h: Heap, more: Heap, e: Ref, fuel: nat)
    requires Speaks(host) && Sound(h) && Live(h, e)
    ensures BesideOf(h + more, e, fuel) == BesideOf(h, e, fuel)
    ensures Reading(host, h + more, e, fuel) == Reading(host, h, e, fuel)
  {
    OldSearch(h, more, Libs(h), Libs(h + more), e, fuel);
    OldKind(h, more, e, fuel);
    OldClassify(host, h, more, e, fuel + 1);
  }

  // ---------------------------------------------------------------- which failures stop a combinator

  /** The failures Approve takes to a person (reviewableFailure). */
  predicate Reviewable(kind: InternalKind) {
    kind in {KindRepairExhausted, KindInvariantViolation, KindEvidenceViolation, KindSchemaViolation}
  }

  /** What isTerminal and reviewableFailure are asked about: the kind the classifier reads through the mark. */
  function ReadThrough(host: Host, h: Heap, e: Ref, fuel: nat): Run<InternalKind> {
    match Own(h, e, fuel)
    case Hung => Hung
    case Done((h', m)) => Classify(host, h', m, fuel + 2)
  }

  /** A defect stops Escalate and Until and is not taken to a person, although the kind it is filed under
      would be: what is read through the mark is terminal and not reviewable. */
  lemma DefectStops(host: Host, h: Heap, e: Ref, fuel: nat, lib: nat)
    requires Speaks(host) && Sound(h) && Live(h, e) && e.At?
    requires FirstLib(h, e, fuel) == Done(Some(lib)) && LibKind(h, Some(lib)) == Some(ErrInternal)
    ensures ReadThrough(host, h, e, fuel) == Done(KindConfiguration)
    ensures Terminal(KindConfiguration) && !Reviewable(KindConfiguration)
    ensures Reviewable(KindToInternal(ErrInternal).0) && !Terminal(KindToInternal(ErrInternal).0)
  {
    ReadThroughIs(host, h, e, fuel);
  }

  lemma ReadThroughIs(host: Host, h: Heap, e: Ref, fuel: nat)
    requires Speaks(host) && Sound(h) && Live(h, e) && e.At?
    ensures ReadThrough(host, h, e, fuel) == Reading(host, h, e, fuel)
  {
    if Own(h, e, fuel).Done? { KindIsReadThroughTheMark(host, h, e, fuel); }
  }

  /** The HTTP statuses nothing the library does can help. */
  predicate StatusStops(status: int) { 400 <= status < 500 && status !in {408, 409, 413, 429} }

  lemma StatusStopsIff(status: int)
    ensures StatusStops(status) <==> Terminal(KindForStatus(status))
  {
  }

  predicate LimitStops(h: Heap, id: nat) {
    id < |h| && h[id].RateLimit? && h[id].err.At? && h[id].err.id < |h| && h[h[id].err.id].Api?
      && StatusStops(h[h[id].err.id].status)
  }

  /** What stops of an error that has no kind and holds no *Error: a cancelled context wherever it is; else,
      when no deadline is in it, the status of its first rate limit, or of its first HTTP error, or, where
      it has neither and no network error, one of the library's own phrases. */
  ghost predicate UnreadStops(host: Host, h: Heap, e: Ref, fuel: nat) {
    var g := GraphOf(h);
    || Seek(g, Canceled(h), [e], fuel).Found?
    || (Seek(g, Deadlines(h), [e], fuel).Absent? &&
        match Seek(g, Limits(h), [e], fuel)
        case Found(id) => LimitStops(h, id)
        case _ =>
          match Seek(g, Apis(h), [e], fuel)
          case Found(id) => id < |h| && h[id].Api? && StatusStops(h[id].status)
          case _ => e.At? && Seek(g, Nets(h), [e], fuel).Absent? && PhraseStops(host, host.text(h, e.id)))
  }

  ghost predicate PhraseStops(host: Host, text: string) {
    || host.says(text, NoProvider) || host.says(text, NoDefaultModel) || host.says(text, NoModelMapping)
    || (!host.says(text, DeadlineExceeded) && (host.says(text, ContextCanceled) || host.says(text, CostBudget)))
  }

  lemma UnreadStopsIff(host: Host, h: Heap, e: Ref, fuel: nat)
    requires KindUnderneath(host, h, e, fuel).Done?
    ensures Terminal(KindUnderneath(host, h, e, fuel).value) <==> UnreadStops(host, h, e, fuel)
  {
    match Seek(GraphOf(h), Limits(h), [e], fuel)
    case Found(id) => if id < |h| && h[id].RateLimit? && h[id].err.At? && h[id].err.id < |h| && h[h[id].err.id].Api? {
        StatusStopsIff(h[h[id].err.id].status);
      }
    case _ =>
      match Seek(GraphOf(h), Apis(h), [e], fuel)
      case Found(id) => if id < |h| && h[id].Api? { StatusStopsIff(h[id].status); }
      case _ =>
  }

  /** Exactly which errors of a caller's stop a combinator: one whose first *Error is a defect; else one the
      call path has a terminal kind for; else one whose first *Error has such a kind; and of an error that has
      neither a kind nor an *Error, what the classifier knows of contexts, statuses and phrases. */
  lemma StopsIff(host: Host, h: Heap, e: Ref, fuel: nat)
    requires Speaks(host) && Sound(h) && Live(h, e) && e.At? && ReadThrough(host, h, e, fuel).Done?
    ensures FirstLib(h, e, fuel).Done?
    ensures var lib := LibKind(h, FirstLib(h, e, fuel).value);
      Terminal(ReadThrough(host, h, e, fuel).value) <==>
        if lib == Some(ErrInternal) then true
        else if KindOf(h, e, fuel) != Done(KindUnknown) then KindOf(h, e, fuel).Done?
          && Terminal(KindOf(h, e, fuel).value)
        else if lib.Some? then Terminal(KindToInternal(lib.value).0)
        else UnreadStops(host, h, e, fuel + 1)
  {
    KindIsReadThroughTheMark(host, h, e, fuel);
    if BesideOf(h, e, fuel) == Done(Alone) {
      SeekIsStable(KindGraphOf(h), Kinded(h), [e], fuel, fuel + 1);
      if KindOf(h, e, fuel) == Done(KindUnknown) { UnreadStopsIff(host, h, e, fuel + 1); }
    }
  }

  /** A step that returns a cancelled context, or a refused credential of a provider's, stops at once, with no
      *Error in sight and no kind anywhere in the chain; a deadline of its own, or a provider that is down,
      does not. */
  lemma ContextAndStatusAreRead(host: Host, deadline: bool, provider: string, model: string, status: int,
      code: string, fuel: nat)
    requires Speaks(host) && fuel > 0
    ensures ReadThrough(host, [ContextOver(deadline)], At(0), fuel) == Done(if deadline then KindTimeout
      else KindCanceled)
    ensures ReadThrough(host, [Api(provider, model, status, code)], At(0), fuel) == Done(KindForStatus(status))
    ensures Terminal(KindCanceled) && !Terminal(KindTimeout)
    ensures Terminal(KindForStatus(401)) && !Terminal(KindForStatus(503))
  {
    LeafIsRead(host, ContextOver(deadline), fuel);
    LeafIsRead(host, Api(provider, model, status, code), fuel);
  }

  lemma LeafIsRead(host: Host, n: Node, fuel: nat)
    requires Speaks(host) && (n.ContextOver? || n.Api?) && fuel > 0
    ensures ReadThrough(host, [n], At(0), fuel) == Done(
      if n.Api? then KindForStatus(n.status) else if n.deadline then KindTimeout else KindCanceled)
  {
    var h := [n];
    assert GraphOf(h) == [[]] && KindGraphOf(h) == [[]] && Kinded(h) == {} && Libs(h) == {};
    LeafSeek({}, fuel);
    LeafSeek({}, fuel + 1);
    LeafUnderneath(host, h, fuel + 1);
    KindIsReadThroughTheMark(host, h, At(0), fuel);
  }

  lemma LeafUnderneath(host: Host, h: Heap, fuel: nat)
    requires |h| == 1 && (h[0].ContextOver? || h[0].Api?) && fuel > 0
    ensures KindUnderneath(host, h, At(0), fuel) == Done(
      if h[0].Api? then KindForStatus(h[0].status) else if h[0].deadline then KindTimeout else KindCanceled)
  {
    assert GraphOf(h) == [[]];
    LeafSeek(Canceled(h), fuel);
    LeafSeek(Deadlines(h), fuel);
    LeafSeek(Limits(h), fuel);
    LeafSeek(Apis(h), fuel);
  }

  lemma LeafSeek(goals: set<nat>, fuel: nat)
    requires fuel > 0
    ensures Seek([[]], goals, [At(0)], fuel) == if 0 in goals then Found(0) else Absent
  {
    var g: Graph := [[]];
    assert KidsOf(g, 0) + [At(0)][1..] == [];
  }

  /** A defect beneath another *Error is not seen: a timeout that was caused by a defect is read as the
      timeout it says it is, and tried again. */
  lemma DefectBeneathIsNotSeen(host: Host, timeout: Failure, defect: Failure)
    requires Speaks(host) && timeout.kind == Some(ErrTimeout) && defect.kind == Some(ErrInternal)
    ensures var h := [Lib(timeout, At(1)), Lib(defect, Nil)];
      ReadThrough(host, h, At(0), 2) == Done(KindTimeout) && !Terminal(KindTimeout)
  {
    var h := [Lib(timeout, At(1)), Lib(defect, Nil)];
    DefectIsBeneath(h, timeout, defect);
    ReadThroughIs(host, h, At(0), 2);
  }

  lemma DefectIsBeneath(h: Heap, timeout: Failure, defect: Failure)
    requires h == [Lib(timeout, At(1)), Lib(defect, Nil)]
    ensures Sound(h) && KindOf(h, At(0), 2) == Done(KindUnknown) && FirstLib(h, At(0), 2) == Done(Some(0))
  {
    assert GraphOf(h) == KindGraphOf(h) == [[At(1)], [Nil]] && Kinded(h) == {} && 0 in Libs(h);
    TwoHoldNothing();
  }

  lemma TwoHoldNothing()
    ensures Seek([[At(1)], [Nil]], {}, [At(0)], 2) == Absent
  {
    var g: Graph := [[At(1)], [Nil]];
    assert KidsOf(g, 0) + [At(0)][1..] == [At(1)] && KidsOf(g, 1) + [At(1)][1..] == [Nil];
    assert Seek(g, {}, [Nil], 0) == Absent by { assert [Nil][1..] == []; }
    assert Seek(g, {}, [At(1)], 1) == Absent;
  }
}
