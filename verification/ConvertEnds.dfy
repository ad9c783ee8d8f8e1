/** When a conversion returns. The walk over a chain is bounded, and the searches a conversion makes of the same
    chain beside it are not; which of them it makes depends on what the earlier ones came to
    (v2/errors_convert.go:180-298, 344-411, 476-527). */
module ConvertEnds {
  import opened Common
  import opened Kinds
  import opened ChainWalk
  import opened ErrorGraph
  import opened Classifier
  import opened ErrorConvert
  import opened FiniteChains
  import opened MoreSteps

  /** A search that is over after some number of steps: its chain is finite, or holds what is looked for. */
  ghost predicate Ends(g: Graph, goals: set<nat>, stack: seq<Ref>) {
    exists b: nat :: Bounded(g, goals, stack, b)
  }

  /** The search for the kind of a chain ends. */
  ghost predicate KindEnds(h: Heap, e: Ref) { Ends(KindGraphOf(h), Kinded(h), [e]) }

  ghost predicate SearchEnds(h: Heap, goals: set<nat>, e: Ref) { Ends(GraphOf(h), goals, [e]) }

  /** A search that has returned is one that ends, and one that ends returns from some number of steps on. */
  lemma EndsIff(g: Graph, goals: set<nat>, stack: seq<Ref>, fuel: nat)
    ensures !Seek(g, goals, stack, fuel).Running? ==> Ends(g, goals, stack)
  {
    SeekIsFirstGoal(g, goals, stack, fuel);
    assert Returns(g, goals, stack, fuel) ==> Bounded(g, goals, stack, fuel);
  }

  lemma EndsAt(g: Graph, goals: set<nat>, stack: seq<Ref>) returns (b: nat)
    requires Ends(g, goals, stack)
    ensures forall fuel: nat | fuel >= b :: Seek(g, goals, stack, fuel) == Seek(g, goals, stack, b)
    ensures !Seek(g, goals, stack, b).Running?
  {
    b :| Bounded(g, goals, stack, b);
    SeekIsFirstGoal(g, goals, stack, b);
    forall fuel: nat | fuel >= b ensures Seek(g, goals, stack, fuel) == Seek(g, goals, stack, b) {
      SeekIsStable(g, goals, stack, b, fuel);
    }
  }

  // ---------------------------------------------------------------- one error of the walk

  /** Some search finds this kind in the chain. */
  ghost predicate Carries(h: Heap, e: Ref, kind: InternalKind) {
    exists b: nat :: KindOf(h, e, b) == Done(kind)
  }

  /** The errors that decide a failure's kind: those that have a kind themselves, and of the carriers made by
      types.Classified those whose chain does not carry the same kind beneath them. */
  ghost predicate Decides(h: Heap, id: nat)
    requires id < |h|
  {
    match h[id]
    case Lib(e, _) => e.kind.Some?
    case Bare(kind) => kind.Some?
    case Operation(kind, narrow, _, _, _, _, _, _, _) => KindFromInternal(kind, narrow).Some?
    case Classified(kind, _, _, err) => kind != KindUnknown && !Carries(h, err, kind)
    case Review => true
    case KindSentinel(kind) => kind != KindUnknown
    case _ => false
  }

  /** The visit of one error ends: for an error of none of the library's types the kind of its chain has to
      be found or not be there, and for a carrier that of the chain beneath it. */
  ghost predicate VisitEnds(h: Heap, id: nat)
    requires id < |h|
  {
    match h[id]
    case Lib(_, _) => true
    case Bare(_) => true
    case Operation(_, _, _, _, _, _, _, _, _) => true
    case Classified(kind, _, _, err) => kind == KindUnknown || KindEnds(h, err)
    case Review => true
    case KindSentinel(_) => true
    case _ => KindEnds(h, At(id))
  }

  lemma KindEndsIff(h: Heap, e: Ref, fuel: nat)
    ensures KindOf(h, e, fuel).Done? ==> KindEnds(h, e)
  {
    EndsIff(KindGraphOf(h), Kinded(h), [e], fuel);
  }

  lemma CarriesIs(h: Heap, e: Ref, kind: InternalKind, fuel: nat)
    requires KindOf(h, e, fuel).Done?
    ensures Carries(h, e, kind) <==> KindOf(h, e, fuel) == Done(kind)
  {
    if Carries(h, e, kind) {
      var b: nat :| KindOf(h, e, b) == Done(kind);
      KindStays(h, e, fuel, fuel + b);
      KindStays(h, e, b, fuel + b);
    }
  }

  /** A kind that is found beneath an error is the kind of one of the errors it wraps. */
  lemma {:induction false} KindIsAKids(h: Heap, kids: seq<Ref>, fuel: nat, more: nat, id: nat)
    requires Seek(KindGraphOf(h), Kinded(h), kids, fuel) == Found(id) && fuel <= more && id < |h|
    ensures AnyKidHas(h, kids, OwnKind(h[id]), more) == Done(true)
  {
    var g, goals := KindGraphOf(h), Kinded(h);
    FoundIsGoal(g, goals, kids, fuel);
    if kids != [] {
      SeekOfConcat(g, goals, [kids[0]], kids[1..], fuel);
      assert [kids[0]] + kids[1..] == kids;
      SeekIsStable(g, goals, [kids[0]], fuel, more);
      if Seek(g, goals, [kids[0]], fuel).Absent? {
        KindIsAKids(h, kids[1..], fuel - |PreOrder(g, [kids[0]], fuel)|, more, id);
      }
    }
  }

  /** An error of none of the library's types decides nothing: what kind it carries, something beneath it does. */
  lemma OtherDecidesNothing(h: Heap, id: nat, fuel: nat)
    requires id < |h| && OwnKind(h[id]) == KindUnknown && !h[id].Operation? && !h[id].Classified?
    ensures CarriedKind(h, id, fuel) == if KindOf(h, At(id), fuel).Done? then Done(KindUnknown) else Hung
  {
    var g, goals := KindGraphOf(h), Kinded(h);
    FoundIsGoal(g, goals, [At(id)], fuel);
    if fuel > 0 {
      assert KidsOf(g, id) + [At(id)][1..] == Unwrap(h[id]);
      var s := Seek(g, goals, Unwrap(h[id]), fuel - 1);
      if s.Found? { KindIsAKids(h, Unwrap(h[id]), fuel - 1, fuel, s.id); }
    }
  }

  /** A carrier is asked for its own kind, and then for that of what it wraps. */
  lemma CarrierDecides(h: Heap, id: nat, fuel: nat)
    requires id < |h| && h[id].Classified? && fuel > 0
    ensures var kind, err := h[id].ikind, h[id].err;
      CarriedKind(h, id, fuel) ==
        if kind == KindUnknown then Done(KindUnknown)
        else if KindOf(h, err, fuel).Hung? then Hung
        else Done(if KindOf(h, err, fuel).value == kind then KindUnknown else kind)
  {
    OwnKindIsFound(h, id, fuel);
    var kids := Unwrap(h[id]);
    assert kids == [h[id].err] && kids[1..] == [];
    assert AnyKidHas(h, kids[1..], h[id].ikind, fuel) == Done(false);
  }

  /** An error the search does not look beneath is found with its own kind, or not at all. */
  lemma OwnKindIsFound(h: Heap, id: nat, fuel: nat)
    requires id < |h| && (h[id].Classified? || h[id].Review? || h[id].KindSentinel?) && fuel > 0
    ensures KindOf(h, At(id), fuel) == Done(OwnKind(h[id]))
  {
    var g, goals := KindGraphOf(h), Kinded(h);
    assert id in goals <==> OwnKind(h[id]) != KindUnknown;
    assert KidsOf(g, id) + [At(id)][1..] == [];
    assert Seek(g, goals, [], fuel - 1) == Absent;
  }

  lemma LeafDecides(h: Heap, id: nat, fuel: nat)
    requires id < |h| && (h[id].Review? || h[id].KindSentinel?) && fuel > 0
    ensures CarriedKind(h, id, fuel) == Done(OwnKind(h[id]))
  {
    OwnKindIsFound(h, id, fuel);
    assert Unwrap(h[id]) == [];
  }

  /** What a visit comes to when it returns, and that it returns exactly when it ends. */
  lemma VisitIs(h: Heap, id: nat, fuel: nat)
    requires id < |h| && VerdictOf(h, id, fuel).Done? && fuel > 0
    ensures VisitEnds(h, id) && (VerdictOf(h, id, fuel).value.Some? <==> Decides(h, id))
    ensures VerdictOf(h, id, fuel).value.Some? ==> VerdictOf(h, id, fuel).value.value.node == id
    ensures VerdictOf(h, id, fuel).value.Some? ==>
      (VerdictOf(h, id, fuel).value.value.source == FromLibrary <==> h[id].Lib? || h[id].Bare?)
  {
    match h[id]
    case Classified(kind, _, _, err) =>
      CarrierDecides(h, id, fuel);
      KindEndsIff(h, err, fuel);
      if KindOf(h, err, fuel).Done? { CarriesIs(h, err, kind, fuel); }
    case Review => LeafDecides(h, id, fuel);
    case KindSentinel(_) => LeafDecides(h, id, fuel);
    case Lib(_, _) =>
    case Bare(_) =>
    case Operation(_, _, _, _, _, _, _, _, _) =>
    case _ =>
      OtherDecidesNothing(h, id, fuel);
      KindEndsIff(h, At(id), fuel);
  }

  lemma KindReturnsFrom(h: Heap, e: Ref) returns (b: nat)
    requires KindEnds(h, e)
    ensures forall fuel: nat | fuel >= b :: KindOf(h, e, fuel).Done?
  {
    b := EndsAt(KindGraphOf(h), Kinded(h), [e]);
    forall fuel: nat | fuel >= b ensures KindOf(h, e, fuel).Done? {
      assert !Seek(KindGraphOf(h), Kinded(h), [e], fuel).Running?;
    }
  }

  lemma VisitReturnsFrom(h: Heap, id: nat) returns (b: nat)
    requires id < |h| && VisitEnds(h, id)
    ensures b > 0 && forall fuel: nat | fuel >= b :: VerdictOf(h, id, fuel).Done?
  {
    b := 1;
    match h[id]
    case Classified(kind, _, _, err) =>
      if kind != KindUnknown {
        var n := KindReturnsFrom(h, err);
        b := n + 1;
      }
      forall fuel: nat | fuel >= b ensures VerdictOf(h, id, fuel).Done? { CarrierDecides(h, id, fuel); }
    case Review => forall fuel: nat | fuel >= b ensures VerdictOf(h, id, fuel).Done? { LeafDecides(h, id, fuel); }
    case KindSentinel(_) =>
      forall fuel: nat | fuel >= b ensures VerdictOf(h, id, fuel).Done? { LeafDecides(h, id, fuel); }
    case Lib(_, _) =>
    case Bare(_) =>
    case Operation(_, _, _, _, _, _, _, _, _) =>
    case _ =>
      var n := KindReturnsFrom(h, At(id));
      b := n + 1;
      forall fuel: nat | fuel >= b ensures VerdictOf(h, id, fuel).Done? { OtherDecidesNothing(h, id, fuel); }
  }

  // ---------------------------------------------------------------- the walk

  /** Every visit up to the first that decides ends. */
  ghost predicate VisitsEnd(h: Heap, v: seq<nat>) {
    v == [] || (if v[0] < |h| then VisitEnds(h, v[0]) && (Decides(h, v[0]) || VisitsEnd(h, v[1..]))
      else VisitsEnd(h, v[1..]))
  }

  /** The first error that decides. */
  ghost function Decider(h: Heap, v: seq<nat>): (r: Option<nat>)
    ensures r.Some? ==> r.value < |h| && r.value in v
  {
    if v == [] then None
    else if v[0] < |h| && Decides(h, v[0]) then Some(v[0])
    else Decider(h, v[1..])
  }

  /** The verdict on a walk agrees with the first error that decides. */
  ghost predicate Agrees(h: Heap, d: Option<Verdict>, decider: Option<nat>) {
    match decider
    case None => d.None?
    case Some(id) =>
      && d.Some? && d.value.node == id && id < |h|
      && (d.value.source == FromLibrary <==> h[id].Lib? || h[id].Bare?)
  }

  lemma {:induction false} VerdictIs(h: Heap, v: seq<nat>, fuel: nat)
    requires FirstVerdict(h, v, fuel).Done? && fuel > 0
    ensures VisitsEnd(h, v) && Agrees(h, FirstVerdict(h, v, fuel).value, Decider(h, v))
  {
    if v != [] {
      if v[0] < |h| { VisitIs(h, v[0], fuel); }
      if v[0] >= |h| || !Decides(h, v[0]) { VerdictIs(h, v[1..], fuel); }
    }
  }

  lemma {:induction false} VerdictReturnsFrom(h: Heap, v: seq<nat>) returns (b: nat)
    requires VisitsEnd(h, v)
    ensures b > 0 && forall fuel: nat | fuel >= b :: FirstVerdict(h, v, fuel).Done?
  {
    b := 1;
    if v != [] {
      var n, m := 0, 0;
      if v[0] < |h| { n := VisitReturnsFrom(h, v[0]); }
      if v[0] >= |h| || !Decides(h, v[0]) { m := VerdictReturnsFrom(h, v[1..]); }
      b := n + m + 1;
      forall fuel: nat | fuel >= b ensures FirstVerdict(h, v, fuel).Done? {
        if v[0] < |h| { VisitIs(h, v[0], fuel); }
      }
    }
  }

  // ---------------------------------------------------------------- what follows the verdict

  /** What is asked once the walk has decided: nothing for an error of the root package, else whether the
      guard's first sentinel is in the chain, or the first of the plain sentinels where nothing decided. The
      later questions about the same chain end when the first one does, since it ends without an answer only
      on a chain that is finite. */
  ghost predicate DecisionEnds(h: Heap, e: Ref, decider: Option<nat>) {
    match decider
    case None => SearchEnds(h, Sentinels(h, 0), e)
    case Some(id) => id < |h| && (h[id].Lib? || h[id].Bare? || SearchEnds(h, Sentinels(h, TRUST_BOUNDARY_VIOLATED), e))
  }

  /** What is asked for the facts: the route, and for a chain that states a message the no-model sentinel. */
  ghost predicate FactsEnd(host: Host, h: Heap, e: Ref) {
    SearchEnds(h, Routed(h), e) && (StatesNoMessage(host, h, e) || SearchEnds(h, Sentinels(h, NO_MODEL_MAPPING), e))
  }

  ghost predicate StatesNoMessage(host: Host, h: Heap, e: Ref) {
    FactsOver(h, Walk(GraphOf(h), e, MAX_CHAIN_NODES), host.letter).message == ""
  }

  /** A search that ends, with what it comes to from some number of steps on: an end of the chain, or a find. */
  lemma SearchReturnsFrom(h: Heap, goals: set<nat>, e: Ref) returns (b: nat)
    requires SearchEnds(h, goals, e)
    ensures !Seek(GraphOf(h), goals, [e], b).Running?
    ensures Seek(GraphOf(h), goals, [e], b).Absent? ==> Finite(h, e, b)
    ensures forall fuel: nat | fuel >= b :: Seek(GraphOf(h), goals, [e], fuel) == Seek(GraphOf(h), goals, [e], b)
    ensures forall fuel: nat | fuel >= b && Seek(GraphOf(h), goals, [e], b).Absent? :: Finite(h, e, fuel)
  {
    b := EndsAt(GraphOf(h), goals, [e]);
    SeekIsFirstGoal(GraphOf(h), goals, [e], b);
    forall fuel: nat | fuel >= b && Seek(GraphOf(h), goals, [e], b).Absent? ensures Finite(h, e, fuel) {
      FinishedSeesAll(GraphOf(h), [e], b, fuel);
    }
  }

  lemma SearchIs(h: Heap, goals: set<nat>, e: Ref, fuel: nat)
    requires !Seek(GraphOf(h), goals, [e], fuel).Running?
    ensures SearchEnds(h, goals, e)
    ensures Seek(GraphOf(h), goals, [e], fuel).Absent? ==> Finite(h, e, fuel)
  {
    EndsIff(GraphOf(h), goals, [e], fuel);
    SeekIsFirstGoal(GraphOf(h), goals, [e], fuel);
  }

  lemma FiniteEnds(h: Heap, goals: set<nat>, e: Ref, b: nat)
    requires Finite(h, e, b)
    ensures SearchEnds(h, goals, e)
  {
    SeekOfFinite(GraphOf(h), goals, [e], b, b);
    EndsIff(GraphOf(h), goals, [e], b);
  }

  lemma FactsAre(host: Host, h: Heap, e: Ref, d: Option<Verdict>, fuel: nat)
    requires FactsOf(host, h, e, d, fuel).Done?
    ensures FactsEnd(host, h, e)
  {
    SearchIs(h, Routed(h), e, fuel);
    if Seek(GraphOf(h), Routed(h), [e], fuel).Absent? {
      FiniteEnds(h, Sentinels(h, NO_MODEL_MAPPING), e, fuel);
    } else if !StatesNoMessage(host, h, e) {
      StatedMessageStays(host, h, e, d, fuel);
      SearchIs(h, Sentinels(h, NO_MODEL_MAPPING), e, fuel);
    }
  }

  lemma StatedMessageStays(host: Host, h: Heap, e: Ref, d: Option<Verdict>, fuel: nat)
    requires RawFacts(host, h, e, d, fuel).Done? && !StatesNoMessage(host, h, e)
    ensures RawFacts(host, h, e, d, fuel).value.message != ""
  {
  }

  lemma FactsReturnFrom(host: Host, h: Heap, e: Ref) returns (b: nat)
    requires FactsEnd(host, h, e)
    ensures forall fuel: nat, d: Option<Verdict> | fuel >= b :: FactsOf(host, h, e, d, fuel).Done?
  {
    var n := SearchReturnsFrom(h, Routed(h), e);
    var m := 0;
    if !StatesNoMessage(host, h, e) { m := SearchReturnsFrom(h, Sentinels(h, NO_MODEL_MAPPING), e); }
    b := n + m;
    forall fuel: nat, d: Option<Verdict> | fuel >= b ensures FactsOf(host, h, e, d, fuel).Done? {
      assert !CallOf(h, e, fuel).Hung?;
      if Seek(GraphOf(h), Routed(h), [e], n).Absent? {
        FactsOfReturns(host, h, e, d, fuel);
      } else if StatesNoMessage(host, h, e) {
        RoutedStatesNoMessage(host, h, e, d, fuel);
      }
    }
  }

  lemma RoutedStatesNoMessage(host: Host, h: Heap, e: Ref, d: Option<Verdict>, fuel: nat)
    requires StatesNoMessage(host, h, e) && Seek(GraphOf(h), Routed(h), [e], fuel).Found?
    ensures RawFacts(host, h, e, d, fuel).Done? && RawFacts(host, h, e, d, fuel).value.message == ""
  {
    FoundIsGoal(GraphOf(h), Routed(h), [e], fuel);
  }

  // ---------------------------------------------------------------- the decision

  lemma DecisionIs(host: Host, h: Heap, e: Ref, v: seq<nat>, fuel: nat)
    requires v == Walk(GraphOf(h), e, MAX_CHAIN_NODES) && DecidedKind(host, h, e, fuel).Done? && fuel > 0
    ensures VisitsEnd(h, v) && DecisionEnds(h, e, Decider(h, v))
  {
    VerdictIs(h, v, fuel);
    match ClassifiedBy(h, e, fuel).value
    case None => SearchIs(h, Sentinels(h, 0), e, fuel);
    case Some(d) =>
      if d.source != FromLibrary { SearchIs(h, Sentinels(h, TRUST_BOUNDARY_VIOLATED), e, fuel); }
  }

  lemma DecisionReturnsFrom(host: Host, h: Heap, e: Ref, v: seq<nat>) returns (b: nat)
    requires v == Walk(GraphOf(h), e, MAX_CHAIN_NODES) && VisitsEnd(h, v) && DecisionEnds(h, e, Decider(h, v))
    ensures forall fuel: nat | fuel >= b :: DecidedKind(host, h, e, fuel).Done?
  {
    var n := VerdictReturnsFrom(h, v);
    var m := 0;
    var goals := if Decider(h, v).None? then Sentinels(h, 0) else Sentinels(h, TRUST_BOUNDARY_VIOLATED);
    if SearchEnds(h, goals, e) { m := SearchReturnsFrom(h, goals, e); }
    b := n + m;
    forall fuel: nat | fuel >= b ensures DecidedKind(host, h, e, fuel).Done? {
      VerdictIs(h, v, fuel);
      if SearchEnds(h, goals, e) { DecisionReturns(host, h, e, v, goals, fuel); }
    }
  }

  lemma DecisionReturns(host: Host, h: Heap, e: Ref, v: seq<nat>, goals: set<nat>, fuel: nat)
    requires v == Walk(GraphOf(h), e, MAX_CHAIN_NODES) && FirstVerdict(h, v, fuel).Done? && fuel > 0
    requires goals == (if Decider(h, v).None? then Sentinels(h, 0) else Sentinels(h, TRUST_BOUNDARY_VIOLATED))
    requires !Seek(GraphOf(h), goals, [e], fuel).Running?
    ensures DecidedKind(host, h, e, fuel).Done?
  {
    VerdictIs(h, v, fuel);
    if Seek(GraphOf(h), goals, [e], fuel).Absent? {
      SearchIs(h, goals, e, fuel);
      DecidedKindReturns(host, h, e, fuel);
    }
  }

  // ---------------------------------------------------------------- the conversion

  ghost predicate ConvertReturns(host: Host, h: Heap, op: string, e: Ref, unknown: Kind, fuel: nat) {
    ConvertWith(host, h, op, e, unknown, fuel).Done?
  }

  /** The searches a conversion makes end: for an `*Error` with a kind those for the facts of what it wraps;
      for any other error the visits of the walk up to the error that decides, the search that follows what
      decided, and those for the facts. */
  ghost predicate ConversionEnds(host: Host, h: Heap, e: Ref, v: seq<nat>) {
    if e.Nil? then true
    else if e.id < |h| && h[e.id].Lib? && h[e.id].failure.kind.Some? then FactsEnd(host, h, h[e.id].err)
    else VisitsEnd(h, v) && DecisionEnds(h, e, Decider(h, v)) && FactsEnd(host, h, e)
  }

  /** Exactly when the conversion of an error returns, for every error of every heap. */
  lemma ConvertReturnsIff(host: Host, h: Heap, op: string, e: Ref, unknown: Kind)
    ensures (exists fuel: nat :: ConvertReturns(host, h, op, e, unknown, fuel))
       <==> ConversionEnds(host, h, e, Walk(GraphOf(h), e, MAX_CHAIN_NODES))
  {
    var v := Walk(GraphOf(h), e, MAX_CHAIN_NODES);
    if exists fuel: nat :: ConvertReturns(host, h, op, e, unknown, fuel) {
      var fuel: nat :| ConvertReturns(host, h, op, e, unknown, fuel);
      ReturnedEnds(host, h, op, e, unknown, v, fuel);
    }
    if ConversionEnds(host, h, e, v) {
      var fuel := EndedReturns(host, h, op, e, unknown, v);
      assert ConvertReturns(host, h, op, e, unknown, fuel);
    }
  }

  lemma ReturnedEnds(host: Host, h: Heap, op: string, e: Ref, unknown: Kind, v: seq<nat>, fuel: nat)
    requires v == Walk(GraphOf(h), e, MAX_CHAIN_NODES) && ConvertReturns(host, h, op, e, unknown, fuel)
    ensures ConversionEnds(host, h, e, v)
  {
    if e.At? {
      if e.id < |h| && h[e.id].Lib? && h[e.id].failure.kind.Some? {
        FactsAre(host, h, h[e.id].err, None, fuel);
      } else {
        FactsAre(host, h, e, DecidedKind(host, h, e, fuel).value.1, fuel);
        assert CallOf(h, e, fuel).Done? && fuel > 0;
        DecisionIs(host, h, e, v, fuel);
      }
    }
  }

  lemma EndedReturns(host: Host, h: Heap, op: string, e: Ref, unknown: Kind, v: seq<nat>) returns (fuel: nat)
    requires v == Walk(GraphOf(h), e, MAX_CHAIN_NODES) && ConversionEnds(host, h, e, v)
    ensures ConvertReturns(host, h, op, e, unknown, fuel)
  {
    fuel := 0;
    if e.At? {
      if e.id < |h| && h[e.id].Lib? && h[e.id].failure.kind.Some? {
        fuel := FactsReturnFrom(host, h, h[e.id].err);
      } else {
        var n := DecisionReturnsFrom(host, h, e, v);
        var m := FactsReturnFrom(host, h, e);
        fuel := n + m;
        assert DecidedKind(host, h, e, fuel).Done?;
      }
    }
  }

  // ---------------------------------------------------------------- errors that wrap themselves

  /** An `*Error` that wraps itself, or any other error that does: its walk ends at 256 errors, and its
      conversion never returns. */
  lemma SelfWrappingNeverConverts(host: Host, h: Heap, op: string, unknown: Kind, fuel: nat)
    requires |h| == 1 && ((h[0].Lib? && h[0].err == At(0)) || h[0] == Foreign([At(0)]))
    ensures |Walk(GraphOf(h), At(0), MAX_CHAIN_NODES)| == MAX_CHAIN_NODES
    ensures ConvertWith(host, h, op, At(0), unknown, fuel).Hung?
  {
    assert GraphOf(h) == [[At(0)]] by { assert Unwrap(h[0]) == [At(0)]; }
    WalkIsPreOrder([[At(0)]], At(0), MAX_CHAIN_NODES);
    LoopNeverEnds({}, MAX_CHAIN_NODES);
    LoopNeverConverts(host, h, op, unknown, fuel);
  }

  lemma LoopNeverConverts(host: Host, h: Heap, op: string, unknown: Kind, fuel: nat)
    requires |h| == 1 && GraphOf(h) == [[At(0)]] && !h[0].Classified? && (h[0].Lib? ==> h[0].err == At(0))
    ensures ConvertWith(host, h, op, At(0), unknown, fuel).Hung?
  {
    forall d: Option<Verdict> ensures FactsOf(host, h, At(0), d, fuel).Hung? { LoopHasNoFacts(host, h, d, fuel); }
    if !h[0].Lib? || h[0].failure.kind.None? {
      match DecidedKind(host, h, At(0), fuel)
      case Hung =>
      case Done(d) => assert FactsOf(host, h, At(0), d.1, fuel).Hung?;
    }
  }

  lemma LoopHasNoFacts(host: Host, h: Heap, d: Option<Verdict>, fuel: nat)
    requires GraphOf(h) == [[At(0)]] && Routed(h) == {}
    ensures FactsOf(host, h, At(0), d, fuel).Hung?
  {
    LoopNeverEnds({}, fuel);
  }

  lemma {:induction false} LoopNeverEnds(goals: set<nat>, b: nat)
    requires 0 !in goals
    ensures |PreOrder([[At(0)]], [At(0)], b)| == b && Seek([[At(0)]], goals, [At(0)], b).Running?
  {
    assert [At(0)] + [At(0)][1..] == [At(0)];
    if b > 0 { LoopNeverEnds(goals, b - 1); }
  }
}
