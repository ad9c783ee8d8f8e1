/** What the conversion promises: it is idempotent, it changes nothing an error already says, and the first error
    of a chain that decides a kind decides it. */
module ErrorConvertLaws {
  import opened Common
  import opened Kinds
  import opened ChainWalk
  import opened ErrorGraph
  import opened Classifier
  import opened ErrorConvert

  /** Every fact but the message that `f` states, `e` states already. */
  predicate Covers(e: Failure, f: Facts) {
    && (e.provider == "" ==> f.provider == "")
    && (e.model == "" ==> f.model == "")
    && (e.requestID == "" ==> f.requestID == "")
    && (e.status == 0 ==> f.status == 0)
    && (e.code == "" ==> f.code == "")
    && (e.retryAfter == 0 ==> f.retryAfter == 0)
  }

  /** The facts of one chain but its message do not depend on what decided its kind, nor on how
      long its searches were let run. */
  lemma SameChainSameFacts(host: Host, h: Heap, e: Ref, d: Option<Verdict>, d': Option<Verdict>, fuel: nat, fuel': nat)
    requires FactsOf(host, h, e, d, fuel).Done? && FactsOf(host, h, e, d', fuel').Done?
    ensures FactsOf(host, h, e, d', fuel').value ==
            FactsOf(host, h, e, d, fuel).value.(message := FactsOf(host, h, e, d', fuel').value.message)
  {
    SeekAgrees(GraphOf(h), Routed(h), [e], fuel, fuel');
  }

  lemma FactsOfOldChain(host: Host, h: Heap, more: Heap, e: Ref, fuel: nat)
    requires Sound(h) && Live(h, e)
    ensures FactsOf(host, h + more, e, None, fuel) == FactsOf(host, h, e, None, fuel)
  {
    GraphsGrow(h, more);
    var g, g' := GraphOf(h), GraphOf(more);
    WalkIsPreOrder(g, e, MAX_CHAIN_NODES);
    WalkIsPreOrder(g + g', e, MAX_CHAIN_NODES);
    NewNodesUnseen(g, g', [e], MAX_CHAIN_NODES);
    FactsUnchanged(h, more, Walk(g, e, MAX_CHAIN_NODES), host.letter);
    NewNodesUnsought(g, g', Routed(h), Routed(h + more), [e], fuel);
    NewNodesUnsought(g, g', Sentinels(h, NO_MODEL_MAPPING), Sentinels(h + more, NO_MODEL_MAPPING), [e], fuel);
    FoundIsHeld(g, Routed(h), [e], fuel);
  }

  /** The walk of a wrapper sees the wrapper and a prefix of what the walk of the wrapped error
      sees. */
  lemma WalkOfWrapper(h: Heap, id: nat, b: nat) returns (rest: seq<nat>)
    requires id < |h| && h[id].Lib? && b > 0
    ensures Walk(GraphOf(h), h[id].err, b) == Walk(GraphOf(h), At(id), b)[1..] + rest
    ensures Walk(GraphOf(h), At(id), b) != [] && Walk(GraphOf(h), At(id), b)[0] == id
  {
    var g, e := GraphOf(h), h[id].err;
    assert KidsOf(g, id) == [e];
    WalkIsPreOrder(g, At(id), b);
    WalkIsPreOrder(g, e, b);
    assert [e] + [At(id)][1..] == [e];
    SmallerBudgetSeesPrefix(g, [e], b - 1, b);
    var short, long := PreOrder(g, [e], b - 1), PreOrder(g, [e], b);
    rest := long[|short|..];
    assert PreOrder(g, [At(id)], b) == [id] + short;
  }

  /** What a walk of an error states beyond what the error does is stated by the chain beneath. */
  lemma WrapperStatesNoMore(h: Heap, id: nat, letter: char -> bool)
    requires id < |h| && h[id].Lib?
    ensures var inner := FactsOver(h, Walk(GraphOf(h), h[id].err, MAX_CHAIN_NODES), letter);
            var outer := FactsOver(h, Walk(GraphOf(h), At(id), MAX_CHAIN_NODES), letter);
            exists rest: Facts :: Fill(outer, rest) == Fill(Stated(h[id], letter), inner)
  {
    var rest := WalkOfWrapper(h, id, MAX_CHAIN_NODES);
    var v := Walk(GraphOf(h), At(id), MAX_CHAIN_NODES);
    FactsOverConcat(h, v[1..], rest, letter);
    assert Fill(FactsOver(h, v, letter), FactsOver(h, rest, letter))
        == Fill(Stated(h[id], letter), Fill(FactsOver(h, v[1..], letter), FactsOver(h, rest, letter)));
  }

  lemma CallOfWrapper(h: Heap, id: nat, fuel: nat, fuel': nat)
    requires id < |h| && h[id].Lib?
    requires CallOf(h, h[id].err, fuel).Done? && CallOf(h, At(id), fuel').Done?
    ensures CallOf(h, At(id), fuel') == CallOf(h, h[id].err, fuel)
  {
    var g, e := GraphOf(h), h[id].err;
    assert KidsOf(g, id) == [e] && [e] + [At(id)][1..] == [e] && id !in Routed(h);
    assert Seek(g, Routed(h), [At(id)], fuel') == Seek(g, Routed(h), [e], fuel' - 1);
    SeekAgrees(g, Routed(h), [e], fuel, fuel' - 1);
  }

  function RouteOf(h: Heap, e: Ref, fuel: nat): Facts {
    match CallOf(h, e, fuel)
    case Done(Some(route)) => RouteFacts(route)
    case _ => NO_FACTS
  }

  /** The facts of a chain are what its errors state and then the route of its call. */
  lemma FactsAreStatedThenRoute(host: Host, h: Heap, e: Ref, fuel: nat)
    requires FactsOf(host, h, e, None, fuel).Done?
    ensures var f := FactsOf(host, h, e, None, fuel).value;
            f.(message := "") ==
            Fill(FactsOver(h, Walk(GraphOf(h), e, MAX_CHAIN_NODES), host.letter), RouteOf(h, e, fuel)).(message := "")
  {
  }

  lemma FilledCovers(e: Failure, op: string, stated: Facts, inner: Facts, outer: Facts, rest: Facts, route: Facts)
    requires stated.provider == e.provider && stated.model == e.model && stated.requestID == e.requestID
    requires stated.status == e.status && stated.retryAfter == e.retryAfter && (e.code == "" ==> stated.code == "")
    requires Fill(outer, rest) == Fill(stated, inner)
    ensures Covers(Filled(e, op, Fill(inner, route)), Fill(outer, route))
  {
  }

  /** Completed with the facts of what it wraps, an error has every fact of its own chain. */
  lemma CompletedCoversItself(host: Host, h: Heap, id: nat, op: string, fuel: nat, fuel': nat)
    requires id < |h| && h[id].Lib?
    requires FactsOf(host, h, h[id].err, None, fuel).Done? && FactsOf(host, h, At(id), None, fuel').Done?
    ensures Covers(Filled(h[id].failure, op, FactsOf(host, h, h[id].err, None, fuel).value),
                   FactsOf(host, h, At(id), None, fuel').value)
  {
    var inner := FactsOver(h, Walk(GraphOf(h), h[id].err, MAX_CHAIN_NODES), host.letter);
    var outer := FactsOver(h, Walk(GraphOf(h), At(id), MAX_CHAIN_NODES), host.letter);
    WrapperStatesNoMore(h, id, host.letter);
    var rest: Facts :| Fill(outer, rest) == Fill(Stated(h[id], host.letter), inner);
    CallOfWrapper(h, id, fuel, fuel');
    FactsAreStatedThenRoute(host, h, h[id].err, fuel);
    FactsAreStatedThenRoute(host, h, At(id), fuel');
    FilledCovers(h[id].failure, op, Stated(h[id], host.letter), inner, outer, rest, RouteOf(h, At(id), fuel'));
  }

  lemma CoveredIsComplete(e: Failure, op: string, f: Facts)
    requires e.op != "" && Covers(e, f)
    ensures Filled(e, op, f) == e
  {
  }

  /** Converting again what a conversion under an operation made returns the identical error, in a
      heap that has not grown. */
  lemma ConvertIdempotent(host: Host, h: Heap, op: string, e: Ref, unknown: Kind, fuel: nat,
                          op': string, unknown': Kind, fuel': nat)
    requires Sound(h) && Live(h, e) && op != ""
    requires ConvertWith(host, h, op, e, unknown, fuel).Done?
    requires var (h1, r) := ConvertWith(host, h, op, e, unknown, fuel).value;
             ConvertWith(host, h1, op', r, unknown', fuel').Done?
    ensures var (h1, r) := ConvertWith(host, h, op, e, unknown, fuel).value;
            ConvertWith(host, h1, op', r, unknown', fuel') == Done((h1, r))
  {
    if e.At? {
      var (h1, r) := ConvertWith(host, h, op, e, unknown, fuel).value;
      if r == e {
        SameChainSameFacts(host, h, h[e.id].err, None, None, fuel, fuel');
        assert h1[r.id].failure == Filled(h[e.id].failure, op, FactsOf(host, h, h[e.id].err, None, fuel).value);
      } else if h[e.id].Lib? && h[e.id].failure.kind.Some? {
        FactsOfOldChain(host, h, h1[|h|..], e, fuel');
        CompletedCoversItself(host, h, e.id, op, fuel, fuel');
        assert h1 == h + h1[|h|..];
        CoveredIsComplete(h1[r.id].failure, op', FactsOf(host, h, e, None, fuel').value);
      } else {
        var d := DecidedKind(host, h, e, fuel).value.1;
        FactsOfOldChain(host, h, h1[|h|..], e, fuel');
        assert h1 == h + h1[|h|..];
        SameChainSameFacts(host, h, e, d, None, fuel, fuel');
        CoveredIsComplete(h1[r.id].failure, op', FactsOf(host, h, e, None, fuel').value);
      }
    }
  }

  /** A conversion overwrites nothing: it returns the error itself, or one new error around it. */
  lemma ConvertWraps(host: Host, h: Heap, op: string, e: Ref, unknown: Kind, fuel: nat)
    requires e.At? && Live(h, e) && ConvertWith(host, h, op, e, unknown, fuel).Done?
    ensures var (h1, r) := ConvertWith(host, h, op, e, unknown, fuel).value;
      && h <= h1 && Live(h1, r) && r.At? && h1[r.id].Lib? && h1[r.id].failure.kind.Some?
      && (r == e || (|h1| == |h| + 1 && r.id == |h| && h1[r.id].err == e))
  {
  }

  /** No field an `*Error` with a kind filled in is changed by its conversion. */
  lemma ConvertKeepsFields(host: Host, h: Heap, op: string, id: nat, unknown: Kind, fuel: nat)
    requires id < |h| && h[id].Lib? && h[id].failure.kind.Some?
    requires ConvertWith(host, h, op, At(id), unknown, fuel).Done?
    ensures var (h1, r) := ConvertWith(host, h, op, At(id), unknown, fuel).value;
      r.At? && Live(h1, r) && h1[r.id].Lib? &&
      var was, now := h[id].failure, h1[r.id].failure;
      && now.kind == was.kind && now.message == was.message
      && (was.op != "" ==> now.op == was.op)
      && (was.provider != "" ==> now.provider == was.provider)
      && (was.model != "" ==> now.model == was.model)
      && (was.requestID != "" ==> now.requestID == was.requestID)
      && (was.status != 0 ==> now.status == was.status)
      && (was.code != "" ==> now.code == was.code)
      && (was.retryAfter != 0 ==> now.retryAfter == was.retryAfter)
  {
  }

  /** classifiedBy reads the first error of the pre-order sequence that decides a kind. */
  lemma {:induction false} FirstVerdictIsFirst(h: Heap, v: seq<nat>, fuel: nat)
    requires forall i | 0 <= i < |v| :: v[i] < |h|
    requires FirstVerdict(h, v, fuel).Done?
    ensures match FirstVerdict(h, v, fuel).value
      case None => forall i | 0 <= i < |v| :: VerdictOf(h, v[i], fuel) == Done(None)
      case Some(d) =>
        exists k | 0 <= k < |v| ::
          && VerdictOf(h, v[k], fuel) == Done(Some(d)) && d.node == v[k]
          && forall i | 0 <= i < k :: VerdictOf(h, v[i], fuel) == Done(None)
  {
    if v != [] && VerdictOf(h, v[0], fuel) == Done(None) {
      FirstVerdictIsFirst(h, v[1..], fuel);
      assert forall i | 0 < i < |v| :: v[i] == v[1..][i - 1];
      if FirstVerdict(h, v, fuel).value.Some? {
        var k :| 0 <= k < |v[1..]|
          && VerdictOf(h, v[1..][k], fuel) == FirstVerdict(h, v, fuel)
          && FirstVerdict(h, v, fuel).value.value.node == v[1..][k]
          && forall i | 0 <= i < k :: VerdictOf(h, v[1..][i], fuel) == Done(None);
        assert v[k + 1] == v[1..][k];
        assert forall i | 0 <= i < k + 1 :: VerdictOf(h, v[i], fuel) == Done(None);
      }
    }
  }

  lemma ClassifiedByIsFirst(h: Heap, e: Ref, fuel: nat)
    requires Sound(h) && Live(h, e) && ClassifiedBy(h, e, fuel).Done?
    ensures var v := PreOrder(GraphOf(h), [e], MAX_CHAIN_NODES);
      (forall i | 0 <= i < |v| :: v[i] < |h|) &&
      match ClassifiedBy(h, e, fuel).value
      case None => forall i | 0 <= i < |v| :: VerdictOf(h, v[i], fuel) == Done(None)
      case Some(d) =>
        exists k | 0 <= k < |v| ::
          && VerdictOf(h, v[k], fuel) == Done(Some(d)) && d.node == v[k]
          && forall i | 0 <= i < k :: VerdictOf(h, v[i], fuel) == Done(None)
  {
    WalkIsPreOrder(GraphOf(h), e, MAX_CHAIN_NODES);
    NewNodesUnseen(GraphOf(h), [], [e], MAX_CHAIN_NODES);
    FirstVerdictIsFirst(h, Walk(GraphOf(h), e, MAX_CHAIN_NODES), fuel);
  }
}
