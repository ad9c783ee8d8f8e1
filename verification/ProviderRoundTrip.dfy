/** A provider's failure comes through the call path with what it said. */
module ProviderRoundTrip {
  import opened Common
  import opened Kinds
  import opened ChainWalk
  import opened ErrorGraph
  import opened Classifier
  import opened ErrorConvert
  import opened ErrorConvertLaws
  import opened FiniteChains

  // ---------------------------------------------------------------- the round trip

  /** The heap `h2` holds `h`, and at `o` an error around the chain `e` of `h`: directly, or beside a
      rate-limit error made for it. */
  ghost predicate Relays(h: Heap, e: Ref, h2: Heap, o: nat) {
    && h <= h2 && |h| <= o < |h2| && h2[o].Operation?
    && ((|h2| == |h| + 1 && h2[o].err == e)
        || (|h2| == |h| + 4 && o == |h| + 3 && h2[o].err == At(|h| + 2) && h2[|h| + 2] == Foreign([e, At(|h| + 1)])
            && h2[|h| + 1].RateLimit? && h2[|h| + 1].err == At(|h|) && h2[|h|].Api?))
  }

  /** No error the relay made is one of the goals. */
  ghost predicate Sought(h: Heap, h2: Heap, goals: set<nat>, goals2: set<nat>) {
    && |h| <= |h2|
    && (forall id | 0 <= id < |h| :: id in goals <==> id in goals2)
    && (forall id | |h| <= id < |h2| :: id !in goals2)
  }

  /** A search of the chain in the heap with the relay is a search of it in the heap before. */
  lemma OldSeek(h: Heap, e: Ref, h2: Heap, goals: set<nat>, goals2: set<nat>, b: nat, fuel: nat)
    requires Sound(h) && Live(h, e) && h <= h2 && Sought(h, h2, goals, goals2)
    requires Finite(h, e, b) && b <= fuel
    ensures Seek(GraphOf(h2), goals2, [e], fuel) == Seek(GraphOf(h), goals, [e], b)
  {
    GraphsGrow(h, h2[|h|..]);
    assert h2 == h + h2[|h|..];
    SeekOfFinite(GraphOf(h), goals, [e], b, b);
    SeekIsStable(GraphOf(h), goals, [e], b, fuel);
    NewNodesUnsought(GraphOf(h), GraphOf(h2[|h|..]), goals, goals2, [e], fuel);
  }

  /** A search of the relay is a search of the chain it relays. */
  lemma RelaySeek(h: Heap, e: Ref, h2: Heap, o: nat, goals: set<nat>, goals2: set<nat>, b: nat, fuel: nat)
    requires Sound(h) && Live(h, e) && Relays(h, e, h2, o) && Sought(h, h2, goals, goals2)
    requires Finite(h, e, b) && b + 4 <= fuel
    ensures Seek(GraphOf(h2), goals2, [At(o)], fuel) == Seek(GraphOf(h), goals, [e], b)
  {
    assert KidsOf(GraphOf(h2), o) + [At(o)][1..] == [h2[o].err];
    if h2[o].err == e {
      OldSeek(h, e, h2, goals, goals2, b, fuel - 1);
    } else {
      OldSeek(h, e, h2, goals, goals2, b, fuel - 2);
      RelayedBesideALimit(h, e, h2, goals2, b, fuel);
    }
  }

  lemma RelayedBesideALimit(h: Heap, e: Ref, h2: Heap, goals: set<nat>, b: nat, fuel: nat)
    requires Sound(h) && Live(h, e) && Relays(h, e, h2, |h| + 3)
    requires forall id | |h| <= id < |h2| :: id !in goals
    requires Finite(h, e, b) && b + 4 <= fuel
    ensures Seek(GraphOf(h2), goals, [At(|h| + 2)], fuel - 1) == Seek(GraphOf(h2), goals, [e], fuel - 2)
  {
    var g2, n := GraphOf(h2), |h|;
    var limit := [At(n + 1)];
    assert KidsOf(g2, n + 2) + [At(n + 2)][1..] == [e] + limit;
    SeekOfConcat(g2, goals, [e], limit, fuel - 2);
    FiniteAfter(h, e, h2, goals, b, fuel - 2);
    LimitHoldsNoGoal(h2, n, goals, fuel - 2 - |PreOrder(g2, [e], fuel - 2)|);
  }

  lemma FiniteAfter(h: Heap, e: Ref, h2: Heap, goals: set<nat>, b: nat, fuel: nat)
    requires Sound(h) && Live(h, e) && h <= h2 && Finite(h, e, b) && b <= fuel
    ensures |PreOrder(GraphOf(h2), [e], fuel)| <= b && !Seek(GraphOf(h2), goals, [e], fuel).Running?
  {
    GraphsGrow(h, h2[|h|..]);
    assert h2 == h + h2[|h|..];
    NewNodesUnseen(GraphOf(h), GraphOf(h2[|h|..]), [e], b);
    FinishedSeesAll(GraphOf(h2), [e], b, fuel);
    SeekOfFinite(GraphOf(h2), goals, [e], b, fuel);
  }

  lemma LimitHoldsNoGoal(h2: Heap, n: nat, goals: set<nat>, left: nat)
    requires n + 1 < |h2| && h2[n].Api? && h2[n + 1].RateLimit? && h2[n + 1].err == At(n)
    requires n !in goals && n + 1 !in goals && left >= 2
    ensures Seek(GraphOf(h2), goals, [At(n + 1)], left) == Absent
  {
    var g2 := GraphOf(h2);
    assert KidsOf(g2, n + 1) + [At(n + 1)][1..] == [At(n)];
    assert KidsOf(g2, n) + [At(n)][1..] == [];
    assert Seek(g2, goals, [At(n)], left - 1) == Seek(g2, goals, [], left - 2);
  }

  // ---------------------------------------------------------------- how far a walk sees

  /** What the first errors of a chain state, as many as there is budget for. */
  function Within(h: Heap, e: Ref, n: nat, letter: char -> bool): Facts {
    FactsOver(h, Walk(GraphOf(h), e, n), letter)
  }

  lemma OldWithin(h: Heap, h2: Heap, e: Ref, n: nat, letter: char -> bool)
    requires Sound(h) && Live(h, e) && h <= h2
    ensures Walk(GraphOf(h2), e, n) == Walk(GraphOf(h), e, n)
    ensures FactsOver(h2, Walk(GraphOf(h), e, n), letter) == Within(h, e, n, letter)
  {
    var more := h2[|h|..];
    assert h2 == h + more;
    GraphsGrow(h, more);
    WalkIsPreOrder(GraphOf(h2), e, n);
    WalkIsPreOrder(GraphOf(h), e, n);
    NewNodesUnseen(GraphOf(h), GraphOf(more), [e], n);
    FactsUnchanged(h, more, Walk(GraphOf(h), e, n), letter);
  }

  /** What a walk that goes further states beyond a shorter one. */
  lemma FurtherStates(h: Heap, e: Ref, n: nat, more: nat, letter: char -> bool) returns (rest: Facts)
    requires n <= more
    ensures Within(h, e, more, letter) == Fill(Within(h, e, n, letter), rest)
  {
    var g := GraphOf(h);
    WalkIsPreOrder(g, e, n);
    WalkIsPreOrder(g, e, more);
    SmallerBudgetSeesPrefix(g, [e], n, more);
    var short, long := Walk(g, e, n), Walk(g, e, more);
    rest := FactsOver(h, long[|short|..], letter);
    FactsOverConcat(h, short, long[|short|..], letter);
    assert long == short + long[|short|..];
  }

  /** A walk that has budget left has seen everything. */
  lemma {:induction false} UncutIsWhole(g: Graph, stack: seq<Ref>, n: nat, more: nat)
    requires |PreOrder(g, stack, n)| < n <= more
    ensures PreOrder(g, stack, more) == PreOrder(g, stack, n)
    decreases n, |stack|
  {
    if stack != [] {
      if stack[0].Nil? {
        UncutIsWhole(g, stack[1..], n, more);
      } else {
        UncutIsWhole(g, KidsOf(g, stack[0].id) + stack[1..], n - 1, more - 1);
      }
    }
  }

  /** What a rate-limit error and the error inside it state, when so many errors can still be visited. */
  function LimitStates(h2: Heap, n: nat, left: nat, letter: char -> bool): Facts
    requires n + 1 < |h2|
  {
    if left == 0 then NO_FACTS
    else if left == 1 then Stated(h2[n + 1], letter)
    else Fill(Stated(h2[n + 1], letter), Stated(h2[n], letter))
  }

  lemma {:induction false} WalkOfOne(g: Graph, id: nat, e: Ref, b: nat)
    requires KidsOf(g, id) == [e] && b > 0
    ensures Walk(g, At(id), b) == [id] + Walk(g, e, b - 1)
  {
    assert WalkAll(g, [e], b - 1) == Walk(g, e, b - 1) + [];
  }

  lemma {:induction false} WalkOfTwo(g: Graph, id: nat, e: Ref, e': Ref, b: nat)
    requires KidsOf(g, id) == [e, e'] && b > 0
    ensures Walk(g, At(id), b) == [id] + (Walk(g, e, b - 1) + Walk(g, e', b - 1 - |Walk(g, e, b - 1)|))
  {
    var left := b - 1 - |Walk(g, e, b - 1)|;
    assert [e, e'][1..] == [e'];
    assert WalkAll(g, [e'], left) == Walk(g, e', left) + [];
  }

  /** What the errors made for a relay state beneath the chain they relay, when the walk beneath the relay
      has this much budget: what the walk of the chain has left is for them. */
  function Extra(h: Heap, e: Ref, h2: Heap, o: nat, n: nat, letter: char -> bool): Facts
    requires Relays(h, e, h2, o) && n > 0
  {
    if h2[o].err == e then NO_FACTS
    else LimitStates(h2, |h|, n - 1 - |Walk(GraphOf(h), e, n - 1)|, letter)
  }

  /** How many errors the relay puts in front of the chain. */
  function InFront(h2: Heap, o: nat, e: Ref): (w: nat)
    requires o < |h2| && h2[o].Operation?
    ensures 1 <= w <= 2
  {
    if h2[o].err == e then 1 else 2
  }

  /** The walk beneath the relay gathers what the chain states as far as the budget goes, and then what the
      rate-limit error beside the chain does. */
  lemma RelayedFacts(h: Heap, e: Ref, h2: Heap, o: nat, n: nat, letter: char -> bool)
    requires Sound(h) && Live(h, e) && Relays(h, e, h2, o) && n > 0
    ensures Within(h2, h2[o].err, n, letter)
      == Fill(Within(h, e, if h2[o].err == e then n else n - 1, letter), Extra(h, e, h2, o, n, letter))
  {
    if h2[o].err == e {
      OldWithin(h, h2, e, n, letter);
    } else {
      OldWithin(h, h2, e, n - 1, letter);
      LimitWalk(h2, |h|, e, Walk(GraphOf(h), e, n - 1), n, letter);
    }
  }

  /** A walk of the relay gathers what the relay states first. */
  lemma RelayFacts(h: Heap, e: Ref, h2: Heap, o: nat, n: nat, letter: char -> bool)
    requires Sound(h) && Live(h, e) && Relays(h, e, h2, o) && n > 1
    ensures Within(h2, At(o), n, letter) ==
            Fill(Stated(h2[o], letter),
              Fill(Within(h, e, n - InFront(h2, o, e), letter), Extra(h, e, h2, o, n - 1, letter)))
  {
    WrapperStatesFirst(h2, o, h2[o].err, n, letter);
    assert Within(h2, h2[o].err, n - 1, letter)
      == Fill(Within(h, e, n - InFront(h2, o, e), letter), Extra(h, e, h2, o, n - 1, letter)) by {
      RelayedFacts(h, e, h2, o, n - 1, letter);
    }
  }

  lemma WrapperStatesFirst(h: Heap, id: nat, e: Ref, n: nat, letter: char -> bool)
    requires id < |h| && Unwrap(h[id]) == [e] && n > 0
    ensures Within(h, At(id), n, letter) == Fill(Stated(h[id], letter), Within(h, e, n - 1, letter))
  {
    WalkOfOne(GraphOf(h), id, e, n);
    FactsOfOneMore(h, id, Walk(GraphOf(h), e, n - 1), letter);
  }

  lemma FactsOfOneMore(h: Heap, id: nat, v: seq<nat>, letter: char -> bool)
    requires id < |h|
    ensures FactsOver(h, [id] + v, letter) == Fill(Stated(h[id], letter), FactsOver(h, v, letter))
  {
    assert ([id] + v)[1..] == v;
  }

  lemma LimitWalk(h2: Heap, n: nat, e: Ref, v: seq<nat>, b: nat, letter: char -> bool)
    requires n + 4 == |h2| && h2[n].Api? && h2[n + 1].RateLimit? && h2[n + 1].err == At(n)
    requires h2[n + 2] == Foreign([e, At(n + 1)])
    requires |v| + 1 <= b && Walk(GraphOf(h2), e, b - 1) == v
    ensures FactsOver(h2, Walk(GraphOf(h2), At(n + 2), b), letter) ==
            Fill(FactsOver(h2, v, letter), LimitStates(h2, n, b - 1 - |v|, letter))
  {
    var limit := Walk(GraphOf(h2), At(n + 1), b - 1 - |v|);
    assert Walk(GraphOf(h2), At(n + 2), b) == [n + 2] + (v + limit) by {
      WalkOfTwo(GraphOf(h2), n + 2, e, At(n + 1), b);
    }
    assert FactsOver(h2, limit, letter) == LimitStates(h2, n, b - 1 - |v|, letter) by {
      LimitSeen(h2, n, b - 1 - |v|, letter);
    }
    assert FactsOver(h2, v + limit, letter) == Fill(FactsOver(h2, v, letter), FactsOver(h2, limit, letter)) by {
      FactsOverConcat(h2, v, limit, letter);
    }
    ForeignStatesNothing(h2, n + 2, v + limit, letter);
  }

  lemma ForeignStatesNothing(h: Heap, id: nat, v: seq<nat>, letter: char -> bool)
    requires id < |h| && h[id].Foreign?
    ensures FactsOver(h, [id] + v, letter) == FactsOver(h, v, letter)
  {
    assert ([id] + v)[1..] == v;
  }

  lemma LimitSeen(h2: Heap, n: nat, left: nat, letter: char -> bool)
    requires n + 1 < |h2| && h2[n].Api? && h2[n + 1].RateLimit? && h2[n + 1].err == At(n)
    ensures FactsOver(h2, Walk(GraphOf(h2), At(n + 1), left), letter) == LimitStates(h2, n, left, letter)
  {
    if left > 0 {
      WalkOfOne(GraphOf(h2), n + 1, At(n), left);
      var beneath := Walk(GraphOf(h2), At(n), left - 1);
      assert beneath == if left == 1 then [] else [n] by {
        if left > 1 { assert WalkAll(GraphOf(h2), [], left - 2) == []; }
      }
      assert ([n + 1] + beneath)[1..] == beneath;
      assert left > 1 ==> FactsOver(h2, [n], letter) == Fill(Stated(h2[n], letter), NO_FACTS);
    }
  }

  /** What the errors made for a relay may state: nothing, the wait, or the wait, the status and the route the
      relay was made for; and a status only when the walk has seen all of the chain. */
  predicate Adds(extra: Facts, f: Facts, seen: Facts, provider: string, model: string) {
    || extra in {NO_FACTS, Facts("", "", "", 0, "", f.retryAfter, "")}
    || (extra == Facts(provider, model, "", f.status, "", f.retryAfter, "") && seen.status == f.status)
  }

  /** What a caller is told of a chain with facts `f`, of which the walk of the relay has seen `seen`. */
  function Arriving(f: Facts, seen: Facts, provider: string, model: string): Facts {
    Facts(Or(f.provider, provider), Or(f.model, model), f.requestID, seen.status, seen.code, f.retryAfter, "")
  }

  /** What the relay of a chain with facts `f` states. */
  function RelayStates(f: Facts, provider: string, model: string): Facts {
    Facts(Or(f.provider, provider), Or(f.model, model), f.requestID, 0, "", f.retryAfter, "")
  }

  lemma RelayKeepsFacts(seen: Facts, rest: Facts, route: Facts, extra: Facts, provider: string, model: string)
    requires route.status == 0 && route.code == "" && route.message == ""
    requires Adds(extra, Fill(Fill(seen, rest), route), seen, provider, model)
    ensures var f := Fill(Fill(seen, rest), route);
      Fill(Fill(RelayStates(f, provider, model), Fill(seen, extra)), route).(message := "")
        == Arriving(f, seen, provider, model)
  {
  }

  // ---------------------------------------------------------------- the relay is read back

  lemma RelayIs(h: Heap, e: Ref, h2: Heap, o: nat, index: nat, b: nat)
    requires Sound(h) && Live(h, e) && Relays(h, e, h2, o) && Finite(h, e, b)
    ensures Is(h2, At(o), index, b + 4) == Is(h, e, index, b)
  {
    assert h2[..|h|] == h;
    RelaySeek(h, e, h2, o, Sentinels(h, index), Sentinels(h2, index), b, b + 4);
  }

  lemma RelayCallOf(h: Heap, e: Ref, h2: Heap, o: nat, b: nat)
    requires Sound(h) && Live(h, e) && Relays(h, e, h2, o) && Finite(h, e, b)
    ensures CallOf(h2, At(o), b + 4) == CallOf(h, e, b)
  {
    assert h2[..|h|] == h;
    RelaySeek(h, e, h2, o, Routed(h), Routed(h2), b, b + 4);
    FoundIsHeld(GraphOf(h), Routed(h), [e], b);
  }

  /** The relay of a kind is read back as that kind, decided by the relay itself. */
  lemma RelayKind(host: Host, h: Heap, e: Ref, h2: Heap, o: nat, kind: Kind, b: nat)
    requires Sound(h) && Live(h, e) && Relays(h, e, h2, o) && Finite(h, e, b)
    requires h2[o].ikind == KindToInternal(kind).0 && h2[o].narrow == KindToInternal(kind).1
    requires IsTrustGuard(h, e, b) == Done(false)
    ensures DecidedKind(host, h2, At(o), b + 4)
         == Done((Some(kind), Some(Verdict(kind, FromOperationError, o))))
  {
    assert Walk(GraphOf(h2), At(o), MAX_CHAIN_NODES)[0] == o;
    RelayIs(h, e, h2, o, TRUST_BOUNDARY_VIOLATED, b);
    RelayIs(h, e, h2, o, UNTRUSTED_IN_SYSTEM_PROMPT, b);
  }

  /** What the walk of a relay sees of the chain behind it. */
  function Reached(host: Host, h: Heap, e: Ref, h2: Heap, o: nat): Facts
    requires Relays(h, e, h2, o)
  {
    Within(h, e, MAX_CHAIN_NODES - InFront(h2, o, e), host.letter)
  }

  /** The facts of a relay before their message is put in the words of version 2: what the relay states, what
      the walk sees behind it, and the route of the chain. */
  lemma RelayIsRead(host: Host, h: Heap, e: Ref, h2: Heap, o: nat, d: Verdict, b: nat)
    requires Sound(h) && Live(h, e) && Relays(h, e, h2, o) && Finite(h, e, b)
    requires CallOf(h, e, b).Done? && d.source == FromOperationError
    ensures RawFacts(host, h2, At(o), Some(d), b + 4)
      == Done(Fill(Fill(Stated(h2[o], host.letter),
                        Fill(Reached(host, h, e, h2, o), Extra(h, e, h2, o, MAX_CHAIN_NODES - 1, host.letter))),
                   RouteOf(h, e, b)))
  {
    RelayCallOf(h, e, h2, o, b);
    RelayFacts(h, e, h2, o, MAX_CHAIN_NODES, host.letter);
  }

  /** Those facts are the facts of the chain, but for what the walk does not see. */
  lemma ReadArrives(host: Host, h: Heap, e: Ref, f: Facts, n: nat, extra: Facts, provider: string, model: string,
      b: nat)
    requires FactsOf(host, h, e, None, b) == Done(f) && n <= MAX_CHAIN_NODES
    requires Adds(extra, f, Within(h, e, n, host.letter), provider, model)
    ensures var seen := Within(h, e, n, host.letter);
      Fill(Fill(RelayStates(f, provider, model), Fill(seen, extra)), RouteOf(h, e, b)).(message := "")
        == Arriving(f, seen, provider, model)
  {
    var rest := FurtherStates(h, e, n, MAX_CHAIN_NODES, host.letter);
    FactsAreStatedThenRoute(host, h, e, b);
    KeepsWithout(f, Within(h, e, n, host.letter), rest, RouteOf(h, e, b), extra, provider, model);
  }

  lemma RelayFactsOf(host: Host, h: Heap, e: Ref, h2: Heap, o: nat, d: Verdict, f: Facts, provider: string,
      model: string, b: nat)
    requires Sound(h) && Live(h, e) && Relays(h, e, h2, o) && Finite(h, e, b)
    requires FactsOf(host, h, e, None, b) == Done(f) && d.source == FromOperationError
    requires Stated(h2[o], host.letter) == RelayStates(f, provider, model)
    requires Adds(Extra(h, e, h2, o, MAX_CHAIN_NODES - 1, host.letter), f, Reached(host, h, e, h2, o), provider, model)
    ensures FactsOf(host, h2, At(o), Some(d), b + 4).Done?
    ensures FactsOf(host, h2, At(o), Some(d), b + 4).value.(message := "")
      == Arriving(f, Reached(host, h, e, h2, o), provider, model)
  {
    RelayIsRead(host, h, e, h2, o, d, b);
    ReadArrives(host, h, e, f, MAX_CHAIN_NODES - InFront(h2, o, e),
      Extra(h, e, h2, o, MAX_CHAIN_NODES - 1, host.letter), provider, model, b);
    RelayIsSearched(h, e, h2, o, b);
    MessageAside(host, h2, At(o), Some(d), b + 4);
  }

  lemma RelayIsSearched(h: Heap, e: Ref, h2: Heap, o: nat, b: nat)
    requires Sound(h) && Live(h, e) && Relays(h, e, h2, o) && Finite(h, e, b)
    ensures Is(h2, At(o), NO_MODEL_MAPPING, b + 4).Done?
  {
    SeekOfFinite(GraphOf(h), Sentinels(h, NO_MODEL_MAPPING), [e], b, b);
    RelayIs(h, e, h2, o, NO_MODEL_MAPPING, b);
  }

  /** What is done to a message is done to nothing else. */
  lemma MessageAside(host: Host, h: Heap, e: Ref, d: Option<Verdict>, fuel: nat)
    requires RawFacts(host, h, e, d, fuel).Done? && Is(h, e, NO_MODEL_MAPPING, fuel).Done?
    ensures FactsOf(host, h, e, d, fuel).Done?
    ensures FactsOf(host, h, e, d, fuel).value.(message := "") == RawFacts(host, h, e, d, fuel).value.(message := "")
  {
  }

  /** The same for facts whose message has been put in other words. */
  lemma KeepsWithout(f: Facts, seen: Facts, rest: Facts, route: Facts, extra: Facts, provider: string, model: string)
    requires route.status == 0 && route.code == "" && route.message == ""
    requires f.(message := "") == Fill(Fill(seen, rest), route).(message := "")
    requires Adds(extra, f, seen, provider, model)
    ensures Fill(Fill(RelayStates(f, provider, model), Fill(seen, extra)), route).(message := "")
      == Arriving(f, seen, provider, model)
  {
    RelayKeepsFacts(seen, rest, route, extra, provider, model);
  }

  // ---------------------------------------------------------------- the round trip

  /** The kind, the id, the wait and the route of a provider's failure, against the `*Error` a caller is
      given for it: a route the chain does not state is the one the relay was made for. */
  predicate Survives(kind: Kind, f: Facts, provider: string, model: string, now: Failure) {
    && now.kind == Some(kind) && now.requestID == f.requestID && now.retryAfter == f.retryAfter
    && (f.provider != "" ==> now.provider == f.provider) && (f.model != "" ==> now.model == f.model)
    && (f.provider == "" ==> now.provider in {"", provider}) && (f.model == "" ==> now.model in {"", model})
  }

  /** The `*Error` a caller is given for a provider's failure, within some number of steps. */
  ghost predicate ReachesCaller(host: Host, h: Heap, op: string, e: Ref, now: Failure) {
    exists fuel: nat :: ConvertsTo(host, h, op, e, ErrInternal, now, fuel)
  }

  predicate ConvertsTo(host: Host, h: Heap, op: string, e: Ref, unknown: Kind, now: Failure, fuel: nat) {
    match ConvertWith(host, h, op, e, unknown, fuel)
    case Done((h', At(n))) => n < |h'| && h'[n].Lib? && h'[n].failure == now
    case _ => false
  }

  /** How many errors providerFailure puts in front of a chain it relays: one, or two when it puts a
      rate-limit error beside it, for a wait no rate-limit error in it carries. */
  function Wrapping(host: Host, h: Heap, e: Ref, b: nat): (w: nat)
    ensures 1 <= w <= 2
  {
    match FactsOf(host, h, e, None, b)
    case Done(f) => if f.retryAfter > 0 && HoldsRateLimit(h, e, b) == Done(false) then 2 else 1
    case Hung => 1
  }

  /** A relay of a chain, with the kind and the facts it is made of. */
  ghost predicate IsRelay(h: Heap, e: Ref, h2: Heap, o: nat, kind: Kind, f: Facts, provider: string, model: string,
                          letter: char -> bool) {
    && Relays(h, e, h2, o)
    && h2[o].ikind == KindToInternal(kind).0 && h2[o].narrow == KindToInternal(kind).1
    && Stated(h2[o], letter) == RelayStates(f, provider, model)
    && (h2[o].err != e ==>
          h2[|h|] == Api(provider, model, f.status, "") && h2[|h| + 1] == RateLimit(f.retryAfter, At(|h|)))
  }

  /** What providerFailure makes for a failure the library or nothing decided. */
  lemma RelayMade(host: Host, h: Heap, e: Ref, provider: string, model: string, b: nat)
    requires e.At? && Live(h, e) && ClassifiedBy(h, e, b).Done?
    requires var d := ClassifiedBy(h, e, b).value; d.None? || d.value.source == FromLibrary
    requires ProviderFailure(host, h, e, provider, model, b).Done?
    ensures FailureKind(host, h, e, b).Done? && FactsOf(host, h, e, None, b).Done?
    ensures var (h2, r) := ProviderFailure(host, h, e, provider, model, b).value;
      var kind, f := FailureKind(host, h, e, b).value, FactsOf(host, h, e, None, b).value;
      && r.At? && IsRelay(h, e, h2, r.id, kind, f, provider, model, host.letter)
      && InFront(h2, r.id, e) == Wrapping(host, h, e, b)
  {
  }

  /** The errors made for a relay add nothing the chain does not say, and no status the walk has not seen:
      there is budget for them only when the walk has seen all of the chain. */
  lemma RelayAdds(host: Host, h: Heap, e: Ref, h2: Heap, o: nat, provider: string, model: string, f: Facts, m: nat)
    requires Relays(h, e, h2, o) && f.status == Within(h, e, MAX_CHAIN_NODES, host.letter).status
      && 2 < m <= MAX_CHAIN_NODES
    requires h2[o].err != e ==>
      h2[|h|] == Api(provider, model, f.status, "") && h2[|h| + 1] == RateLimit(f.retryAfter, At(|h|))
    ensures Adds(Extra(h, e, h2, o, m - 1, host.letter), f, Within(h, e, m - InFront(h2, o, e), host.letter),
      provider, model)
  {
    if h2[o].err != e {
      var g, n: nat := GraphOf(h), m - 2;
      var left := n - |Walk(g, e, n)|;
      assert Extra(h, e, h2, o, m - 1, host.letter) == LimitStates(h2, |h|, left, host.letter);
      if left > 0 {
        WalkIsPreOrder(g, e, n);
        WalkIsPreOrder(g, e, MAX_CHAIN_NODES);
        UncutIsWhole(g, [e], n, MAX_CHAIN_NODES);
      }
    }
  }

  lemma StatusIsWalked(host: Host, h: Heap, e: Ref, b: nat)
    requires FactsOf(host, h, e, None, b).Done?
    ensures var f, stated := FactsOf(host, h, e, None, b).value, Within(h, e, MAX_CHAIN_NODES, host.letter);
      f.status == stated.status && f.code == stated.code
  {
    FactsAreStatedThenRoute(host, h, e, b);
  }

  lemma RelayConverts(host: Host, h: Heap, op: string, o: nat, kind: Kind, unknown: Kind, fuel: nat)
    requires o < |h| && h[o].Operation?
    requires DecidedKind(host, h, At(o), fuel) == Done((Some(kind), Some(Verdict(kind, FromOperationError, o))))
    requires FactsOf(host, h, At(o), Some(Verdict(kind, FromOperationError, o)), fuel).Done?
    ensures ConvertsTo(host, h, op, At(o), unknown,
      Failed(kind, op, FactsOf(host, h, At(o), Some(Verdict(kind, FromOperationError, o)), fuel).value), fuel)
  {
  }

  /** What a caller is told of a relay. */
  lemma RelayTells(host: Host, h: Heap, e: Ref, h2: Heap, o: nat, kind: Kind, f: Facts, provider: string, model: string,
                   op: string, unknown: Kind, b: nat) returns (now: Failure)
    requires Sound(h) && Live(h, e) && Finite(h, e, b) && IsTrustGuard(h, e, b) == Done(false)
    requires FactsOf(host, h, e, None, b) == Done(f) && IsRelay(h, e, h2, o, kind, f, provider, model, host.letter)
    ensures ConvertsTo(host, h2, op, At(o), unknown, now, b + 4)
    ensures now.(message := "") == Failed(kind, op, Arriving(f, Reached(host, h, e, h2, o), provider, model))
  {
    var d := Verdict(kind, FromOperationError, o);
    StatusIsWalked(host, h, e, b);
    RelayAdds(host, h, e, h2, o, provider, model, f, MAX_CHAIN_NODES);
    RelayFactsOf(host, h, e, h2, o, d, f, provider, model, b);
    RelayKind(host, h, e, h2, o, kind, b);
    now := Failed(kind, op, FactsOf(host, h2, At(o), Some(d), b + 4).value);
    RelayConverts(host, h2, op, o, kind, unknown, b + 4);
  }

  /** A failure the library or nothing decided is relayed, and what its relay converts to is its kind, its id,
      its wait and its route, with the status and the code that the walk of the relay comes to. */
  lemma RelayedRoundTrip(host: Host, h: Heap, e: Ref, provider: string, model: string, op: string, b: nat)
      returns (now: Failure)
    requires Sound(h) && Live(h, e) && e.At? && Finite(h, e, b)
    requires IsTrustGuard(h, e, b) == Done(false) && ClassifiedBy(h, e, b).Done?
    requires var d := ClassifiedBy(h, e, b).value; d.None? || d.value.source == FromLibrary
    requires ProviderFailure(host, h, e, provider, model, b).Done?
    ensures FailureKind(host, h, e, b).Done? && FactsOf(host, h, e, None, b).Done?
    ensures ConvertsTo(host, ProviderFailure(host, h, e, provider, model, b).value.0, op,
                       ProviderFailure(host, h, e, provider, model, b).value.1, ErrInternal, now, b + 4)
    ensures var kind, f := FailureKind(host, h, e, b).value, FactsOf(host, h, e, None, b).value;
      now.(message := "") == Failed(kind, op,
        Arriving(f, Within(h, e, MAX_CHAIN_NODES - Wrapping(host, h, e, b), host.letter), provider, model))
  {
    RelayMade(host, h, e, provider, model, b);
    var (h2, r) := ProviderFailure(host, h, e, provider, model, b).value;
    now := RelayTells(host, h, e, h2, r.id, FailureKind(host, h, e, b).value, FactsOf(host, h, e, None, b).value,
                      provider, model, op, ErrInternal, b);
  }

  /** A failure an internal error decided is the call path's own, and is returned as it is. */
  lemma PassedThroughRoundTrip(host: Host, h: Heap, e: Ref, provider: string, model: string, op: string, b: nat)
    requires e.At? && ClassifiedBy(h, e, b).Done?
    requires var d := ClassifiedBy(h, e, b).value; d.Some? && d.value.source != FromLibrary
    requires IsTrustGuard(h, e, b) == Done(false) && FactsOf(host, h, e, None, b).Done?
    requires ConvertError(host, h, op, e, b).Done?
    ensures ProviderFailure(host, h, e, provider, model, b) == Done((h, e))
    ensures var (h3, r) := ConvertError(host, h, op, e, b).value;
      var f := FactsOf(host, h, e, None, b).value;
      r.At? && r.id < |h3| && h3[r.id].Lib? &&
      var now := h3[r.id].failure;
      && Survives(ClassifiedBy(h, e, b).value.value.kind, f, provider, model, now)
      && now.status == f.status && now.code == f.code
  {
    SameChainSameFacts(host, h, e, None, ClassifiedBy(h, e, b).value, b, b);
    LibraryDecidesItself(h, e, b);
  }

  /** An `*Error` with a kind is the first classified error of its own chain. */
  lemma LibraryDecidesItself(h: Heap, e: Ref, fuel: nat)
    ensures e.At? && e.id < |h| && h[e.id].Lib? && h[e.id].failure.kind.Some?
        ==> ClassifiedBy(h, e, fuel) == Done(Some(Verdict(h[e.id].failure.kind.value, FromLibrary, e.id)))
  {
    if e.At? { assert Walk(GraphOf(h), e, MAX_CHAIN_NODES)[0] == e.id; }
  }

  /** A provider's failure survives the way to a caller: for every failure whose chain holds no trust-guard
      sentinel, which a search to its end has to say, however long it is, what providerFailure makes of it
      converts to an `*Error` of the kind the outermost classified error decides (or the classifier's, or
      ErrUnavailable), with its id and its wait, on the route its chain states. Its status and its code survive
      exactly when the failure is returned as it is or they are stated among the first 256 errors of the chain
      less the one or two the relay puts in front. */
  lemma ProviderFailureSurvives(host: Host, h: Heap, e: Ref, provider: string, model: string, op: string, b: nat)
      returns (now: Failure)
    requires Sound(h) && Live(h, e) && e.At? && IsTrustGuard(h, e, b) == Done(false)
    ensures FailureKind(host, h, e, b).Done? && FactsOf(host, h, e, None, b).Done?
    ensures Survives(FailureKind(host, h, e, b).value, FactsOf(host, h, e, None, b).value, provider, model, now)
    ensures ProviderFailure(host, h, e, provider, model, b).Done?
    ensures var (h2, r) := ProviderFailure(host, h, e, provider, model, b).value;
      var f := FactsOf(host, h, e, None, b).value;
      var all := Within(h, e, MAX_CHAIN_NODES, host.letter);
      var seen := Within(h, e, MAX_CHAIN_NODES - Wrapping(host, h, e, b), host.letter);
      && ReachesCaller(host, h2, op, r, now)
      && (now.status == f.status <==> r == e || seen.status == all.status)
      && (now.code == f.code <==> r == e || seen.code == all.code)
  {
    SeekIsFirstGoal(GraphOf(h), Sentinels(h, TRUST_BOUNDARY_VIOLATED), [e], b);
    FiniteFails(host, h, e, provider, model, b);
    ClassifiedByReturns(h, e, b);
    ClassifyReturns(host, h, e, b);
    FactsOfReturns(host, h, e, None, b);
    StatusIsWalked(host, h, e, b);
    var d := ClassifiedBy(h, e, b).value;
    if d.Some? && d.value.source != FromLibrary {
      now := PassedThroughSurvives(host, h, e, provider, model, op, b);
    } else {
      now := RelayedSurvives(host, h, e, provider, model, op, b);
    }
  }

  lemma PassedThroughSurvives(host: Host, h: Heap, e: Ref, provider: string, model: string, op: string, b: nat)
      returns (now: Failure)
    requires Finite(h, e, b) && e.At? && IsTrustGuard(h, e, b) == Done(false)
    requires ClassifiedBy(h, e, b).Done? && FactsOf(host, h, e, None, b).Done?
    requires var d := ClassifiedBy(h, e, b).value; d.Some? && d.value.source != FromLibrary
    ensures ProviderFailure(host, h, e, provider, model, b) == Done((h, e)) && ReachesCaller(host, h, op, e, now)
    ensures var f := FactsOf(host, h, e, None, b).value;
      Survives(ClassifiedBy(h, e, b).value.value.kind, f, provider, model, now) && now.status == f.status
        && now.code == f.code
  {
    FiniteConverts(host, h, op, e, ErrInternal, b);
    PassedThroughRoundTrip(host, h, e, provider, model, op, b);
    var (h3, n) := ConvertError(host, h, op, e, b).value;
    now := h3[n.id].failure;
    assert ConvertsTo(host, h, op, e, ErrInternal, now, b);
  }

  lemma RelayedSurvives(host: Host, h: Heap, e: Ref, provider: string, model: string, op: string, b: nat)
      returns (now: Failure)
    requires Sound(h) && Live(h, e) && e.At? && Finite(h, e, b) && IsTrustGuard(h, e, b) == Done(false)
    requires ClassifiedBy(h, e, b).Done? && ProviderFailure(host, h, e, provider, model, b).Done?
    requires var d := ClassifiedBy(h, e, b).value; d.None? || d.value.source == FromLibrary
    ensures FailureKind(host, h, e, b).Done? && FactsOf(host, h, e, None, b).Done?
    ensures var (h2, r) := ProviderFailure(host, h, e, provider, model, b).value;
      var f := FactsOf(host, h, e, None, b).value;
      var seen := Within(h, e, MAX_CHAIN_NODES - Wrapping(host, h, e, b), host.letter);
      && ReachesCaller(host, h2, op, r, now) && r != e
      && Survives(FailureKind(host, h, e, b).value, f, provider, model, now)
      && now.status == seen.status && now.code == seen.code
  {
    RelayMade(host, h, e, provider, model, b);
    now := RelayedRoundTrip(host, h, e, provider, model, op, b);
    var (h2, r) := ProviderFailure(host, h, e, provider, model, b).value;
    assert ConvertsTo(host, h2, op, r, ErrInternal, now, b + 4);
  }

  /** Of a chain that never ends and holds no guard sentinel, the relay, where one is made, is never converted:
      whether the sentinel is there is asked without a bound. */
  lemma EndlessNeverReaches(host: Host, h: Heap, e: Ref, h2: Heap, o: nat, op: string, unknown: Kind, fuel: nat)
    requires Sound(h) && Live(h, e) && Relays(h, e, h2, o) && KindFromInternal(h2[o].ikind, h2[o].narrow).Some?
    requires forall b: nat :: Is(h, e, TRUST_BOUNDARY_VIOLATED, b).Hung?
    ensures ConvertWith(host, h2, op, At(o), unknown, fuel).Hung?
  {
    assert Walk(GraphOf(h2), At(o), MAX_CHAIN_NODES)[0] == o;
    assert h2[..|h|] == h;
    forall b: nat ensures Seek(GraphOf(h), Sentinels(h, TRUST_BOUNDARY_VIOLATED), [e], b).Running? {
      assert Is(h, e, TRUST_BOUNDARY_VIOLATED, b).Hung?;
    }
    RelayStillRuns(h, e, h2, o, Sentinels(h, TRUST_BOUNDARY_VIOLATED), Sentinels(h2, TRUST_BOUNDARY_VIOLATED), fuel);
  }

  lemma RelayStillRuns(h: Heap, e: Ref, h2: Heap, o: nat, goals: set<nat>, goals2: set<nat>, fuel: nat)
    requires Sound(h) && Live(h, e) && Relays(h, e, h2, o) && Sought(h, h2, goals, goals2)
    requires forall b: nat :: Seek(GraphOf(h), goals, [e], b).Running?
    ensures Seek(GraphOf(h2), goals2, [At(o)], fuel).Running?
  {
    if fuel > 0 {
      var g2 := GraphOf(h2);
      GraphsGrow(h, h2[|h|..]);
      assert h2 == h + h2[|h|..];
      assert KidsOf(g2, o) + [At(o)][1..] == [h2[o].err];
      NewNodesUnsought(GraphOf(h), GraphOf(h2[|h|..]), goals, goals2, [e], fuel - 1);
      if h2[o].err != e && fuel > 1 {
        var n := |h|;
        assert KidsOf(g2, n + 2) + [At(n + 2)][1..] == [e] + [At(n + 1)];
        NewNodesUnsought(GraphOf(h), GraphOf(h2[n..]), goals, goals2, [e], fuel - 2);
        SeekOfConcat(g2, goals2, [e], [At(n + 1)], fuel - 2);
      }
    }
  }

  // ---------------------------------------------------------------- at the bound

  /** A chain of an error that states a wait, or none, then errors that say nothing, and at last one that
      states a status. */
  function Line(n: nat, status: int, wait: int): Heap
    requires n > 0
  {
    seq(n + 1, i requires 0 <= i <= n =>
      if i == 0 then Lib(Failure(None, "", "", "", "", 0, "", wait, ""), At(1))
      else if i < n then Foreign([At(i + 1)])
      else Api("", "", status, ""))
  }

  lemma LineAt(h: Heap, n: nat, status: int, wait: int, i: nat)
    requires n > 0 && h == Line(n, status, wait) && i <= n
    ensures h[i] == if i == 0 then Lib(Failure(None, "", "", "", "", 0, "", wait, ""), At(1))
                    else if i < n then Foreign([At(i + 1)]) else Api("", "", status, "")
  {
  }

  lemma LineIsSound(h: Heap, n: nat, status: int, wait: int)
    requires n > 0 && h == Line(n, status, wait)
    ensures Sound(h)
  {
    forall id | 0 <= id < |h| ensures Held(GraphOf(h), GraphOf(h)[id]) { LineAt(h, n, status, wait, id); }
  }

  lemma {:induction false} LineIsFinite(h: Heap, n: nat, status: int, wait: int, i: nat)
    requires n > 0 && h == Line(n, status, wait) && i <= n
    ensures Finite(h, At(i), n - i + 1)
    decreases n - i
  {
    LineAt(h, n, status, wait, i);
    assert [At(i)][1..] == [];
    if i < n {
      LineIsFinite(h, n, status, wait, i + 1);
      assert KidsOf(GraphOf(h), i) + [] == [At(i + 1)];
    } else {
      assert KidsOf(GraphOf(h), i) + [] == [];
    }
  }

  /** The status is stated as far down as the walk goes. */
  lemma {:induction false} LineBelow(h: Heap, n: nat, status: int, wait: int, i: nat, b: nat, letter: char -> bool)
    requires n > 0 && h == Line(n, status, wait) && 0 < i <= n
    ensures Within(h, At(i), b, letter) == if i + b > n then NO_FACTS.(status := status) else NO_FACTS
    decreases n - i
  {
    LineAt(h, n, status, wait, i);
    if b > 0 && i < n {
      LineBelow(h, n, status, wait, i + 1, b - 1, letter);
      WalkOfOne(GraphOf(h), i, At(i + 1), b);
      ForeignStatesNothing(h, i, Walk(GraphOf(h), At(i + 1), b - 1), letter);
    } else if b > 0 {
      assert WalkAll(GraphOf(h), [], b - 1) == [];
      assert Walk(GraphOf(h), At(i), b) == [i];
      FactsOfOneMore(h, i, [], letter);
      assert [i] + [] == [i];
    }
  }

  lemma LineStates(h: Heap, n: nat, status: int, wait: int, b: nat, letter: char -> bool)
    requires n > 0 && h == Line(n, status, wait) && b > 0
    ensures Within(h, At(0), b, letter) == NO_FACTS.(status := if b > n then status else 0, retryAfter := wait)
  {
    LineAt(h, n, status, wait, 0);
    LineBelow(h, n, status, wait, 1, b - 1, letter);
    WalkOfOne(GraphOf(h), 0, At(1), b);
    var v := Walk(GraphOf(h), At(0), b);
    assert v[0] == 0 && v[1..] == Walk(GraphOf(h), At(1), b - 1);
  }

  /** Nothing that a search of such a chain is for is in it. */
  lemma LineHoldsNone(h: Heap, n: nat, status: int, wait: int)
    requires n > 0 && h == Line(n, status, wait)
    ensures Kinded(h) == Routed(h) == Limits(h) == {} && forall index :: Sentinels(h, index) == {}
  {
    assert forall i | 0 <= i < |h| :: h[i].Lib? || h[i].Foreign? || h[i].Api?;
  }

  lemma LineIsFound(h: Heap, n: nat, status: int, wait: int, goals: set<nat>)
    requires n > 0 && h == Line(n, status, wait) && goals == {}
    ensures Seek(GraphOf(h), goals, [At(0)], n + 1) == Absent
  {
    LineIsFinite(h, n, status, wait, 0);
    SeekOfFinite(GraphOf(h), goals, [At(0)], n + 1, n + 1);
    FoundIsGoal(GraphOf(h), goals, [At(0)], n + 1);
  }

  /** No error of such a chain decides a kind. */
  lemma NoVerdict(h: Heap, n: nat, status: int, wait: int, id: nat, b: nat)
    requires n > 0 && h == Line(n, status, wait) && id <= n
    ensures VerdictOf(h, id, b) in {Hung, Done(None)}
  {
    LineHoldsNone(h, n, status, wait);
    LineAt(h, n, status, wait, id);
  }

  lemma NothingClassifies(h: Heap, n: nat, status: int, wait: int, b: nat)
    requires n > 0 && h == Line(n, status, wait) && b == n + 1
    ensures ClassifiedBy(h, At(0), b) == Done(None)
  {
    LineIsFinite(h, n, status, wait, 0);
    ClassifiedByReturns(h, At(0), b);
    LineIsSound(h, n, status, wait);
    var v := Walk(GraphOf(h), At(0), MAX_CHAIN_NODES);
    WalkIsPreOrder(GraphOf(h), At(0), MAX_CHAIN_NODES);
    NewNodesUnseen(GraphOf(h), [], [At(0)], MAX_CHAIN_NODES);
    FirstVerdictIsFirst(h, v, b);
    forall id: nat | id < |h| ensures VerdictOf(h, id, b) in {Hung,
      Done(None)} { NoVerdict(h, n, status, wait, id, b); }
  }

  lemma LineHasNoGuard(h: Heap, n: nat, status: int, wait: int)
    requires n > 0 && h == Line(n, status, wait)
    ensures IsTrustGuard(h, At(0), n + 1) == Done(false)
  {
    LineHoldsNone(h, n, status, wait);
    LineIsFound(h, n, status, wait, Sentinels(h, TRUST_BOUNDARY_VIOLATED));
    LineIsFound(h, n, status, wait, Sentinels(h, UNTRUSTED_IN_SYSTEM_PROMPT));
  }

  lemma LineFacts(host: Host, h: Heap, n: nat, status: int, wait: int)
    requires n > 0 && h == Line(n, status, wait) && wait >= 0
    ensures FactsOf(host, h, At(0), None, n + 1)
      == Done(NO_FACTS.(status := if n < MAX_CHAIN_NODES then status else 0, retryAfter := wait))
    ensures Wrapping(host, h, At(0), n + 1) == if wait > 0 then 2 else 1
  {
    LineStates(h, n, status, wait, MAX_CHAIN_NODES, host.letter);
    LineHoldsNone(h, n, status, wait);
    LineIsFound(h, n, status, wait, Routed(h));
    LineIsFound(h, n, status, wait, Limits(h));
  }

  /** Such a chain is relayed, and the caller is told the status that a shorter walk comes to. */
  lemma LineTells(host: Host, h: Heap, n: nat, status: int, wait: int, provider: string, model: string, op: string)
      returns (now: Failure)
    requires n > 0 && h == Line(n, status, wait) && wait >= 0
    ensures ProviderFailure(host, h, At(0), provider, model, n + 1).Done?
    ensures var (h2, r) := ProviderFailure(host, h, At(0), provider, model, n + 1).value; ReachesCaller(host, h2, op,
      r, now)
    ensures now.status == Within(h, At(0), MAX_CHAIN_NODES - Wrapping(host, h, At(0), n + 1), host.letter).status
  {
    LineIsSound(h, n, status, wait);
    LineIsFinite(h, n, status, wait, 0);
    LineHasNoGuard(h, n, status, wait);
    NothingClassifies(h, n, status, wait, n + 1);
    FiniteFails(host, h, At(0), provider, model, n + 1);
    now := RelayedSurvives(host, h, At(0), provider, model, op, n + 1);
  }

  /** Where the bound is: of such a chain of n + 1 errors that is relayed, the status is told to the caller
      exactly when n is below 255, or below 254 when there is a wait. A chain of exactly 256 errors, all of
      which the walk of the chain itself sees, loses it, and one of 255 that states a wait does too. */
  lemma StatusIsToldIff(host: Host, n: nat, status: int, wait: int, provider: string, model: string, op: string)
      returns (now: Failure)
    requires n > 0 && status != 0 && wait >= 0
    ensures ProviderFailure(host, Line(n, status, wait), At(0), provider, model, n + 1).Done?
    ensures var (h2, r) := ProviderFailure(host, Line(n, status, wait), At(0), provider, model, n + 1).value;
      ReachesCaller(host, h2, op, r, now)
    ensures now.status == status <==> n < if wait > 0 then 254 else 255
    ensures FactsOf(host, Line(n, status, wait), At(0), None, n + 1).Done?
    ensures FactsOf(host, Line(n, status, wait), At(0), None, n + 1).value.status == status <==> n < 256
  {
    var h := Line(n, status, wait);
    now := LineTells(host, h, n, status, wait, provider, model, op);
    LineFacts(host, h, n, status, wait);
    LineStates(h, n, status, wait, MAX_CHAIN_NODES - Wrapping(host, h, At(0), n + 1), host.letter);
  }
}
