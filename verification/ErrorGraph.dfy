/** The errors of a heap, and what the packages beneath the converter read from a chain of them
    (v2/internal/types/errorkind.go). */
module ErrorGraph {
  import opened Common
  import opened Kinds
  import opened ChainWalk

  /** The route an error made by `types.ClassifiedCall` has. */
  datatype Route = Route(provider: string, model: string, requestID: string, retryAfter: int)

  /** The fields of an `*Error` but its cause; a kind that is not one of the eighteen is None. */
  datatype Failure = Failure(kind: Option<Kind>, op: string, provider: string, model: string, requestID: string,
                             status: int, code: string, retryAfter: int, message: string)

  datatype Node =
      /** `*Error`, around its cause. */
    | Lib(failure: Failure, err: Ref)
      /** A `Kind` used as an error. */
    | Bare(kind: Option<Kind>)
      /** `*types.OperationError`. */
    | Operation(ikind: InternalKind, narrow: Narrowing, op: string, provider: string, model: string,
                requestID: string, retryAfter: int, message: string, err: Ref)
      /** An error made by `types.Classified`, `ClassifiedRefusal` or `ClassifiedCall`. */
    | Classified(ikind: InternalKind, narrow: Narrowing, route: Option<Route>, err: Ref)
      /** `*types.ReviewRequiredError`. */
    | Review
      /** `*llm.RateLimitError`, and the `*llm.APIError` inside it. */
    | RateLimit(retryAfter: int, err: Ref)
    | Api(provider: string, model: string, status: int, code: string)
      /** A kind's own sentinel, and the entry of `plainSentinels` with an index. */
    | KindSentinel(ikind: InternalKind)
    | Sentinel(index: nat)
      /** context.Canceled, and context.DeadlineExceeded. */
    | ContextOver(deadline: bool)
      /** A net.Error, and whether it says it timed out. */
    | Network(timeout: bool, err: Ref)
      /** The mark a combinator puts on an error of the caller's, with what its Unwrap gives: callerError of
          the flow package, or flowCallerError of the root. */
    | Mark(root: bool, err: Ref, kids: seq<Ref>)
      /** Any other error, with what its Unwrap gives: nothing, one error or several. */
    | Foreign(kids: seq<Ref>)

  type Heap = seq<Node>

  function Unwrap(n: Node): seq<Ref> {
    match n
    case Lib(_, err) => [err]
    case Operation(_, _, _, _, _, _, _, _, err) => [err]
    case Classified(_, _, _, err) => [err]
    case RateLimit(_, err) => [err]
    case Network(_, err) => [err]
    case Mark(_, _, kids) => kids
    case Foreign(kids) => kids
    case _ => []
  }

  function GraphOf(h: Heap): (g: Graph)
    ensures |g| == |h|
  {
    seq(|h|, i requires 0 <= i < |h| => Unwrap(h[i]))
  }

  /** The chain as types.KindOf descends it: an error that has a kind of its own, or is an
      OperationError without one, is not looked beneath. */
  function KindGraphOf(h: Heap): (g: Graph)
    ensures |g| == |h|
  {
    seq(|h|, i requires 0 <= i < |h| => if h[i].Operation? || h[i].Classified? then [] else Unwrap(h[i]))
  }

  /** The kind an error has itself, KindUnknown for one that has none. */
  function OwnKind(n: Node): InternalKind {
    match n
    case Operation(kind, _, _, _, _, _, _, _, _) => kind
    case Classified(kind, _, _, _) => kind
    case Review => KindReviewRequired
    case KindSentinel(kind) => kind
    case _ => KindUnknown
  }

  function Kinded(h: Heap): set<nat> { set i | 0 <= i < |h| && OwnKind(h[i]) != KindUnknown }

  function Routed(h: Heap): set<nat> { set i | 0 <= i < |h| && h[i].Classified? && h[i].route.Some? }

  function Sentinels(h: Heap, index: nat): set<nat> { set i | 0 <= i < |h| && h[i] == Sentinel(index) }

  function Limits(h: Heap): set<nat> { set i | 0 <= i < |h| && h[i].RateLimit? }

  /** types.KindOf. */
  function KindOf(h: Heap, e: Ref, fuel: nat): Run<InternalKind> {
    match Seek(KindGraphOf(h), Kinded(h), [e], fuel)
    case Found(id) => if id < |h| then Done(OwnKind(h[id])) else Done(KindUnknown)
    case Absent => Done(KindUnknown)
    case Running => Hung
  }

  /** types.CallOf. */
  function CallOf(h: Heap, e: Ref, fuel: nat): Run<Option<Route>> {
    match Seek(GraphOf(h), Routed(h), [e], fuel)
    case Found(id) => if id in Routed(h) then Done(h[id].route) else Done(None)
    case Absent => Done(None)
    case Running => Hung
  }

  /** errors.Is for an entry of plainSentinels. */
  function Is(h: Heap, e: Ref, index: nat, fuel: nat): Run<bool> {
    match Seek(GraphOf(h), Sentinels(h, index), [e], fuel)
    case Found(_) => Done(true)
    case Absent => Done(false)
    case Running => Hung
  }

  /** errors.As for a rate-limit error, which is what llm.RetryAfterFrom asks. */
  function HoldsRateLimit(h: Heap, e: Ref, fuel: nat): Run<bool> {
    match Seek(GraphOf(h), Limits(h), [e], fuel)
    case Found(_) => Done(true)
    case Absent => Done(false)
    case Running => Hung
  }

  /** Every reference of the heap is to an error of it. */
  predicate Sound(h: Heap) {
    Closed(GraphOf(h))
  }

  predicate Live(h: Heap, e: Ref) {
    e.At? ==> e.id < |h|
  }

  /** A chain that is not cyclic and has at most `b` errors, a shared one counted each time it
      is reached. */
  predicate Finite(h: Heap, e: Ref, b: nat) {
    Finishes(GraphOf(h), [e], b)
  }

  // ---------------------------------------------------------------- facts

  /** What a chain says about where and how a failure happened. */
  datatype Facts = Facts(provider: string, model: string, requestID: string, status: int, code: string,
                         retryAfter: int, message: string)

  const NO_FACTS := Facts("", "", "", 0, "", 0, "")

  function OrInt(a: int, b: int): int { if a == 0 then b else a }

  /** The facts of `f`, with what `f` leaves empty taken from `g`. */
  function Fill(f: Facts, g: Facts): Facts {
    Facts(Or(f.provider, g.provider), Or(f.model, g.model), Or(f.requestID, g.requestID),
          OrInt(f.status, g.status), Or(f.code, g.code), OrInt(f.retryAfter, g.retryAfter),
          Or(f.message, g.message))
  }

  /** The provider's fixed word, or nothing for text of any other shape. */
  function FixedWord(code: string, letter: char -> bool): string {
    if |code| <= 64 && (forall i | 0 <= i < |code| :: letter(code[i]) || code[i] in "_-.:") then code else ""
  }

  /** What one error of a chain states itself. */
  function Stated(n: Node, letter: char -> bool): Facts {
    match n
    case Lib(e, _) =>
      Facts(e.provider, e.model, e.requestID, e.status, FixedWord(e.code, letter), e.retryAfter, e.message)
    case Operation(_, _, _, provider, model, requestID, retryAfter, message, _) =>
      Facts(provider, model, requestID, 0, "", retryAfter, message)
    case RateLimit(retryAfter, _) => NO_FACTS.(retryAfter := retryAfter)
    case Api(provider, model, status, code) => Facts(provider, model, "", status, FixedWord(code, letter), 0, "")
    case _ => NO_FACTS
  }

  function StatedAt(h: Heap, id: nat, letter: char -> bool): Facts {
    if id < |h| then Stated(h[id], letter) else NO_FACTS
  }

  /** Each fact from the first error of `v` that states it. */
  function FactsOver(h: Heap, v: seq<nat>, letter: char -> bool): Facts {
    if v == [] then NO_FACTS else Fill(StatedAt(h, v[0], letter), FactsOver(h, v[1..], letter))
  }

  lemma {:induction false} FactsOverConcat(h: Heap, a: seq<nat>, b: seq<nat>, letter: char -> bool)
    ensures FactsOver(h, a + b, letter) == Fill(FactsOver(h, a, letter), FactsOver(h, b, letter))
  {
    if a == [] {
      assert a + b == b;
    } else {
      assert (a + b)[1..] == a[1..] + b;
      FactsOverConcat(h, a[1..], b, letter);
    }
  }

  /** The loop of factsOf over the errors a walk visits. */
  method GatherFacts(h: Heap, e: Ref, letter: char -> bool) returns (f: Facts)
    ensures f == FactsOver(h, Walk(GraphOf(h), e, MAX_CHAIN_NODES), letter)
  {
    var seen := WalkChain(GraphOf(h), e, {});
    ghost var v := Walk(GraphOf(h), e, MAX_CHAIN_NODES);
    NothingStops(v);
    WalkIsPreOrder(GraphOf(h), e, MAX_CHAIN_NODES);
    f := NO_FACTS;
    for i := 0 to |seen|
      invariant FactsOver(h, v, letter) == Fill(f, FactsOver(h, seen[i..], letter))
    {
      assert seen[i..][1..] == seen[i + 1..];
      f := Fill(f, StatedAt(h, seen[i], letter));
    }
  }

  lemma {:induction false} NothingStops(v: seq<nat>)
    ensures Cut(v, {}) == v
  {
    if v != [] { NothingStops(v[1..]); }
  }

  // ---------------------------------------------------------------- heaps that grow

  lemma GraphsGrow(h: Heap, more: Heap)
    ensures GraphOf(h + more) == GraphOf(h) + GraphOf(more)
    ensures KindGraphOf(h + more) == KindGraphOf(h) + KindGraphOf(more)
  {
  }

  /** A heap is sound with one more error that wraps errors of it. */
  lemma SoundWith(h: Heap, n: Node)
    requires Sound(h) && Held(GraphOf(h + [n]), Unwrap(n))
    ensures Sound(h + [n])
  {
    var g := GraphOf(h + [n]);
    forall id | 0 <= id < |g| ensures Held(g, g[id]) {
      if id < |h| { assert g[id] == GraphOf(h)[id] && Held(GraphOf(h), GraphOf(h)[id]); }
    }
  }

  /** An error that has been made says nothing of the chains that were there before it. */
  lemma {:induction false} FactsUnchanged(h: Heap, more: Heap, v: seq<nat>, letter: char -> bool)
    requires forall i | 0 <= i < |v| :: v[i] < |h|
    ensures FactsOver(h + more, v, letter) == FactsOver(h, v, letter)
  {
    if v != [] { FactsUnchanged(h, more, v[1..], letter); }
  }
}
