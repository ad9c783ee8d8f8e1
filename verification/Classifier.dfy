/** The internal classifier, which reads a failure nothing above it decided: the kind its chain carries, else
    a context that ended, an HTTP status, a network failure or one of the library's own phrases, in that order
    (v2/internal/llm/classify.go); and the mark of a chain (types.NarrowingOf). */
module Classifier {
  import opened Common
  import opened Kinds
  import opened ChainWalk
  import opened ErrorGraph

  /** The phrases of the library's own that the classifier knows. */
  datatype Phrase = NoProvider | NoDefaultModel | NoModelMapping | DeadlineExceeded | ContextCanceled | CostBudget

  /** What is taken from code this model does not hold: which characters are letters or digits, the text of
      an error and which phrases a text holds in lower case, and the rewriting of a message into the words of
      version 2. */
  datatype Host = Host(
    letter: char -> bool,
    text: (Heap, nat) -> string,
    says: (string, Phrase) -> bool,
    noModelMessage: string -> string,
    inVersion2Words: string -> string)

  function Canceled(h: Heap): set<nat> { set i | 0 <= i < |h| && h[i] == ContextOver(false) }

  function Deadlines(h: Heap): set<nat> { set i | 0 <= i < |h| && h[i] == ContextOver(true) }

  function Apis(h: Heap): set<nat> { set i | 0 <= i < |h| && h[i].Api? }

  function Nets(h: Heap): set<nat> { set i | 0 <= i < |h| && h[i].Network? }

  /** The errors whose own mark NarrowingOf reads. */
  function Marking(h: Heap): set<nat> {
    set i | 0 <= i < |h| && (h[i].Operation? || (h[i].Classified? && h[i].narrow != NarrowNone))
  }

  function KindForStatus(status: int): InternalKind {
    if status == 401 then KindAuthentication
    else if status == 403 then KindPermission
    else if status == 429 then KindRateLimited
    else if status == 413 then KindContextTooLarge
    else if status in {408, 504} then KindTimeout
    else if status in {500, 502, 503, 409} then KindProviderUnavailable
    else if status in {400, 422, 404} then KindInvalidRequest
    else if status >= 500 then KindProviderUnavailable
    else if status >= 400 then KindInvalidRequest
    else KindUnknown
  }

  function KindFromText(host: Host, text: string): InternalKind {
    if host.says(text, NoProvider) || host.says(text, NoDefaultModel) || host.says(text, NoModelMapping)
      then KindConfiguration
    else if host.says(text, DeadlineExceeded) then KindTimeout
    else if host.says(text, ContextCanceled) then KindCanceled
    else if host.says(text, CostBudget) then KindBudgetExceeded
    else KindUnknown
  }

  /** The kind of a rate-limit error is its status's, and a rate limit where that is not recorded. */
  function LimitKind(h: Heap, id: nat): InternalKind {
    if id < |h| && h[id].RateLimit? && h[id].err.At? && h[id].err.id < |h| && h[h[id].err.id].Api?
       && KindForStatus(h[h[id].err.id].status) != KindUnknown
    then KindForStatus(h[h[id].err.id].status) else KindRateLimited
  }

  /** What the classifier says of a chain that carries no kind. */
  function KindUnderneath(host: Host, h: Heap, e: Ref, fuel: nat): Run<InternalKind> {
    var g := GraphOf(h);
    match Seek(g, Canceled(h), [e], fuel)
    case Running => Hung
    case Found(_) => Done(KindCanceled)
    case Absent =>
      match Seek(g, Deadlines(h), [e], fuel)
      case Running => Hung
      case Found(_) => Done(KindTimeout)
      case Absent => KindOfTransport(host, h, e, fuel)
  }

  function KindOfTransport(host: Host, h: Heap, e: Ref, fuel: nat): Run<InternalKind> {
    var g := GraphOf(h);
    match Seek(g, Limits(h), [e], fuel)
    case Running => Hung
    case Found(id) => Done(LimitKind(h, id))
    case Absent =>
      match Seek(g, Apis(h), [e], fuel)
      case Running => Hung
      case Found(id) => Done(if id < |h| && h[id].Api? then KindForStatus(h[id].status) else KindUnknown)
      case Absent =>
        match Seek(g, Nets(h), [e], fuel)
        case Running => Hung
        case Found(id) => Done(if id < |h| && h[id].Network? && h[id].timeout then KindTimeout
          else KindProviderUnavailable)
        case Absent => Done(if e.At? then KindFromText(host, host.text(h, e.id)) else KindUnknown)
  }

  /** llm.Classify. */
  function Classify(host: Host, h: Heap, e: Ref, fuel: nat): Run<InternalKind> {
    match KindOf(h, e, fuel)
    case Hung => Hung
    case Done(kind) => if kind != KindUnknown then Done(kind) else KindUnderneath(host, h, e, fuel)
  }

  /** types.NarrowingOf. */
  function NarrowingOf(h: Heap, e: Ref, fuel: nat): Run<Narrowing> {
    match Seek(GraphOf(h), Marking(h), [e], fuel)
    case Running => Hung
    case Absent => Done(NarrowNone)
    case Found(id) => Done(if id < |h| && (h[id].Operation? || h[id].Classified?) then h[id].narrow else NarrowNone)
  }

  // ---------------------------------------------------------------- heaps that grow

  /** The text of an error is that of what it is made of, and a mark's is that of the error it marks. */
  ghost predicate Speaks(host: Host) {
    && (forall h: Heap, more: Heap, id: nat | Sound(h) && id < |h| :: host.text(h + more, id) == host.text(h, id))
    && (forall h: Heap, id: nat | id < |h| && h[id].Mark? && h[id].err.At? ::
          host.text(h, id) == host.text(h, h[id].err.id))
  }

  /** A search of an old chain in a heap that has grown is the search before, for goals that did not grow
      among the old errors. */
  lemma OldSearch(h: Heap, more: Heap, goals: set<nat>, goals': set<nat>, e: Ref, fuel: nat)
    requires Sound(h) && Live(h, e)
    requires forall id | 0 <= id < |h| :: id in goals <==> id in goals'
    ensures Seek(GraphOf(h + more), goals', [e], fuel) == Seek(GraphOf(h), goals, [e], fuel)
    ensures Seek(GraphOf(h), goals, [e], fuel).Found? ==> Seek(GraphOf(h), goals, [e], fuel).id < |h|
  {
    GraphsGrow(h, more);
    NewNodesUnsought(GraphOf(h), GraphOf(more), goals, goals', [e], fuel);
    FoundIsHeld(GraphOf(h), goals, [e], fuel);
  }

  lemma OldLimit(h: Heap, more: Heap, id: nat)
    requires Sound(h) && id < |h|
    ensures LimitKind(h + more, id) == LimitKind(h, id)
  {
    assert Held(GraphOf(h), GraphOf(h)[id]);
    if h[id].RateLimit? { assert GraphOf(h)[id][0] == h[id].err; }
  }

  lemma OldTransport(host: Host, h: Heap, more: Heap, e: Ref, fuel: nat)
    requires Speaks(host) && Sound(h) && Live(h, e)
    ensures KindOfTransport(host, h + more, e, fuel) == KindOfTransport(host, h, e, fuel)
  {
    OldSearch(h, more, Limits(h), Limits(h + more), e, fuel);
    OldSearch(h, more, Apis(h), Apis(h + more), e, fuel);
    OldSearch(h, more, Nets(h), Nets(h + more), e, fuel);
    var s := Seek(GraphOf(h), Limits(h), [e], fuel);
    if s.Found? { OldLimit(h, more, s.id); }
  }

  lemma OldUnderneath(host: Host, h: Heap, more: Heap, e: Ref, fuel: nat)
    requires Speaks(host) && Sound(h) && Live(h, e)
    ensures KindUnderneath(host, h + more, e, fuel) == KindUnderneath(host, h, e, fuel)
  {
    OldSearch(h, more, Canceled(h), Canceled(h + more), e, fuel);
    OldSearch(h, more, Deadlines(h), Deadlines(h + more), e, fuel);
    OldTransport(host, h, more, e, fuel);
  }

  lemma KindGraphClosed(h: Heap)
    requires Sound(h)
    ensures Closed(KindGraphOf(h))
  {
    forall id | 0 <= id < |h| ensures Held(KindGraphOf(h), KindGraphOf(h)[id]) {
      assert Held(GraphOf(h), GraphOf(h)[id]);
    }
  }

  lemma OldKind(h: Heap, more: Heap, e: Ref, fuel: nat)
    requires Sound(h) && Live(h, e)
    ensures KindOf(h + more, e, fuel) == KindOf(h, e, fuel)
  {
    GraphsGrow(h, more);
    KindGraphClosed(h);
    NewNodesUnsought(KindGraphOf(h), KindGraphOf(more), Kinded(h), Kinded(h + more), [e], fuel);
    FoundIsHeld(KindGraphOf(h), Kinded(h), [e], fuel);
  }

  /** What is made after a chain does not change what is read of it. */
  lemma OldClassify(host: Host, h: Heap, more: Heap, e: Ref, fuel: nat)
    requires Speaks(host) && Sound(h) && Live(h, e)
    ensures Classify(host, h + more, e, fuel) == Classify(host, h, e, fuel)
  {
    OldKind(h, more, e, fuel);
    OldUnderneath(host, h, more, e, fuel);
  }
}
