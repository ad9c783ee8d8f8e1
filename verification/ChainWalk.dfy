/** The walk of an error chain (walkChain, v2/errors_convert.go), over the shape of the chain
    alone: which errors each error wraps. Errors may share what they wrap and may wrap themselves. */
module ChainWalk {
  import opened Common

  /** An `error` value: nil, or a pointer to the error at an index. Two errors are the identical
      value exactly when their references are equal. */
  datatype Ref = Nil | At(id: nat)

  /** What Unwrap gives for each error, in order. */
  type Graph = seq<seq<Ref>>

  predicate Held(g: Graph, es: seq<Ref>) {
    forall i | 0 <= i < |es| :: es[i].At? ==> es[i].id < |g|
  }

  /** No reference of the graph dangles. */
  predicate Closed(g: Graph) {
    forall id | 0 <= id < |g| :: Held(g, g[id])
  }

  /** What an error wraps; a reference outside the graph wraps nothing. */
  function KidsOf(g: Graph, id: nat): seq<Ref> {
    if id < |g| then g[id] else []
  }

  // ---------------------------------------------------------------- the bounded walk

  /** The errors walkChainNode visits below `e` with `b` left, when no visit refuses. */
  function Walk(g: Graph, e: Ref, b: nat): (v: seq<nat>)
    ensures |v| <= b
    decreases b, 0, 0
  {
    if e.Nil? || b == 0 then [] else [e.id] + WalkAll(g, KidsOf(g, e.id), b - 1)
  }

  /** The loop over what an error wraps: the errors share what is left of the budget. */
  function WalkAll(g: Graph, es: seq<Ref>, b: nat): (v: seq<nat>)
    ensures |v| <= b
    decreases b, 1, |es|
  {
    if es == [] then []
    else
      var first := Walk(g, es[0], b);
      first + WalkAll(g, es[1..], b - |first|)
  }

  /** The reference the walk is held to: the pre-order sequence of the (possibly infinite)
      unfolding of the graph, by an explicit stack, cut at `b` errors. */
  function PreOrder(g: Graph, stack: seq<Ref>, b: nat): (v: seq<nat>)
    ensures |v| <= b
    decreases b, |stack|
  {
    if stack == [] then []
    else if stack[0].Nil? then PreOrder(g, stack[1..], b)
    else if b == 0 then []
    else [stack[0].id] + PreOrder(g, KidsOf(g, stack[0].id) + stack[1..], b - 1)
  }

  /** The unfolding of the stack is finite and has at most `b` errors. */
  predicate Finishes(g: Graph, stack: seq<Ref>, b: nat)
    decreases b, |stack|
  {
    if stack == [] then true
    else if stack[0].Nil? then Finishes(g, stack[1..], b)
    else b > 0 && Finishes(g, KidsOf(g, stack[0].id) + stack[1..], b - 1)
  }

  /** What is below the top of the stack is walked with what the top leaves of the budget. */
  lemma {:induction false} PreOrderOfConcat(g: Graph, top: seq<Ref>, rest: seq<Ref>, b: nat)
    ensures PreOrder(g, top + rest, b) == PreOrder(g, top, b) + PreOrder(g, rest, b - |PreOrder(g, top, b)|)
    decreases b, |top|
  {
    if top == [] {
      assert top + rest == rest;
    } else {
      assert (top + rest)[1..] == top[1..] + rest;
      if top[0].Nil? {
        PreOrderOfConcat(g, top[1..], rest, b);
      } else if b == 0 {
        NoBudgetNoVisit(g, rest);
      } else {
        var kids := KidsOf(g, top[0].id);
        assert kids + (top[1..] + rest) == (kids + top[1..]) + rest;
        PreOrderOfConcat(g, kids + top[1..], rest, b - 1);
      }
    }
  }

  lemma {:induction false} NoBudgetNoVisit(g: Graph, stack: seq<Ref>)
    ensures PreOrder(g, stack, 0) == []
  {
  }

  /** The recursive walk with its shared budget visits the pre-order sequence. */
  lemma {:induction false} WalkAllIsPreOrder(g: Graph, es: seq<Ref>, b: nat)
    ensures WalkAll(g, es, b) == PreOrder(g, es, b)
    decreases b, 1, |es|
  {
    if es != [] {
      var first := Walk(g, es[0], b);
      WalkIsPreOrder(g, es[0], b);
      WalkAllIsPreOrder(g, es[1..], b - |first|);
      PreOrderOfConcat(g, [es[0]], es[1..], b);
      assert [es[0]] + es[1..] == es;
    }
  }

  lemma {:induction false} WalkIsPreOrder(g: Graph, e: Ref, b: nat)
    ensures Walk(g, e, b) == PreOrder(g, [e], b)
    decreases b, 0, 0
  {
    if e.At? && b > 0 {
      var kids := KidsOf(g, e.id);
      WalkAllIsPreOrder(g, kids, b - 1);
      assert kids + [e][1..] == kids;
    }
  }

  /** A walk with a smaller budget sees a prefix of what one with a larger budget sees. */
  lemma {:induction false} SmallerBudgetSeesPrefix(g: Graph, stack: seq<Ref>, b: nat, more: nat)
    requires b <= more
    ensures PreOrder(g, stack, b) <= PreOrder(g, stack, more)
    decreases b, |stack|
  {
    if stack != [] {
      if stack[0].Nil? {
        SmallerBudgetSeesPrefix(g, stack[1..], b, more);
      } else if b > 0 {
        SmallerBudgetSeesPrefix(g, KidsOf(g, stack[0].id) + stack[1..], b - 1, more - 1);
      }
    }
  }

  /** A walk the budget does not cut sees the same as every larger one. */
  lemma {:induction false} FinishedSeesAll(g: Graph, stack: seq<Ref>, b: nat, more: nat)
    requires b <= more && Finishes(g, stack, b)
    ensures Finishes(g, stack, more) && PreOrder(g, stack, more) == PreOrder(g, stack, b)
    decreases b, |stack|
  {
    if stack != [] {
      if stack[0].Nil? {
        FinishedSeesAll(g, stack[1..], b, more);
      } else {
        FinishedSeesAll(g, KidsOf(g, stack[0].id) + stack[1..], b - 1, more - 1);
      }
    }
  }

  /** What follows on a stack that finishes, finishes. */
  lemma {:induction false} SuffixFinishes(g: Graph, es: seq<Ref>, rest: seq<Ref>, b: nat)
    requires Finishes(g, es + rest, b)
    ensures Finishes(g, rest, b)
    decreases b, |es|
  {
    if es == [] {
      assert es + rest == rest;
    } else {
      assert (es + rest)[1..] == es[1..] + rest;
      if es[0].Nil? {
        SuffixFinishes(g, es[1..], rest, b);
      } else {
        var kids := KidsOf(g, es[0].id);
        assert kids + (es + rest)[1..] == (kids + es[1..]) + rest;
        SuffixFinishes(g, kids + es[1..], rest, b - 1);
        FinishedSeesAll(g, rest, b - 1, b);
      }
    }
  }

  /** Errors made after a closed heap was walked are not seen by a walk from inside it. */
  lemma {:induction false} NewNodesUnseen(g: Graph, more: Graph, stack: seq<Ref>, b: nat)
    requires Closed(g) && Held(g, stack)
    ensures PreOrder(g + more, stack, b) == PreOrder(g, stack, b)
    ensures Finishes(g + more, stack, b) == Finishes(g, stack, b)
    ensures forall i | 0 <= i < |PreOrder(g, stack, b)| :: PreOrder(g, stack, b)[i] < |g|
    decreases b, |stack|
  {
    if stack != [] {
      if stack[0].Nil? {
        NewNodesUnseen(g, more, stack[1..], b);
      } else if b > 0 {
        var id := stack[0].id;
        assert KidsOf(g + more, id) == KidsOf(g, id);
        NewNodesUnseen(g, more, KidsOf(g, id) + stack[1..], b - 1);
      }
    }
  }

  // ---------------------------------------------------------------- the walk as it is written

  /** What a visit that stops at some errors sees of a sequence: everything up to and with the
      first error it stops at. */
  function Cut(v: seq<nat>, stops: set<nat>): (r: seq<nat>)
    ensures r <= v
  {
    if v == [] then [] else if v[0] in stops then [v[0]] else [v[0]] + Cut(v[1..], stops)
  }

  predicate NoneStops(v: seq<nat>, stops: set<nat>) {
    v == [] || (v[0] !in stops && NoneStops(v[1..], stops))
  }

  lemma {:induction false} CutOfConcat(a: seq<nat>, b: seq<nat>, stops: set<nat>)
    ensures NoneStops(a + b, stops) == (NoneStops(a, stops) && NoneStops(b, stops))
    ensures Cut(a + b, stops) == if NoneStops(a, stops) then a + Cut(b, stops) else Cut(a, stops)
    ensures NoneStops(a, stops) ==> Cut(a, stops) == a
  {
    if a == [] {
      assert a + b == b;
    } else {
      assert (a + b)[1..] == a[1..] + b;
      CutOfConcat(a[1..], b, stops);
    }
  }

  /** What one call of walkChainNode does: the errors visited, what is left of the budget, and
      whether to go on. */
  datatype Visit = Visit(seen: seq<nat>, left: nat, more: bool)

  function VisitNode(g: Graph, e: Ref, b: nat, stops: set<nat>): (r: Visit)
    ensures r.left <= b
    decreases b, 0, 0
  {
    if e.Nil? || b == 0 then Visit([], b, true)
    else if e.id in stops then Visit([e.id], b - 1, false)
    else
      var below := VisitAll(g, KidsOf(g, e.id), b - 1, stops);
      below.(seen := [e.id] + below.seen)
  }

  function VisitAll(g: Graph, es: seq<Ref>, b: nat, stops: set<nat>): (r: Visit)
    ensures r.left <= b
    decreases b, 1, |es|
  {
    if es == [] then Visit([], b, true)
    else
      var first := VisitNode(g, es[0], b, stops);
      if !first.more then first
      else
        var rest := VisitAll(g, es[1..], first.left, stops);
        rest.(seen := first.seen + rest.seen)
  }

  /** What a walk did, against the errors `v` a walk that is never stopped visits. */
  predicate IsCutOf(r: Visit, v: seq<nat>, b: nat, stops: set<nat>) {
    && r.seen == Cut(v, stops)
    && r.more == NoneStops(v, stops)
    && (r.more ==> r.left == b - |v|)
  }

  lemma {:induction false} VisitNodeIsCut(g: Graph, e: Ref, b: nat, stops: set<nat>)
    ensures IsCutOf(VisitNode(g, e, b, stops), Walk(g, e, b), b, stops)
    decreases b, 0, 0
  {
    if e.At? && b > 0 {
      VisitAllIsCut(g, KidsOf(g, e.id), b - 1, stops);
      assert Walk(g, e, b)[1..] == WalkAll(g, KidsOf(g, e.id), b - 1);
    }
  }

  lemma {:induction false} VisitAllIsCut(g: Graph, es: seq<Ref>, b: nat, stops: set<nat>)
    ensures IsCutOf(VisitAll(g, es, b, stops), WalkAll(g, es, b), b, stops)
    decreases b, 1, |es|
  {
    if es != [] {
      var first := Walk(g, es[0], b);
      var rest := WalkAll(g, es[1..], b - |first|);
      assert WalkAll(g, es, b) == first + rest;
      VisitNodeIsCut(g, es[0], b, stops);
      CutOfConcat(first, rest, stops);
      if VisitNode(g, es[0], b, stops).more {
        VisitAllIsCut(g, es[1..], b - |first|, stops);
        assert Cut(first + rest, stops) == first + Cut(rest, stops);
      }
    }
  }

  /** One walk of a chain: the budget its recursion counts down through a pointer, and the
      errors visit was called with. */
  class Walker {
    var budget: nat
    var seen: seq<nat>

    constructor (budget: nat)
      ensures this.budget == budget && seen == []
    {
      this.budget, seen := budget, [];
    }

    /** walkChainNode: visits `e` and what it wraps until a visit stops it or the budget ends,
        and reports whether to go on. */
    method Node(g: Graph, e: Ref, stops: set<nat>) returns (more: bool)
      modifies this
      ensures var r := VisitNode(g, e, old(budget), stops);
              more == r.more && seen == old(seen) + r.seen && budget == r.left
      decreases budget, 0
    {
      if e.Nil? || budget == 0 {
        return true;
      }
      budget := budget - 1;
      seen := seen + [e.id];
      if e.id in stops {
        return false;
      }
      more := Wrapped(g, KidsOf(g, e.id), stops);
    }

    /** The loop over what an error wraps. */
    method Wrapped(g: Graph, kids: seq<Ref>, stops: set<nat>) returns (more: bool)
      modifies this
      ensures var r := VisitAll(g, kids, old(budget), stops);
              more == r.more && seen == old(seen) + r.seen && budget == r.left
      decreases budget, 1
    {
      ghost var whole := VisitAll(g, kids, budget, stops);
      var i := 0;
      while i < |kids|
        invariant 0 <= i <= |kids| && budget <= old(budget)
        invariant var rest := VisitAll(g, kids[i..], budget, stops);
          whole.more == rest.more && whole.left == rest.left && old(seen) + whole.seen == seen + rest.seen
      {
        assert kids[i..][1..] == kids[i + 1..];
        var on := Node(g, kids[i], stops);
        if !on {
          return false;
        }
        i := i + 1;
      }
      more := true;
    }
  }

  const MAX_CHAIN_NODES: nat := 256

  /** walkChain: the errors visited are the pre-order sequence, cut at the first error the visit
      stops at or at 256 errors, whatever the graph. */
  method WalkChain(g: Graph, e: Ref, stops: set<nat>) returns (seen: seq<nat>)
    ensures seen == Cut(PreOrder(g, [e], MAX_CHAIN_NODES), stops)
  {
    var walk := new Walker(MAX_CHAIN_NODES);
    var more := walk.Node(g, e, stops);
    seen := walk.seen;
    VisitNodeIsCut(g, e, MAX_CHAIN_NODES, stops);
    WalkIsPreOrder(g, e, MAX_CHAIN_NODES);
  }

  // ---------------------------------------------------------------- the unbounded searches

  /** What a search of a chain that has no budget has come to after some steps. */
  datatype Search = Found(id: nat) | Absent | Running

  /** The search errors.Is, types.KindOf and types.CallOf make: pre-order, for the first error
      that is one of the goals, with `fuel` errors looked at. */
  function Seek(g: Graph, goals: set<nat>, stack: seq<Ref>, fuel: nat): Search
    decreases fuel, |stack|
  {
    if stack == [] then Absent
    else if stack[0].Nil? then Seek(g, goals, stack[1..], fuel)
    else if fuel == 0 then Running
    else if stack[0].id in goals then Found(stack[0].id)
    else Seek(g, goals, KidsOf(g, stack[0].id) + stack[1..], fuel - 1)
  }

  /** A search against the pre-order sequence: it finds the first goal in it, and is over without
      one exactly when the sequence is. */
  lemma {:induction false} SeekIsFirstGoal(g: Graph, goals: set<nat>, stack: seq<Ref>, fuel: nat)
    ensures var v := PreOrder(g, stack, fuel);
      match Seek(g, goals, stack, fuel)
      case Found(id) => !NoneStops(v, goals) && Cut(v, goals) != [] && Cut(v, goals)[|Cut(v, goals)| - 1] == id
      case Absent => NoneStops(v, goals) && Finishes(g, stack, fuel)
      case Running => NoneStops(v, goals) && !Finishes(g, stack, fuel)
    decreases fuel, |stack|
  {
    if stack != [] {
      if stack[0].Nil? {
        SeekIsFirstGoal(g, goals, stack[1..], fuel);
      } else if fuel > 0 && stack[0].id !in goals {
        SeekIsFirstGoal(g, goals, KidsOf(g, stack[0].id) + stack[1..], fuel - 1);
      }
    }
  }

  lemma {:induction false} SeekIsStable(g: Graph, goals: set<nat>, stack: seq<Ref>, fuel: nat, more: nat)
    requires fuel <= more && !Seek(g, goals, stack, fuel).Running?
    ensures Seek(g, goals, stack, more) == Seek(g, goals, stack, fuel)
    decreases fuel, |stack|
  {
    if stack != [] {
      if stack[0].Nil? {
        SeekIsStable(g, goals, stack[1..], fuel, more);
      } else if stack[0].id !in goals {
        SeekIsStable(g, goals, KidsOf(g, stack[0].id) + stack[1..], fuel - 1, more - 1);
      }
    }
  }

  lemma {:induction false} FoundIsGoal(g: Graph, goals: set<nat>, stack: seq<Ref>, fuel: nat)
    ensures Seek(g, goals, stack, fuel).Found? ==> Seek(g, goals, stack, fuel).id in goals
    decreases fuel, |stack|
  {
    if stack != [] {
      if stack[0].Nil? {
        FoundIsGoal(g, goals, stack[1..], fuel);
      } else if fuel > 0 && stack[0].id !in goals {
        FoundIsGoal(g, goals, KidsOf(g, stack[0].id) + stack[1..], fuel - 1);
      }
    }
  }

  lemma {:induction false} FoundIsHeld(g: Graph, goals: set<nat>, stack: seq<Ref>, fuel: nat)
    requires Closed(g) && Held(g, stack)
    ensures Seek(g, goals, stack, fuel).Found? ==> Seek(g, goals, stack, fuel).id < |g|
    decreases fuel, |stack|
  {
    if stack != [] {
      if stack[0].Nil? {
        FoundIsHeld(g, goals, stack[1..], fuel);
      } else if fuel > 0 && stack[0].id !in goals {
        FoundIsHeld(g, goals, KidsOf(g, stack[0].id) + stack[1..], fuel - 1);
      }
    }
  }

  /** Two searches of one chain for the same goals cannot end differently. */
  lemma SeekAgrees(g: Graph, goals: set<nat>, stack: seq<Ref>, fuel: nat, fuel': nat)
    requires !Seek(g, goals, stack, fuel).Running? && !Seek(g, goals, stack, fuel').Running?
    ensures Seek(g, goals, stack, fuel) == Seek(g, goals, stack, fuel')
  {
    if fuel <= fuel' {
      SeekIsStable(g, goals, stack, fuel, fuel');
    } else {
      SeekIsStable(g, goals, stack, fuel', fuel);
    }
  }

  /** A search from inside a closed graph does not see errors made after it. */
  lemma {:induction false} NewNodesUnsought(g: Graph, more: Graph, goals: set<nat>, goals': set<nat>,
                                            stack: seq<Ref>, fuel: nat)
    requires Closed(g) && Held(g, stack)
    requires forall id | 0 <= id < |g| :: id in goals <==> id in goals'
    ensures Seek(g + more, goals', stack, fuel) == Seek(g, goals, stack, fuel)
    decreases fuel, |stack|
  {
    if stack != [] {
      if stack[0].Nil? {
        NewNodesUnsought(g, more, goals, goals', stack[1..], fuel);
      } else if fuel > 0 && stack[0].id !in goals {
        var id := stack[0].id;
        assert KidsOf(g + more, id) == KidsOf(g, id);
        NewNodesUnsought(g, more, goals, goals', KidsOf(g, id) + stack[1..], fuel - 1);
      }
    }
  }

  /** A search looks at no more than `b` errors. */
  ghost predicate Returns(g: Graph, goals: set<nat>, stack: seq<Ref>, b: nat) {
    !Seek(g, goals, stack, b).Running?
  }

  /** The chain has no more than `b` errors, or a goal among the first `b` of them. */
  ghost predicate Bounded(g: Graph, goals: set<nat>, stack: seq<Ref>, b: nat) {
    Finishes(g, stack, b) || !NoneStops(PreOrder(g, stack, b), goals)
  }

  /** A search returns exactly when the chain is finite or holds a goal where it looks: on a chain
      that wraps itself and holds none, it never does. */
  lemma SeekReturnsIff(g: Graph, goals: set<nat>, stack: seq<Ref>)
    ensures (exists b: nat :: Returns(g, goals, stack, b)) <==> (exists b: nat :: Bounded(g, goals, stack, b))
  {
    forall b: nat
      ensures Returns(g, goals, stack, b) <==> Bounded(g, goals, stack, b)
    {
      SeekIsFirstGoal(g, goals, stack, b);
    }
  }

  // ---------------------------------------------------------------- finite chains

  /** What is on top of a stack that finishes, finishes by itself. */
  lemma {:induction false} TopFinishes(g: Graph, top: seq<Ref>, rest: seq<Ref>, b: nat)
    requires Finishes(g, top + rest, b)
    ensures Finishes(g, top, b)
    decreases b, |top|
  {
    if top != [] {
      assert (top + rest)[1..] == top[1..] + rest;
      if top[0].Nil? {
        TopFinishes(g, top[1..], rest, b);
      } else {
        var kids := KidsOf(g, top[0].id);
        assert kids + (top[1..] + rest) == (kids + top[1..]) + rest;
        TopFinishes(g, kids + top[1..], rest, b - 1);
      }
    }
  }

  /** Every error of a finite chain, and everything it wraps, is a finite chain. */
  lemma {:induction false} PartsFinish(g: Graph, stack: seq<Ref>, b: nat, k: nat)
    requires Finishes(g, stack, b) && k < |PreOrder(g, stack, b)|
    ensures Finishes(g, [At(PreOrder(g, stack, b)[k])], b)
    decreases b, |stack|
  {
    if stack[0].Nil? {
      PartsFinish(g, stack[1..], b, k);
    } else if k == 0 {
      TopFinishes(g, [stack[0]], stack[1..], b);
      assert [stack[0]] + stack[1..] == stack;
    } else {
      var below := KidsOf(g, stack[0].id) + stack[1..];
      PartsFinish(g, below, b - 1, k - 1);
      FinishedSeesAll(g, [At(PreOrder(g, below, b - 1)[k - 1])], b - 1, b);
    }
  }

  lemma KidsFinish(g: Graph, id: nat, b: nat, k: nat)
    requires Finishes(g, [At(id)], b) && k < |KidsOf(g, id)|
    ensures Finishes(g, [KidsOf(g, id)[k]], b)
  {
    var kids := KidsOf(g, id);
    assert kids + [At(id)][1..] == kids[..k] + ([kids[k]] + kids[k + 1..]);
    SuffixFinishes(g, kids[..k], [kids[k]] + kids[k + 1..], b - 1);
    TopFinishes(g, [kids[k]], kids[k + 1..], b - 1);
    FinishedSeesAll(g, [kids[k]], b - 1, b);
  }

  /** A graph with some errors looked beneath no further. */
  predicate Pruned(p: Graph, g: Graph) {
    |p| == |g| && forall id | 0 <= id < |g| :: p[id] == g[id] || p[id] == []
  }

  lemma {:induction false} PrunedFinishes(p: Graph, g: Graph, stack: seq<Ref>, b: nat)
    requires Pruned(p, g) && Finishes(g, stack, b)
    ensures Finishes(p, stack, b)
    decreases b, |stack|
  {
    if stack != [] {
      if stack[0].Nil? {
        PrunedFinishes(p, g, stack[1..], b);
      } else {
        var id := stack[0].id;
        if KidsOf(p, id) != KidsOf(g, id) {
          SuffixFinishes(g, KidsOf(g, id), stack[1..], b - 1);
          assert KidsOf(p, id) + stack[1..] == stack[1..];
          PrunedFinishes(p, g, stack[1..], b - 1);
        } else {
          PrunedFinishes(p, g, KidsOf(g, id) + stack[1..], b - 1);
        }
      }
    }
  }

  /** A search of a stack is a search of its top and then, with what that left, of the rest. */
  lemma {:induction false} SeekOfConcat(g: Graph, goals: set<nat>, top: seq<Ref>, rest: seq<Ref>, fuel: nat)
    ensures match Seek(g, goals, top, fuel)
      case Absent => Seek(g, goals, top + rest, fuel) == Seek(g, goals, rest, fuel - |PreOrder(g, top, fuel)|)
      case s => Seek(g, goals, top + rest, fuel) == s
    decreases fuel, |top|
  {
    if top == [] {
      assert top + rest == rest;
    } else {
      assert (top + rest)[1..] == top[1..] + rest;
      if top[0].Nil? {
        SeekOfConcat(g, goals, top[1..], rest, fuel);
      } else if fuel > 0 && top[0].id !in goals {
        var kids := KidsOf(g, top[0].id);
        assert kids + (top[1..] + rest) == (kids + top[1..]) + rest;
        SeekOfConcat(g, goals, kids + top[1..], rest, fuel - 1);
      }
    }
  }

  lemma SeekOfFinite(g: Graph, goals: set<nat>, stack: seq<Ref>, b: nat, fuel: nat)
    requires Finishes(g, stack, b) && b <= fuel
    ensures !Seek(g, goals, stack, fuel).Running?
  {
    SeekIsFirstGoal(g, goals, stack, fuel);
    FinishedSeesAll(g, stack, b, fuel);
  }

  /** A search that does not look for an error goes on to what it wraps. */
  lemma SeekPast(g: Graph, goals: set<nat>, id: nat, fuel: nat)
    requires id < |g| && id !in goals
    ensures Seek(g, goals, [At(id)], fuel + 1) == Seek(g, goals, g[id], fuel)
  {
    assert KidsOf(g, id) + [At(id)][1..] == g[id];
  }
}
