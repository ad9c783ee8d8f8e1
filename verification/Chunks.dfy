/** What the envelope of a batched run makes of its chunks: one request serves every item of a chunk, and
    itemMetaFromChunk (v2/internal/ops/plan_many.go:412-435) writes the envelopes of the items that sumMetas
    (v2/op/call.go:227-339) adds up. */
module Chunks {
  import opened Common
  import opened MetaSum
  import opened MetaSumLaws

  /** A chunk that was sent: the record of its one request, and how many items it served. */
  datatype Chunk = Chunk(meta: Meta, items: nat)

  predicate Served(chunks: seq<Chunk>) { forall i | 0 <= i < |chunks| :: chunks[i].items > 0 }

  const NO_COST := Cost(false, NO_SPEND, "", "", Unset)

  /** itemMetaFromChunk, for an item that is not the first. The attempts, the repairs, the usage, the cost
      and the timing are set to nothing. The retries and the cache hits are not. */
  function LaterItem(m: Meta): Meta {
    Meta(Amounts(0, 0, m.amounts.retries, m.amounts.cacheHits), NO_USAGE, Timing(NO_PHASES, false), m.hedged,
      m.serviceTier,
         NO_COST, m.failedChecks, m.names, m.tier, m.requested, m.delivered, m.drifted, m.driftUnknown)
  }

  function Later(m: Meta, n: nat): seq<Meta> {
    if n == 0 then [] else [LaterItem(m)] + Later(m, n - 1)
  }

  /** The items of a chunk. */
  function ItemsOf(c: Chunk): seq<Meta> {
    if c.items == 0 then [] else [c.meta] + Later(c.meta, c.items - 1)
  }

  function AllItems(chunks: seq<Chunk>): seq<Meta> {
    if chunks == [] then [] else ItemsOf(chunks[0]) + AllItems(chunks[1..])
  }

  function Requests(chunks: seq<Chunk>): seq<Meta> {
    if chunks == [] then [] else [chunks[0].meta] + Requests(chunks[1..])
  }

  /** So many times a number. */
  function Times(n: nat, x: nat): nat {
    if n == 0 then 0 else Times(n - 1, x) + x
  }

  lemma {:induction false} TimesIsProduct(n: nat, x: nat)
    ensures Times(n, x) == n * x
    ensures Times(n, x) == 0 <==> n == 0 || x == 0
  {
    if n > 0 { TimesIsProduct(n - 1, x); }
  }

  /** What the later items add again. */
  function RetriesAgain(chunks: seq<Chunk>): nat
    requires Served(chunks)
  {
    if chunks == [] then 0 else Times(chunks[0].items - 1, chunks[0].meta.amounts.retries) + RetriesAgain(chunks[1..])
  }

  function HitsAgain(chunks: seq<Chunk>): nat
    requires Served(chunks)
  {
    if chunks == [] then 0 else Times(chunks[0].items - 1, chunks[0].meta.amounts.cacheHits) + HitsAgain(chunks[1..])
  }

  function More(a: Added, retries: nat, hits: nat): Added {
    a.(amounts := Amounts(a.amounts.attempts, a.amounts.repairs, a.amounts.retries + retries,
      a.amounts.cacheHits + hits))
  }

  // ---------------------------------------------------------------- what is added

  lemma {:induction false} MoreFrom(a: Added, metas: seq<Meta>, retries: nat, hits: nat)
    ensures AddFrom(More(a, retries, hits), metas) == More(AddFrom(a, metas), retries, hits)
    decreases |metas|
  {
    if metas != [] {
      assert AddMeta(More(a, retries, hits), metas[0]) == More(AddMeta(a, metas[0]), retries, hits);
      MoreFrom(AddMeta(a, metas[0]), metas[1..], retries, hits);
    }
  }

  lemma {:induction false} AddFromConcat(a: Added, x: seq<Meta>, y: seq<Meta>)
    ensures AddFrom(a, x + y) == AddFrom(AddFrom(a, x), y)
    decreases |x|
  {
    if x == [] {
      assert x + y == y;
    } else {
      assert (x + y)[1..] == x[1..] + y;
      AddFromConcat(AddMeta(a, x[0]), x[1..], y);
    }
  }

  /** A later item adds its retries and its cache hits, and nothing else that the first has not. */
  lemma LaterAdds(a: Added, m: Meta)
    requires Quiet(a) && (m.hedged ==> a.hedged) && (m.serviceTier != "" ==> a.serviceTier == m.serviceTier)
    ensures AddMeta(a, LaterItem(m)) == More(a, m.amounts.retries, m.amounts.cacheHits)
  {
  }

  lemma {:induction false} AllLaterAdd(a: Added, m: Meta, n: nat)
    requires Quiet(a) && (m.hedged ==> a.hedged) && (m.serviceTier != "" ==> a.serviceTier == m.serviceTier)
    ensures AddFrom(a, Later(m, n)) == More(a, Times(n, m.amounts.retries), Times(n, m.amounts.cacheHits))
  {
    if n > 0 {
      LaterAdds(a, m);
      assert Later(m, n)[1..] == Later(m, n - 1);
      AllLaterAdd(a, m, n - 1);
      MoreFrom(a, Later(m, n - 1), m.amounts.retries, m.amounts.cacheHits);
    }
  }

  lemma ChunkAdds(a: Added, c: Chunk)
    requires Quiet(a) && c.items > 0
    ensures AddFrom(a, ItemsOf(c)) == More(AddMeta(a, c.meta), Times(c.items - 1, c.meta.amounts.retries),
      Times(c.items - 1, c.meta.amounts.cacheHits))
    ensures Quiet(AddMeta(a, c.meta))
  {
    assert ItemsOf(c)[1..] == Later(c.meta, c.items - 1);
    AllLaterAdd(AddMeta(a, c.meta), c.meta, c.items - 1);
  }

  lemma {:induction false} ChunksAdd(a: Added, chunks: seq<Chunk>)
    requires Quiet(a) && Served(chunks)
    ensures AddFrom(a, AllItems(chunks)) == More(AddFrom(a, Requests(chunks)), RetriesAgain(chunks), HitsAgain(chunks))
    decreases |chunks|
  {
    if chunks != [] {
      var c, rest := chunks[0], chunks[1..];
      var next := AddMeta(a, c.meta);
      var retries, hits := Times(c.items - 1, c.meta.amounts.retries), Times(c.items - 1, c.meta.amounts.cacheHits);
      AddFromConcat(a, ItemsOf(c), AllItems(rest));
      ChunkAdds(a, c);
      MoreFrom(next, AllItems(rest), retries, hits);
      ChunksAdd(next, rest);
      assert Requests(chunks)[1..] == Requests(rest);
    }
  }

  // ---------------------------------------------------------------- what was made, and the levels

  lemma {:induction false} NoLaterIsMade(m: Meta, n: nat)
    ensures MadeOf(Later(m, n)) == []
  {
    if n > 0 {
      assert Later(m, n)[1..] == Later(m, n - 1);
      NoLaterIsMade(m, n - 1);
    }
  }

  /** The requests that were made are the chunks', one each. */
  lemma {:induction false} MadeAreRequests(chunks: seq<Chunk>)
    requires Served(chunks)
    ensures MadeOf(AllItems(chunks)) == MadeOf(Requests(chunks))
  {
    if chunks != [] {
      var c, rest := chunks[0], chunks[1..];
      MadeAreRequests(rest);
      MadeOfConcat(ItemsOf(c), AllItems(rest));
      MadeOfChunk(c);
      MadeOfConcat([c.meta], Requests(rest));
    }
  }

  lemma MadeOfChunk(c: Chunk)
    requires c.items > 0
    ensures MadeOf(ItemsOf(c)) == MadeOf([c.meta])
  {
    MadeOfConcat([c.meta], Later(c.meta, c.items - 1));
    NoLaterIsMade(c.meta, c.items - 1);
  }

  lemma {:induction false} WeakestOfConcat(a: seq<Meta>, b: seq<Meta>)
    requires a != [] && b != []
    ensures WeakestOf(a + b) == Weaker(WeakestOf(a), WeakestOf(b))
  {
    var front := b[..|b| - 1];
    assert (a + b)[..|a + b| - 1] == a + front;
    if |b| == 1 {
      assert a + front == a;
    } else {
      WeakestOfConcat(a, front);
    }
  }

  lemma {:induction false} WeakestOfLater(m: Meta, n: nat)
    ensures WeakestOf([m] + Later(m, n)) == LevelsOf(m)
    decreases n
  {
    if n > 0 {
      WeakestOfLater(LaterItem(m), n - 1);
      SameLater(m, n - 1);
      WeakestOfConcat([m], Later(m, n));
    }
  }

  lemma {:induction false} SameLater(m: Meta, n: nat)
    ensures Later(LaterItem(m), n) == Later(m, n)
  {
    if n > 0 { SameLater(m, n - 1); }
  }

  lemma {:induction false} WeakestOfChunks(chunks: seq<Chunk>)
    requires Served(chunks)
    ensures WeakestOf(AllItems(chunks)) == WeakestOf(Requests(chunks))
  {
    if chunks != [] {
      var c, rest := chunks[0], chunks[1..];
      WeakestOfLater(c.meta, c.items - 1);
      if rest == [] {
        assert AllItems(rest) == [] && Requests(rest) == [];
        assert AllItems(chunks) == ItemsOf(c) && Requests(chunks) == [c.meta];
      } else {
        WeakestOfChunks(rest);
        assert AllItems(rest) != [] && Requests(rest) != [];
        WeakestOfConcat(ItemsOf(c), AllItems(rest));
        WeakestOfConcat([c.meta], Requests(rest));
      }
    }
  }

  // ---------------------------------------------------------------- conservation

  /** The envelope of a batched run is the envelope of one request for each chunk, in every field but the
      retries and the cache hits, and those are counted once for each item of a chunk. */
  lemma ChunksAreConserved(chunks: seq<Chunk>)
    requires Served(chunks)
    ensures var sent := EnvelopeOf(Requests(chunks));
      EnvelopeOf(AllItems(chunks)) == sent.(added := More(sent.added, RetriesAgain(chunks), HitsAgain(chunks)))
  {
    ChunksAdd(NONE_ADDED, chunks);
    MadeAreRequests(chunks);
    WeakestOfChunks(chunks);
  }

  /** No later item repeats anything. */
  predicate NothingAgain(chunks: seq<Chunk>) {
    forall i | 0 <= i < |chunks| ::
      chunks[i].items == 1 || (chunks[i].meta.amounts.retries == 0 && chunks[i].meta.amounts.cacheHits == 0)
  }

  lemma {:induction false} NothingAgainIff(chunks: seq<Chunk>)
    requires Served(chunks)
    ensures NothingAgain(chunks) <==> RetriesAgain(chunks) == 0 && HitsAgain(chunks) == 0
  {
    if chunks != [] {
      var rest := chunks[1..];
      NothingAgainIff(rest);
      TimesIsProduct(chunks[0].items - 1, chunks[0].meta.amounts.retries);
      TimesIsProduct(chunks[0].items - 1, chunks[0].meta.amounts.cacheHits);
      assert forall i | 0 <= i < |rest| :: rest[i] == chunks[i + 1];
      assert forall i | 0 < i < |chunks| :: chunks[i] == rest[i - 1];
    }
  }

  /** A batched run is recorded as what was spent exactly when every chunk that was retried, or answered
      from a cache, served one item. */
  lemma ConservedIff(chunks: seq<Chunk>)
    requires Served(chunks)
    ensures EnvelopeOf(AllItems(chunks)) == EnvelopeOf(Requests(chunks)) <==> NothingAgain(chunks)
  {
    ChunksAreConserved(chunks);
    NothingAgainIff(chunks);
  }

  /** One request of two items, retried once, is recorded as retried twice. */
  lemma RetriesAreCountedAgain(m: Meta)
    requires m.amounts.retries == 1
    ensures EnvelopeOf(AllItems([Chunk(m, 2)])).added.amounts.retries == 2
  {
    var later := LaterItem(m);
    assert ItemsOf(Chunk(m, 2)) == [m, later] by { assert Later(m, 1) == [later]; }
    assert AllItems([Chunk(m, 2)]) == [m, later];
    FiguresAreSums([m, later], 2);
    assert [m, later][1..] == [later];
    assert Sigma([later], 2) == 1;
  }

  /** The requests of a Record (v2/record_convert.go:228). */
  function RecordRequests(a: Amounts): nat { Max(0, a.attempts - a.cacheHits) }

  /** And one chunk of two items that a cache answered hides the request of another chunk: two requests,
      one of them sent, are recorded as none sent. */
  lemma RequestsAreLost(cached: Meta, other: Meta)
    requires cached.amounts == Amounts(1, 0, 0, 1) && other.amounts == Amounts(1, 0, 0, 0)
    ensures RecordRequests(EnvelopeOf(AllItems([Chunk(cached, 2), Chunk(other, 1)])).added.amounts) == 0
  {
    TwoChunks(cached, other);
    var items := [cached, LaterItem(cached), other];
    SigmaOfThree(cached, LaterItem(cached), other, 0);
    SigmaOfThree(cached, LaterItem(cached), other, 3);
    assert AddedFigure(EnvelopeOf(items).added, 0) == 2 by { FiguresAreSums(items, 0); }
    assert AddedFigure(EnvelopeOf(items).added, 3) == 2 by { FiguresAreSums(items, 3); }
  }

  lemma SigmaOfThree(a: Meta, b: Meta, c: Meta, k: nat)
    requires k < FIGURES
    ensures Sigma([a, b, c], k) == MetaFigure(a, k) + MetaFigure(b, k) + MetaFigure(c, k)
  {
    assert [a, b, c][1..] == [b, c] && [b, c][1..] == [c];
    assert Sigma([c], k) == MetaFigure(c, k);
  }

  lemma TwoChunks(cached: Meta, other: Meta)
    ensures AllItems([Chunk(cached, 2), Chunk(other, 1)]) == [cached, LaterItem(cached), other]
  {
    var chunks := [Chunk(cached, 2), Chunk(other, 1)];
    assert ItemsOf(chunks[0]) == [cached, LaterItem(cached)] by { assert Later(cached, 1) == [LaterItem(cached)]; }
    assert ItemsOf(chunks[1]) == [other];
    assert chunks[1..] == [Chunk(other, 1)] && AllItems([Chunk(other, 1)]) == [other];
  }
}
