/** What each field of a sum says of the records, one field at a time, in the words of Recorder.Total
    (v2/recorder.go:168-189). */
module RecordMeaning {
  import opened Common
  import opened Records

  // ---------------------------------------------------------------- counts and durations

  /** The counts and durations a sum adds up. */
  const ADDED: nat := 19

  function CountOf(c: Counts, u: Usage, t: Timing, k: nat): Count
    requires k < ADDED
  {
    if k < 4 then OfCounts(c, k) else if k < 10 then OfUsage(u, k - 4) else OfTiming(t, k - 10)
  }

  function OfCounts(c: Counts, k: nat): Count
    requires k < 4
  {
    if k == 0 then c.requests else if k == 1 then c.retries else if k == 2 then c.repairs else c.cacheHits
  }

  function OfUsage(u: Usage, k: nat): Count
    requires k < 6
  {
    if k == 0 then u.input else if k == 1 then u.output else if k == 2 then u.total
    else if k == 3 then u.cached else if k == 4 then u.cacheWrite else u.reasoning
  }

  function OfTiming(t: Timing, k: nat): Count
    requires k < 9
  {
    if k == 0 then t.calls else if k == 1 then t.queued else if k == 2 then t.lookup
    else if k == 3 then t.connect else if k == 4 then t.handshake else if k == 5 then t.send
    else if k == 6 then t.wait else if k == 7 then t.read else t.network
  }

  function RecordCount(r: Record, k: nat): Count
    requires k < ADDED
  {
    CountOf(r.counts, r.tokens, r.timing, k)
  }

  /** What the records add up to, with no largest number. */
  function Sigma(records: seq<Record>, k: nat): nat
    requires k < ADDED
  {
    if records == [] then 0 else RecordCount(records[0], k) + Sigma(records[1..], k)
  }

  lemma {:induction false} SummaryCounts(records: seq<Record>, k: nat)
    requires k < ADDED && records != []
    ensures var s := Summarize(records);
      s.Summary? && CountOf(s.counts, s.tokens, s.timing, k) == Min(Sigma(records, k), MAX_INT)
  {
    assert Sigma(records, k) == RecordCount(records[0], k) + Sigma(records[1..], k);
    if |records| > 1 {
      SummaryCounts(records[1..], k);
      CountOfMerge(SummaryOf(records[0]), Summarize(records[1..]), k);
    }
  }

  lemma CountOfMerge(s: Summary, t: Summary, k: nat)
    requires k < ADDED && s.Summary? && t.Summary?
    ensures var m := Merge(s, t);
      m.Summary? && CountOf(m.counts, m.tokens, m.timing, k)
        == Add(CountOf(s.counts, s.tokens, s.timing, k), CountOf(t.counts, t.tokens, t.timing, k))
  {
  }

  /** Every count and every duration of a sum is the sum of the records', held at the largest number
      there is where it would pass it. */
  lemma CountsAreHeldSums(records: seq<Record>, k: nat)
    requires k < ADDED
    ensures RecordCount(Total(records), k) == Min(Sigma(records, k), MAX_INT)
  {
    if records != [] { SummaryCounts(records, k); }
  }

  /** The parts of a cost. */
  const PARTS: nat := 5

  function PartOf(s: Spend, k: nat): real
    requires k < PARTS
  {
    if k == 0 then s.total else if k == 1 then s.input else if k == 2 then s.output
    else if k == 3 then s.cached else s.reasoning
  }

  function CostSigma(records: seq<Record>, k: nat): real
    requires k < PARTS
  {
    if records == [] then 0.0 else PartOf(records[0].cost, k) + CostSigma(records[1..], k)
  }

  lemma {:induction false} SummaryCosts(records: seq<Record>, k: nat)
    requires k < PARTS && records != []
    ensures Summarize(records).Summary? && PartOf(Summarize(records).cost, k) == CostSigma(records, k)
  {
    if |records| == 1 {
      OfOne(records);
      assert CostSigma(records[1..], k) == 0.0;
    } else {
      SummaryCosts(records[1..], k);
    }
  }

  /** Every part of the cost of a sum is the sum of the records' same part, priced or not. */
  lemma CostsAreSums(records: seq<Record>, k: nat)
    requires k < PARTS
    ensures PartOf(Total(records).cost, k) == CostSigma(records, k)
  {
    if records != [] { SummaryCosts(records, k); }
  }

  lemma OfOne(records: seq<Record>)
    requires |records| == 1
    ensures Summarize(records) == SummaryOf(records[0])
  {
    assert records[1..] == [];
  }

  // ---------------------------------------------------------------- votes

  predicate Sends(r: Record) { r.counts.requests > 0 }

  predicate Times(r: Record) { r.timing.calls > 0 }

  lemma {:induction false} VotesAre(records: seq<Record>)
    requires records != []
    ensures var s := Summarize(records);
      && s.Summary?
      && s.priced.some == (exists i | 0 <= i < |records| :: Sends(records[i]))
      && s.priced.all == (forall i | 0 <= i < |records| :: Sends(records[i]) ==> records[i].priced)
      && s.reused.some == (exists i | 0 <= i < |records| :: Times(records[i]))
      && s.reused.all == (forall i | 0 <= i < |records| :: Times(records[i]) ==> records[i].reused)
  {
    if |records| == 1 {
      OfOne(records);
    } else {
      var rest := records[1..];
      VotesAre(rest);
      assert forall i | 0 < i < |records| :: records[i] == rest[i - 1];
      assert forall i | 0 <= i < |rest| :: rest[i] == records[i + 1];
    }
  }

  /** A sum is priced when some request was sent and every record that sent one was priced, and says
      its connection was reused when some request was timed and every record that timed one says so. */
  lemma PricedAndReusedIff(records: seq<Record>)
    ensures Total(records).priced <==>
      && (exists i | 0 <= i < |records| :: Sends(records[i]))
      && (forall i | 0 <= i < |records| :: Sends(records[i]) ==> records[i].priced)
    ensures Total(records).reused <==>
      && (exists i | 0 <= i < |records| :: Times(records[i]))
      && (forall i | 0 <= i < |records| :: Times(records[i]) ==> records[i].reused)
  {
    if records != [] { VotesAre(records); }
  }

  // ---------------------------------------------------------------- moments

  function FinishOf(r: Record): int { r.start + r.elapsed }

  predicate StampedAt(r: Record) { r.start != 0 }

  lemma {:induction false} SpanCovers(records: seq<Record>, i: nat)
    requires i < |records|
    ensures var s := Summarize(records);
      && s.Summary?
      && (StampedAt(records[i]) ==>
            s.span.earliest != 0 && s.span.earliest <= records[i].start && FinishOf(records[i]) <= s.span.latest)
      && (!StampedAt(records[i]) ==> records[i].elapsed <= s.span.unstamped)
  {
    if i > 0 {
      SpanCovers(records[1..], i - 1);
    } else if |records| > 1 {
      NamesOfSummary(records[1..]);
    }
  }

  /** No record of a sum starts before its Start or, when it has a start, finishes after it: Elapsed
      is no shorter than from Start to there, and no shorter than any record with no start took. */
  lemma TotalSpans(records: seq<Record>, i: nat)
    requires i < |records|
    ensures StampedAt(records[i]) ==>
      && Total(records).start != 0 && Total(records).start <= records[i].start
      && FinishOf(records[i]) <= Total(records).start + Total(records).elapsed
    ensures !StampedAt(records[i]) ==> records[i].elapsed <= Total(records).elapsed
  {
    SpanCovers(records, i);
  }

  lemma {:induction false} SpanAttained(records: seq<Record>)
    requires records != []
    ensures var s := Summarize(records);
      && s.Summary?
      && (s.span.earliest != 0 ==>
            exists i :: 0 <= i < |records| && StampedAt(records[i]) && records[i].start == s.span.earliest)
      && (s.span.latest != 0 ==>
            exists i :: 0 <= i < |records| && StampedAt(records[i]) && FinishOf(records[i]) == s.span.latest)
      && (s.span.unstamped != 0 ==>
            exists i :: 0 <= i < |records| && !StampedAt(records[i]) && records[i].elapsed == s.span.unstamped)
  {
    var rest := records[1..];
    if rest == [] {
      var s := SummaryOf(records[0]);
      assert Summarize(records) == s;
      if StampedAt(records[0]) { assert s.span.latest != 0 ==> FinishOf(records[0]) == s.span.latest; }
    } else {
      SpanAttained(rest);
      assert forall i | 0 <= i < |rest| :: rest[i] == records[i + 1];
      var s, t := SummaryOf(records[0]).span, Summarize(rest).span;
      assert Summarize(records).span == JoinSpan(s, t);
    }
  }

  /** And none of it is made up: Start is the start of one of the records, and Elapsed is the time from
      it to the finish of one, or what a record with no start took, when the time is not nothing. */
  lemma TotalIsTight(records: seq<Record>)
    ensures Total(records).start != 0 ==>
      exists i :: 0 <= i < |records| && StampedAt(records[i]) && records[i].start == Total(records).start
    ensures Total(records).elapsed > 0 && Total(records).start >= 0 ==>
      exists i :: 0 <= i < |records| &&
        if StampedAt(records[i]) then FinishOf(records[i]) == Total(records).start + Total(records).elapsed
        else records[i].elapsed == Total(records).elapsed
  {
    if records != [] { SpanAttained(records); }
  }

  // ---------------------------------------------------------------- the rest

  lemma {:induction false} AnyOfSummary(records: seq<Record>)
    requires records != []
    ensures var s := Summarize(records);
      && s.Summary?
      && s.hedged == (exists i | 0 <= i < |records| :: records[i].hedged)
      && s.estimated == (exists i | 0 <= i < |records| :: records[i].estimated)
  {
    if |records| == 1 {
      OfOne(records);
    } else {
      var rest := records[1..];
      AnyOfSummary(rest);
      assert forall i | 0 < i < |records| :: records[i] == rest[i - 1];
      assert forall i | 0 <= i < |rest| :: rest[i] == records[i + 1];
    }
  }

  /** Hedged is true if true of any record, as Estimated is. */
  lemma AnyIsEnough(records: seq<Record>)
    ensures Total(records).hedged <==> exists i :: 0 <= i < |records| && records[i].hedged
    ensures Total(records).estimated <==> exists i :: 0 <= i < |records| && records[i].estimated
  {
    if records != [] { AnyOfSummary(records); }
  }

  /** Typed is true if true of all. */
  lemma {:induction false} TypedNeedsAll(records: seq<Record>)
    requires records != []
    ensures Total(records).typed <==> forall i :: 0 <= i < |records| ==> records[i].typed
  {
    if |records| == 1 {
      OfOne(records);
    } else {
      var rest := records[1..];
      TypedNeedsAll(rest);
      NamesOfSummary(rest);
      assert forall i | 0 <= i < |rest| :: rest[i] == records[i + 1];
    }
  }

  lemma {:induction false} FloorsOfSummary(records: seq<Record>, i: nat)
    requires i < |records|
    ensures var s := Summarize(records);
      s.Summary? && s.requested <= records[i].requested && s.delivered <= records[i].delivered
  {
    if |records| == 1 {
      OfOne(records);
    } else if i > 0 {
      FloorsOfSummary(records[1..], i - 1);
    } else {
      NamesOfSummary(records[1..]);
    }
  }

  lemma {:induction false} FloorsAreReached(records: seq<Record>) returns (r: nat, d: nat)
    requires records != []
    ensures var s := Summarize(records);
      s.Summary? && r < |records| && records[r].requested == s.requested && d < |records|
        && records[d].delivered == s.delivered
  {
    r, d := 0, 0;
    if |records| == 1 {
      OfOne(records);
    } else {
      r, d := FloorsAreReached(records[1..]);
      r := if records[0].requested <= records[r + 1].requested then 0 else r + 1;
      d := if records[0].delivered <= records[d + 1].delivered then 0 else d + 1;
    }
  }

  /** Requested and Delivered are the weakest of the records'. */
  lemma WeakestAre(records: seq<Record>)
    requires records != []
    ensures forall i | 0 <= i < |records| :: Total(records).requested <= records[i].requested
    ensures forall i | 0 <= i < |records| :: Total(records).delivered <= records[i].delivered
    ensures exists i :: 0 <= i < |records| && records[i].requested == Total(records).requested
    ensures exists i :: 0 <= i < |records| && records[i].delivered == Total(records).delivered
  {
    forall i | 0 <= i < |records|
      ensures Total(records).requested <= records[i].requested && Total(records).delivered <= records[i].delivered
    {
      FloorsOfSummary(records, i);
    }
    var r, d := FloorsAreReached(records);
  }

  /** Err is the first error, in the order of the records. */
  lemma {:induction false} ErrIsFirst(records: seq<Record>, i: nat)
    requires i < |records| && records[i].err.Some?
    requires forall j | 0 <= j < i :: records[j].err.None?
    ensures Total(records).err == records[i].err
  {
    if i > 0 {
      assert records[0].err.None?;
      assert forall j | 0 <= j < i - 1 :: records[1..][j] == records[j + 1];
      ErrIsFirst(records[1..], i - 1);
      NamesOfSummary(records[1..]);
    } else if |records| > 1 {
      NamesOfSummary(records[1..]);
    }
  }

  lemma {:induction false} NoErrorIsNone(records: seq<Record>)
    requires forall j | 0 <= j < |records| :: records[j].err.None?
    ensures Total(records).err.None?
  {
    if records != [] {
      assert forall j | 0 <= j < |records| - 1 :: records[1..][j] == records[j + 1];
      NoErrorIsNone(records[1..]);
    }
  }
}
