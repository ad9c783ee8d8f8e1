/** What the sum of records promises: it may be taken in parts, and in any order. And the loop that takes it. */
module RecordLaws {
  import opened Common
  import opened Records

  // ---------------------------------------------------------------- a sum in any order

  lemma {:induction false} PermutedSummaries(a: seq<Record>, b: seq<Record>)
    requires multiset(a) == multiset(b)
    ensures Unordered(Summarize(a)) == Unordered(Summarize(b))
  {
    if a == [] {
      assert multiset(b) == multiset{};
      assert |b| == 0;
    } else {
      var r := a[0];
      var front, back := TakeOut(a, b);
      PermutedSummaries(a[1..], front + back);
      MoveToFront(front, r, back);
      MergeUnordered(SummaryOf(r), Summarize(a[1..]));
      MergeUnordered(SummaryOf(r), Summarize(front + back));
    }
  }

  lemma MoveToFront(front: seq<Record>, r: Record, back: seq<Record>)
    ensures Unordered(Summarize(front + ([r] + back))) == Unordered(Merge(SummaryOf(r), Summarize(front + back)))
  {
    var f, s, k := Summarize(front), SummaryOf(r), Summarize(back);
    SummarizeConcat(front, [r] + back);
    SummarizeConcat(front, back);
    assert ([r] + back)[1..] == back;
    MergeAssociates(f, s, k);
    MergeAssociates(s, f, k);
    MergeCommutes(f, s);
    MergeUnordered(Merge(f, s), k);
    MergeUnordered(Merge(s, f), k);
  }

  /** Every field of a sum but its error is the same in whatever order the records are. */
  lemma TotalOfPermutation(a: seq<Record>, b: seq<Record>)
    requires multiset(a) == multiset(b)
    ensures Total(a).(err := None) == Total(b).(err := None)
  {
    PermutedSummaries(a, b);
  }

  // ---------------------------------------------------------------- a sum in parts

  /** What the sum of some records keeps between its votes, its counts and its moments. */
  predicate Proper(s: Summary) {
    s.Summary? ==>
      && s.priced.some == (s.counts.requests > 0) && (!s.priced.some ==> s.priced.all)
      && s.reused.some == (s.timing.calls > 0) && (!s.reused.some ==> s.reused.all)
      && ProperSpan(s.span)
  }

  predicate ProperSpan(s: Span) {
    0 <= s.latest && s.earliest <= s.latest && (s.earliest == 0 ==> s.latest == 0)
  }

  lemma {:induction false} SummariesAreProper(records: seq<Record>)
    ensures Proper(Summarize(records))
  {
    if records != [] { SummariesAreProper(records[1..]); }
  }

  predicate SameButSpan(s: Summary, t: Summary) {
    && s.Summary? == t.Summary?
    && (s.Summary? ==> s == t.(span := s.span))
  }

  /** A span as the span of a sum taken in parts: it starts where the other does, and what it misses
      of the other it makes up in length. */
  predicate CoversSpan(s: Span, t: Span) {
    && ProperSpan(s) && ProperSpan(t)
    && s.earliest == t.earliest && s.latest >= t.latest && Length(s) >= t.unstamped
  }

  predicate Covers(s: Summary, t: Summary) {
    SameButSpan(s, t) && (s.Summary? ==> CoversSpan(s.span, t.span))
  }

  lemma JoinKeepsCover(s: Span, t: Span, s': Span, t': Span)
    requires CoversSpan(s, t) && CoversSpan(s', t')
    ensures CoversSpan(JoinSpan(s, s'), JoinSpan(t, t'))
  {
  }

  lemma MergeKeepsCover(s: Summary, t: Summary, s': Summary, t': Summary)
    requires Covers(s, t) && Covers(s', t')
    ensures Covers(Merge(s, s'), Merge(t, t'))
  {
    if s.Summary? && s'.Summary? {
      JoinKeepsCover(s.span, t.span, s'.span, t'.span);
    }
  }

  /** The record a sum makes of a summary, summed again, is the summary but for its span. */
  lemma FinishedIsSummary(s: Summary)
    requires Proper(s) && s.Summary?
    ensures Covers(SummaryOf(Finish(s)), s)
    ensures s.span.unstamped == 0 && s.span.earliest != 0 ==> SummaryOf(Finish(s)) == s
  {
  }

  function Totals(parts: seq<seq<Record>>): seq<Record> {
    if parts == [] then [] else [Total(parts[0])] + Totals(parts[1..])
  }

  function Flatten(parts: seq<seq<Record>>): seq<Record> {
    if parts == [] then [] else parts[0] + Flatten(parts[1..])
  }

  predicate NoneEmpty(parts: seq<seq<Record>>) {
    forall i | 0 <= i < |parts| :: parts[i] != []
  }

  predicate Stamped(records: seq<Record>) {
    forall i | 0 <= i < |records| :: records[i].start != 0
  }

  lemma {:induction false} StampedSpan(records: seq<Record>)
    requires records != [] && Stamped(records)
    ensures var s := Summarize(records).span; s.unstamped == 0 && s.earliest != 0
  {
    if |records| > 1 { StampedSpan(records[1..]); }
  }

  /** A record that is the sum of others, summed again, is what they come to but for its span. */
  lemma TotalCovers(records: seq<Record>)
    requires records != []
    ensures Covers(SummaryOf(Total(records)), Summarize(records))
    ensures Stamped(records) ==> SummaryOf(Total(records)) == Summarize(records)
  {
    SummariesAreProper(records);
    NamesOfSummary(records);
    FinishedIsSummary(Summarize(records));
    if Stamped(records) { StampedSpan(records); }
  }

  lemma {:induction false} PartsCover(parts: seq<seq<Record>>)
    requires NoneEmpty(parts)
    ensures Covers(Summarize(Totals(parts)), Summarize(Flatten(parts)))
    ensures (forall i | 0 <= i < |parts| :: Stamped(parts[i])) ==> Summarize(Totals(parts)) == Summarize(Flatten(parts))
  {
    if parts != [] {
      var part := Summarize(parts[0]);
      TotalCovers(parts[0]);
      assert forall i | 0 <= i < |parts[1..]| :: parts[1..][i] == parts[i + 1];
      PartsCover(parts[1..]);
      SummarizeConcat(parts[0], Flatten(parts[1..]));
      assert Totals(parts)[1..] == Totals(parts[1..]);
      MergeKeepsCover(SummaryOf(Total(parts[0])), part, Summarize(Totals(parts[1..])), Summarize(Flatten(parts[1..])));
    }
  }

  lemma CoverFinishes(s: Summary, t: Summary)
    requires Covers(s, t)
    ensures Finish(s).(elapsed := 0) == Finish(t).(elapsed := 0)
    ensures Finish(s).elapsed >= Finish(t).elapsed
  {
  }

  /** A sum taken in parts is the sum of all: in every field when every record has a start, and
      otherwise in every field but Elapsed, which is never smaller. */
  lemma TotalOfTotals(parts: seq<seq<Record>>)
    requires NoneEmpty(parts)
    ensures Total(Totals(parts)).(elapsed := 0) == Total(Flatten(parts)).(elapsed := 0)
    ensures Total(Totals(parts)).elapsed >= Total(Flatten(parts)).elapsed
    ensures (forall i | 0 <= i < |parts| :: Stamped(parts[i])) ==> Total(Totals(parts)) == Total(Flatten(parts))
  {
    PartsCover(parts);
    CoverFinishes(Summarize(Totals(parts)), Summarize(Flatten(parts)));
  }

  /** When the longest record of a part that has no start would finish, were it started with the
      earliest of the part that has one. */
  function Overshoot(s: Span): int {
    if s.earliest == 0 then 0 else s.earliest + s.unstamped
  }

  /** The span of a sum, as the span of one record. */
  function Respan(s: Span): Span {
    if s.earliest != 0 then Span(s.earliest, Max(0, s.earliest + Length(s)), 0) else Span(0, 0, Length(s))
  }

  lemma SpanOfTotal(a: seq<Record>)
    requires a != []
    ensures SpanOf(Total(a)) == Respan(Summarize(a).span)
  {
  }

  /** The furthest such finish of the parts. */
  function Furthest(parts: seq<seq<Record>>): int {
    if parts == [] then 0
    else if parts[0] == [] then Furthest(parts[1..])
    else Max(Overshoot(Summarize(parts[0]).span), Furthest(parts[1..]))
  }

  /** The span of the totals against the span of all the records: it is the same but that it reaches as far as
      the parts seem to, and forgets the length of a record with no start beside one that has one. */
  predicate Reaches(s': Span, s: Span, furthest: int) {
    && s'.earliest == s.earliest && s'.latest == Max(s.latest, furthest) && s'.unstamped <= s.unstamped
    && (s'.unstamped < s.unstamped ==> s.earliest != 0 && furthest >= s.earliest + s.unstamped)
    && (s.earliest == 0 ==> furthest == 0 && s.latest == 0) && s.latest >= 0
  }

  lemma OneReaches(s: Span)
    requires ProperSpan(s)
    ensures Reaches(Respan(s), s, Max(Overshoot(s), 0))
  {
  }

  lemma JoinReaches(s': Span, s: Span, f: int, t': Span, t: Span, g: int)
    requires Reaches(s', s, f) && Reaches(t', t, g)
    ensures Reaches(JoinSpan(s', t'), JoinSpan(s, t), Max(f, g))
  {
  }

  lemma ReachDecides(s': Span, s: Span, furthest: int)
    requires Reaches(s', s, furthest)
    ensures Length(s') == Length(s) <==> furthest - s.earliest <= Length(s)
  {
  }

  lemma {:induction false} PartsReach(parts: seq<seq<Record>>)
    requires NoneEmpty(parts) && parts != []
    ensures Summarize(Totals(parts)).Summary? && Summarize(Flatten(parts)).Summary?
    ensures Reaches(Summarize(Totals(parts)).span, Summarize(Flatten(parts)).span, Furthest(parts))
  {
    var part, rest := parts[0], parts[1..];
    SummariesAreProper(part);
    SpanOfTotal(part);
    OneReaches(Summarize(part).span);
    assert Totals(parts)[1..] == Totals(rest) && Totals(parts)[0] == Total(part);
    if rest == [] {
      assert Flatten(parts) == part + [] == part;
      assert Summarize(Totals(parts)) == SummaryOf(Total(part));
    } else {
      assert forall i | 0 <= i < |rest| :: rest[i] == parts[i + 1];
      PartsReach(rest);
      SummarizeConcat(part, Flatten(rest));
      JoinReaches(Respan(Summarize(part).span), Summarize(part).span, Max(Overshoot(Summarize(part).span), 0),
                  Summarize(Totals(rest)).span, Summarize(Flatten(rest)).span, Furthest(rest));
      FurthestIsCount(rest);
    }
  }

  lemma {:induction false} FurthestIsCount(parts: seq<seq<Record>>)
    ensures Furthest(parts) >= 0
  {
    if parts != [] { FurthestIsCount(parts[1..]); }
  }

  /** Exactly when the Elapsed of a sum taken in any number of parts is the Elapsed of all the records: when no
      part seems to reach further, counted from the earliest start of all, than all of them are long. */
  lemma ElapsedIsExactIff(parts: seq<seq<Record>>)
    requires NoneEmpty(parts) && parts != []
    ensures Summarize(Flatten(parts)).Summary?
    ensures var s := Summarize(Flatten(parts)).span;
      Total(Totals(parts)).elapsed == Total(Flatten(parts)).elapsed <==> Furthest(parts) - s.earliest <= Length(s)
  {
    PartsReach(parts);
    ReachDecides(Summarize(Totals(parts)).span, Summarize(Flatten(parts)).span, Furthest(parts));
  }

  /** Two records at once, one of them with no start, and one later: summed in parts they seem to take
      longer than they did. */
  lemma ElapsedOverestimates()
    ensures exists a: seq<Record>, b: seq<Record> ::
      a != [] && b != [] && Total([Total(a), Total(b)]).elapsed > Total(a + b).elapsed
  {
    var early := ZERO_RECORD.(start := 1, elapsed := 1);
    var late := ZERO_RECORD.(start := 10, elapsed := 1);
    var unstamped := ZERO_RECORD.(elapsed := 9);
    var a, b := [late, unstamped], [early];
    OfTwo(late, unstamped);
    assert Summarize(a).span == Span(10, 11, 9) && Summarize(b).span == Span(1, 2, 0);
    SummarizeConcat(a, b);
    SpanOfTotal(a);
    SpanOfTotal(b);
    OfTwo(Total(a), Total(b));
    assert Total([Total(a), Total(b)]).elapsed == 18 && Total(a + b).elapsed == 10;
  }

  lemma OfTwo(r: Record, r': Record)
    ensures Summarize([r, r']) == Merge(SummaryOf(r), SummaryOf(r'))
  {
    assert [r, r'][1..] == [r'] && Summarize([r']) == SummaryOf(r');
  }

  /** The zero Record is not nothing to a sum: a field the records agree on is lost beside it. */
  lemma ZeroRecordIsNoIdentity(r: Record)
    requires r.names != ZERO_NAMES
    ensures Total([r, ZERO_RECORD]) != Total([r])
  {
    OfTwo(r, ZERO_RECORD);
    assert Summarize([r]) == SummaryOf(r);
    assert forall f: Field :: Agree(r.names[f], "") == "";
    assert Total([r, ZERO_RECORD]).names == ZERO_NAMES;
  }

  // ---------------------------------------------------------------- the loop

  /** agreed, as it is written. */
  method AgreedOn(records: Recorded, f: Field) returns (r: string)
    ensures r == NamesOver(records)[f]
  {
    NamesAgree(records, f);
    var first := records[0].names[f];
    for i := 1 to |records|
      invariant forall k | 0 <= k < i :: records[k].names[f] == first
    {
      if records[i].names[f] != first {
        return "";
      }
    }
    return first;
  }

  /** The fields agreed is asked for, one after another. */
  method AgreedNames(records: Recorded) returns (n: Names)
    ensures n == NamesOver(records)
  {
    var names: seq<string> := [];
    for f := 0 to FIELDS
      invariant names == NamesOver(records)[..f]
    {
      var name := AgreedOn(records, f);
      names := names + [name];
    }
    n := names;
  }

  /** What the loop of sumRecords starts from. */
  function Start(first: Record): Summary {
    Summary(ZERO_NAMES, Span(0, 0, 0), ZERO_RECORD.counts, ZERO_RECORD.tokens, ZERO_RECORD.cost, ZERO_RECORD.timing,
            Vote(false, true), Vote(false, true), false, false, true, first.requested, first.delivered, None)
  }

  /** What the loop of sumRecords has after some records: what they come to, but for the names. */
  ghost predicate IsSum(s: Summary, first: Record, records: seq<Record>) {
    if records == [] then s == Start(first)
    else Summarize(records).Summary? && s == Summarize(records).(names := ZERO_NAMES)
  }

  lemma SumOfOneMore(s: Summary, records: seq<Record>, i: nat)
    requires i < |records| && IsSum(s, records[0], records[..i])
    ensures IsSum(Merge(s, SummaryOf(records[i])), records[0], records[..i + 1])
  {
    assert records[..i + 1] == records[..i] + [records[i]];
    assert Summarize([records[i]]) == SummaryOf(records[i]);
    SummarizeConcat(records[..i], [records[i]]);
  }

  /** The part of the loop that keeps earliest, latest and unstamped. */
  method Stretch(span: Span, rec: Record) returns (next: Span)
    requires span.latest >= 0
    ensures next == JoinSpan(span, SpanOf(rec))
  {
    next := span;
    if rec.start != 0 {
      if next.earliest == 0 || rec.start < next.earliest {
        next := next.(earliest := rec.start);
      }
      var finish := rec.start + rec.elapsed;
      if finish > next.latest {
        next := next.(latest := finish);
      }
    } else {
      next := next.(unstamped := Max(next.unstamped, rec.elapsed));
    }
  }

  /** The part of the loop that keeps a pair of flags: sent and pricedAll, timed and reusedAll. */
  method Poll(vote: Vote, votes: bool, says: bool) returns (next: Vote)
    ensures next == JoinVote(vote, VoteOf(votes, says))
  {
    next := vote;
    if votes {
      next := Vote(true, vote.all && says);
    }
  }

  /** sumRecords, as it is written: one pass over the records, and the names after it. */
  method SumRecords(records: seq<Record>) returns (total: Record)
    ensures total == Total(records)
  {
    if |records| == 0 {
      return ZERO_RECORD;
    }
    var first := records[0];
    var counts, tokens, cost, timing := ZERO_RECORD.counts, ZERO_RECORD.tokens, ZERO_RECORD.cost, ZERO_RECORD.timing;
    var requested, delivered, typed, hedged, estimated := first.requested, first.delivered, true, false, false;
    var err: Option<nat> := None;
    var priced, reused := Vote(false, true), Vote(false, true);
    var span := Span(0, 0, 0);
    ghost var sum := Start(first);
    for i := 0 to |records|
      invariant span.latest >= 0
      invariant sum == Summary(ZERO_NAMES, span, counts, tokens, cost, timing, priced, reused,
                               estimated, hedged, typed, requested, delivered, err)
      invariant IsSum(sum, first, records[..i])
    {
      var rec := records[i];
      SumOfOneMore(sum, records, i);
      sum := Merge(sum, SummaryOf(rec));
      if err.None? {
        err := rec.err;
      }
      span := Stretch(span, rec);
      counts := AddCounts(counts, rec.counts);
      hedged := hedged || rec.hedged;
      requested := Min(requested, rec.requested);
      delivered := Min(delivered, rec.delivered);
      typed := typed && rec.typed;
      tokens := AddUsage(tokens, rec.tokens);
      cost := AddSpend(cost, rec.cost);
      priced := Poll(priced, rec.counts.requests > 0, rec.priced);
      estimated := estimated || rec.estimated;
      timing := AddTiming(timing, rec.timing);
      reused := Poll(reused, rec.timing.calls > 0, rec.reused);
    }
    assert records[..|records|] == records;
    NamesOfSummary(records);
    var names := AgreedNames(records);
    total := Record(names, span.earliest, Length(span), counts, tokens, cost, timing,
                    priced.some && priced.all, estimated, reused.some && reused.all, hedged, typed,
                    requested, delivered, err);
  }
}
