/** The Record of a call and the sum of many (sumRecords, v2/record_convert.go; Recorder,
    v2/recorder.go; SumInt, v2/internal/types/limits.go). Costs are reals, and moments are whole
    numbers of nanoseconds with 0 for the zero Time. */
module Records {
  import opened Common

  const MAX_INT := 0x7fff_ffff_ffff_ffff
  const MIN_INT := -0x8000_0000_0000_0000

  type Int64 = x: int | MIN_INT <= x <= MAX_INT

  /** A count of a Record, or a duration of its timing. */
  type Count = x: int | 0 <= x <= MAX_INT

  /** A sum of the machine's integers, which wraps round. */
  function Wrapped(x: int): (r: Int64) {
    var r := x % 0x1_0000_0000_0000_0000;
    if r > MAX_INT then r - 0x1_0000_0000_0000_0000 else r
  }

  function Clamped(x: int): Int64 {
    if x > MAX_INT then MAX_INT else if x < MIN_INT then MIN_INT else x
  }

  /** types.SumInt and types.SumDuration: the wrapped sum tells that it wrapped by its sign. */
  function SumInt(a: Int64, b: Int64): (r: Int64)
    ensures r == Clamped(a + b)
  {
    var sum := Wrapped(a + b);
    if a > 0 && b > 0 && sum < 0 then MAX_INT
    else if a < 0 && b < 0 && sum >= 0 then MIN_INT
    else sum
  }

  /** Counts that may be negative are not added up the same in every order, which is why the laws
      below are of counts. */
  lemma NegativeCountsDependOnOrder()
    ensures SumInt(SumInt(MAX_INT, 1), -1) != SumInt(MAX_INT, SumInt(1, -1))
  {
  }

  /** What SumInt is on counts. */
  function Add(a: Count, b: Count): Count { if a + b > MAX_INT then MAX_INT else a + b }

  lemma SumIntOfCounts(a: Count, b: Count)
    ensures SumInt(a, b) == Add(a, b)
  {
  }

  // ---------------------------------------------------------------- the record

  datatype Usage = Usage(input: Count, output: Count, total: Count, cached: Count, cacheWrite: Count, reasoning: Count)

  datatype Spend = Spend(total: real, input: real, output: real, cached: real, reasoning: real)

  datatype Timing = Timing(calls: Count, queued: Count, lookup: Count, connect: Count, handshake: Count,
                           send: Count, wait: Count, read: Count, network: Count)

  datatype Counts = Counts(requests: Count, retries: Count, repairs: Count, cacheHits: Count)

  /** The fields that are set in a sum when every record agrees on them: Op, Provider, Model,
      RequestedModel, ServiceTier, RequestID, CorrelationID, SchemaID, Strategy, AnsweredBy, AskedFirst,
      Escalated, Cost.Currency and Cost.Source, in this order. */
  const FIELDS: nat := 14

  type Field = f: nat | f < FIELDS

  type Names = s: seq<string> | |s| == FIELDS witness ["", "", "", "", "", "", "", "", "", "", "", "", "", ""]

  datatype Record = Record(
    names: Names, start: int, elapsed: nat, counts: Counts, tokens: Usage, cost: Spend, timing: Timing,
    priced: bool, estimated: bool, reused: bool, hedged: bool, typed: bool,
    requested: int, delivered: int, err: Option<nat>)

  /** Some records, and not none. */
  type Recorded = s: seq<Record> | |s| > 0 witness [ZERO_RECORD]

  // ---------------------------------------------------------------- what a sum is

  function AddUsage(a: Usage, b: Usage): Usage {
    Usage(Add(a.input, b.input), Add(a.output, b.output), Add(a.total, b.total), Add(a.cached, b.cached),
          Add(a.cacheWrite, b.cacheWrite), Add(a.reasoning, b.reasoning))
  }

  function AddSpend(a: Spend, b: Spend): Spend {
    Spend(a.total + b.total, a.input + b.input, a.output + b.output, a.cached + b.cached, a.reasoning + b.reasoning)
  }

  function AddTiming(a: Timing, b: Timing): Timing {
    Timing(Add(a.calls, b.calls), Add(a.queued, b.queued), Add(a.lookup, b.lookup), Add(a.connect, b.connect),
           Add(a.handshake, b.handshake), Add(a.send, b.send), Add(a.wait, b.wait), Add(a.read, b.read),
           Add(a.network, b.network))
  }

  function AddCounts(a: Counts, b: Counts): Counts {
    Counts(Add(a.requests, b.requests), Add(a.retries, b.retries), Add(a.repairs, b.repairs),
           Add(a.cacheHits, b.cacheHits))
  }

  function Agree(a: string, b: string): string { if a == b then a else "" }

  function AgreeNames(a: Names, b: Names): Names {
    seq(FIELDS, f requires 0 <= f < FIELDS => Agree(a[f], b[f]))
  }

  /** The moments some stamped records ran between, 0 for a moment there is none of, and the longest
      of the records with no start. */
  datatype Span = Span(earliest: int, latest: int, unstamped: nat)

  function Earlier(a: int, b: int): int { if a == 0 then b else if b == 0 then a else Min(a, b) }

  function JoinSpan(a: Span, b: Span): Span {
    Span(Earlier(a.earliest, b.earliest), Max(a.latest, b.latest), Max(a.unstamped, b.unstamped))
  }

  function SpanOf(r: Record): Span {
    if r.start != 0 then Span(r.start, Max(0, r.start + r.elapsed), 0) else Span(0, 0, r.elapsed)
  }

  /** What every record that asked for something said, and whether there was any. */
  datatype Vote = Vote(some: bool, all: bool)

  function JoinVote(a: Vote, b: Vote): Vote { Vote(a.some || b.some, a.all && b.all) }

  function VoteOf(votes: bool, says: bool): Vote { Vote(votes, votes ==> says) }

  /** What some records come to. */
  datatype Summary =
    | Nothing
    | Summary(names: Names, span: Span, counts: Counts, tokens: Usage, cost: Spend, timing: Timing,
              priced: Vote, reused: Vote, estimated: bool, hedged: bool, typed: bool,
              requested: int, delivered: int, err: Option<nat>)

  function SummaryOf(r: Record): Summary {
    Summary(r.names, SpanOf(r), r.counts, r.tokens, r.cost, r.timing,
            VoteOf(r.counts.requests > 0, r.priced), VoteOf(r.timing.calls > 0, r.reused),
            r.estimated, r.hedged, r.typed, r.requested, r.delivered, r.err)
  }

  function Merge(a: Summary, b: Summary): Summary {
    if a.Nothing? then b
    else if b.Nothing? then a
    else Summary(
      AgreeNames(a.names, b.names), JoinSpan(a.span, b.span), AddCounts(a.counts, b.counts),
      AddUsage(a.tokens, b.tokens), AddSpend(a.cost, b.cost), AddTiming(a.timing, b.timing),
      JoinVote(a.priced, b.priced), JoinVote(a.reused, b.reused),
      a.estimated || b.estimated, a.hedged || b.hedged, a.typed && b.typed,
      Min(a.requested, b.requested), Min(a.delivered, b.delivered), if a.err.Some? then a.err else b.err)
  }

  function Summarize(records: seq<Record>): Summary {
    if records == [] then Nothing else Merge(SummaryOf(records[0]), Summarize(records[1..]))
  }

  const ZERO_NAMES: Names := ["", "", "", "", "", "", "", "", "", "", "", "", "", ""]
  const ZERO_RECORD := Record(ZERO_NAMES, 0, 0, Counts(0, 0, 0, 0), Usage(0, 0, 0, 0, 0, 0), Spend(0.0, 0.0, 0.0,
    0.0, 0.0),
                              Timing(0, 0, 0, 0, 0, 0, 0, 0, 0), false, false, false, false, false, 0, 0, None)

  /** How long a span is: from the earliest start to the latest finish, and no shorter than a record
      with no start took. */
  function Length(s: Span): nat {
    Max(s.latest - s.earliest, s.unstamped)
  }

  function Finish(s: Summary): Record {
    if s.Nothing? then ZERO_RECORD
    else Record(s.names, s.span.earliest, Length(s.span), s.counts, s.tokens, s.cost, s.timing,
                s.priced.some && s.priced.all, s.estimated, s.reused.some && s.reused.all, s.hedged, s.typed,
                s.requested, s.delivered, s.err)
  }

  /** The sum of records, as Recorder.Total says it. */
  function Total(records: seq<Record>): Record {
    Finish(Summarize(records))
  }

  // ---------------------------------------------------------------- summaries

  lemma UsageAssociates(a: Usage, b: Usage, c: Usage)
    ensures AddUsage(AddUsage(a, b), c) == AddUsage(a, AddUsage(b, c))
  {
  }

  lemma TimingAssociates(a: Timing, b: Timing, c: Timing)
    ensures AddTiming(AddTiming(a, b), c) == AddTiming(a, AddTiming(b, c))
  {
  }

  lemma CountsAssociate(a: Counts, b: Counts, c: Counts)
    ensures AddCounts(AddCounts(a, b), c) == AddCounts(a, AddCounts(b, c))
  {
  }

  lemma NamesAssociate(a: Names, b: Names, c: Names)
    ensures AgreeNames(AgreeNames(a, b), c) == AgreeNames(a, AgreeNames(b, c))
  {
  }

  lemma SpansAssociate(a: Span, b: Span, c: Span)
    ensures JoinSpan(JoinSpan(a, b), c) == JoinSpan(a, JoinSpan(b, c))
  {
  }

  lemma MergeAssociates(a: Summary, b: Summary, c: Summary)
    ensures Merge(Merge(a, b), c) == Merge(a, Merge(b, c))
  {
    if a.Summary? && b.Summary? && c.Summary? {
      UsageAssociates(a.tokens, b.tokens, c.tokens);
      TimingAssociates(a.timing, b.timing, c.timing);
      CountsAssociate(a.counts, b.counts, c.counts);
      NamesAssociate(a.names, b.names, c.names);
      SpansAssociate(a.span, b.span, c.span);
    }
  }

  lemma {:induction false} SummarizeConcat(a: seq<Record>, b: seq<Record>)
    ensures Summarize(a + b) == Merge(Summarize(a), Summarize(b))
  {
    if a == [] {
      assert a + b == b;
    } else {
      assert (a + b)[1..] == a[1..] + b;
      SummarizeConcat(a[1..], b);
      MergeAssociates(SummaryOf(a[0]), Summarize(a[1..]), Summarize(b));
    }
  }

  /** Merging but for the first error, which is the one thing the order of records decides. */
  function Unordered(s: Summary): Summary {
    match s
    case Nothing => Nothing
    case Summary(names, span, counts, tokens, cost, timing, priced, reused, estimated, hedged, typed, requested,
      delivered, _) =>
      Summary(names, span, counts, tokens, cost, timing, priced, reused, estimated, hedged, typed, requested,
        delivered, None)
  }

  lemma MergeCommutes(a: Summary, b: Summary)
    ensures Unordered(Merge(a, b)) == Unordered(Merge(b, a))
  {
  }

  lemma MergeUnordered(a: Summary, b: Summary)
    ensures Unordered(Merge(a, b)) == Merge(Unordered(a), Unordered(b))
  {
  }

  /** agreed: the value every record gives for a field when it is the same for all of them. */
  function Agreed(records: seq<Record>, f: Field): string
    requires records != []
  {
    if forall i | 0 <= i < |records| :: records[i].names[f] == records[0].names[f]
    then records[0].names[f] else ""
  }

  lemma AgreedStep(records: seq<Record>, f: Field)
    requires |records| > 1
    ensures Agreed(records, f) == Agree(records[0].names[f], Agreed(records[1..], f))
  {
    var rest := records[1..];
    assert forall i | 0 <= i < |rest| :: rest[i] == records[i + 1];
    if forall i | 0 <= i < |rest| :: rest[i].names[f] == rest[0].names[f] {
      assert forall i | 0 < i < |records| :: records[i].names[f] == rest[i - 1].names[f];
    } else {
      var i :| 0 <= i < |rest| && rest[i].names[f] != rest[0].names[f];
      assert records[i + 1].names[f] != records[1].names[f];
    }
  }

  /** The names of a sum, on their own. */
  function NamesOver(records: Recorded): Names
    decreases |records|
  {
    if |records| == 1 then records[0].names else AgreeNames(records[0].names, NamesOver(records[1..]))
  }

  lemma {:induction false} NamesOfSummary(records: seq<Record>)
    requires records != []
    ensures Summarize(records).Summary? && Summarize(records).names == NamesOver(records)
  {
    if |records| > 1 { NamesOfSummary(records[1..]); }
  }

  /** A field of a sum is what every record says of it, or nothing when they differ. */
  lemma {:induction false} NamesAgree(records: seq<Record>, f: Field)
    requires records != []
    ensures NamesOver(records)[f] == Agreed(records, f)
  {
    if |records| > 1 {
      NamesAgree(records[1..], f);
      AgreedStep(records, f);
    }
  }
}
