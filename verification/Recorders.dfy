/** The recorder that keeps the records of many calls, or hands them on (Recorder,
    v2/recorder.go). */
module Recorders {
  import opened Common
  import opened Records
  import RecordLaws

  /** The exported fields of a recorder, and what is made of them at its first use: a refused answer is kept
      when that is asked for under a size that is not negative, and a size of zero is the default. */
  datatype Fields = Fields(decisions: bool, bodies: bool, maxBody: int, handle: bool)

  const DEFAULT_MAX_BODY := 4096

  function Frozen(f: Fields): Fields {
    Fields(f.decisions, f.bodies && f.maxBody >= 0, if f.maxBody == 0 then DEFAULT_MAX_BODY else f.maxBody, f.handle)
  }

  class Recorder {
    /** The caller's fields, which the caller may still change. */
    var fields: Fields
    /** The settings as they were at the first use. */
    var settings: Option<Fields>
    var records: seq<Record>

    /** A recorder with a Handle keeps nothing, whatever is done to its fields after the first use. */
    ghost predicate Valid()
      reads this
    {
      && (settings.None? ==> records == [])
      && (settings.Some? && settings.value.handle ==> records == [])
    }

    constructor (fields: Fields)
      ensures Valid() && this.fields == fields && settings.None? && records == []
    {
      this.fields, settings, records := fields, None, [];
    }

    /** What read makes of the fields: the first use decides, and no later one. */
    ghost function Settings(): Fields
      reads this
    {
      if settings.Some? then settings.value else Frozen(fields)
    }

    method Read() returns (s: Fields)
      requires Valid()
      modifies this`settings
      ensures Valid() && s == old(Settings()) && settings == Some(s)
      ensures old(settings).Some? ==> s == old(settings).value
      ensures old(settings).None? ==>
        && s.decisions == fields.decisions && s.handle == fields.handle
        && (s.bodies <==> fields.bodies && fields.maxBody >= 0)
        && s.maxBody == if fields.maxBody == 0 then 4096 else fields.maxBody
    {
      if settings.None? {
        settings := Some(Frozen(fields));
      }
      s := settings.value;
    }

    /** The record of one call, which is handed to Handle or kept behind those before it. */
    method Add(rec: Record) returns (handed: seq<Record>)
      requires Valid()
      modifies this`settings, this`records
      ensures Valid() && settings == Some(old(Settings()))
      ensures settings.Some? && settings.value.handle
        == if old(settings).Some? then old(settings).value.handle else old(fields).handle
      ensures old(Settings().handle) ==> handed == [rec] && records == old(records)
      ensures !old(Settings().handle) ==> handed == [] && records == old(records) + [rec]
    {
      var s := Read();
      if s.handle {
        return [rec];
      }
      records := records + [rec];
      handed := [];
    }

    method Total() returns (total: Record)
      requires Valid()
      ensures total == Records.Total(records)
      ensures settings.Some? && settings.value.handle ==> total == ZERO_RECORD
    {
      total := RecordLaws.SumRecords(records);
    }

    method Reset()
      requires Valid()
      modifies this`records
      ensures Valid() && records == []
    {
      records := [];
    }
  }

  lemma OneMoreCovers(records: seq<Record>, rec: Record)
    requires records != []
    ensures RecordLaws.Covers(Summarize([Total(records), rec]), Summarize(records + [rec]))
    ensures RecordLaws.Stamped(records) ==> Summarize([Total(records), rec]) == Summarize(records + [rec])
  {
    var whole, last := Summarize(records), SummaryOf(rec);
    RecordLaws.TotalCovers(records);
    RecordLaws.OfTwo(Total(records), rec);
    SummarizeConcat(records, [rec]);
    assert Summarize([rec]) == last;
    RecordLaws.MergeKeepsCover(SummaryOf(Total(records)), whole, last, last);
  }

  /** What Add does to Total: the total of the records kept so far stands in for all of them, in every
      field but Elapsed, and in Elapsed too when they have starts. */
  lemma TotalOfOneMore(records: seq<Record>, rec: Record)
    requires records != []
    ensures Total([Total(records), rec]).(elapsed := 0) == Total(records + [rec]).(elapsed := 0)
    ensures Total([Total(records), rec]).elapsed >= Total(records + [rec]).elapsed
    ensures RecordLaws.Stamped(records) ==> Total([Total(records), rec]) == Total(records + [rec])
  {
    OneMoreCovers(records, rec);
    RecordLaws.CoverFinishes(Summarize([Total(records), rec]), Summarize(records + [rec]));
  }
}
