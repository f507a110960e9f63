/** Exporting a found set page by page, through the buffer that collects CSV columns when the layout has no metadata. */
module ExportPaging {
  import opened Common

  /** A record as the exporter sees it: an identity and the field names it holds, in order. */
  datatype Record = Record(recordId: string, names: seq<string>)

  datatype Format = Jsonl | Csv

  datatype PerformanceMode = Standard | HighScale

  /** What the caller asks for; numbers may be anything, or missing. */
  datatype Options = Options(maxRecords: Option<real>, pageSize: Option<real>, format: Format)

  predicate PositiveWhole(value: real) { value > 0.0 && value.Floor as real == value }

  function NormalizeMaxRecords(value: real): (n: nat)
    ensures 1 <= n <= 250000
  {
    if !PositiveWhole(value) then 10000 else Min(value.Floor, 250000)
  }

  function NormalizePageSize(value: Option<real>, mode: PerformanceMode): (n: nat)
    ensures 1 <= n <= if mode.HighScale? then 1000 else 500
  {
    if value.None? || !PositiveWhole(value.value) then (if mode.HighScale? then 400 else 100)
    else Min(value.value.Floor, if mode.HighScale? then 1000 else 500)
  }

  /** How many records an export writes at most: a missing or zero option leaves it to the configured number. */
  function MostRecords(options: Options, configured: real): (n: nat)
    ensures 1 <= n <= 250000
  {
    NormalizeMaxRecords(if options.maxRecords.None? || options.maxRecords.value == 0.0 then configured else options.maxRecords.value)
  }

  function FormatOf(options: Options, mode: PerformanceMode): Format { if mode.HighScale? then Jsonl else options.format }

  /** What the server answers for a found set that does not change: offsets count from one. */
  function Page(found: seq<Record>, offset: nat, limit: nat): seq<Record>
    requires 1 <= offset
  {
    var from := Min(offset - 1, |found|);
    found[from..Min(from + limit, |found|)]
  }

  /** The records an export is asked for. */
  function Wanted(found: seq<Record>, offset: nat, maxRecords: nat): seq<Record>
    requires 1 <= offset
  {
    Page(found, offset, maxRecords)
  }

  /** The values of a list without repetitions, in order of first appearance. */
  function Distinct(names: seq<string>): (d: seq<string>)
    ensures forall n :: n in d <==> n in names
    ensures forall i, j :: 0 <= i < j < |d| ==> d[i] != d[j]
  {
    if names == [] then []
    else
      var rest := Distinct(names[..|names| - 1]);
      var last := names[|names| - 1];
      assert forall n :: n in names <==> n in names[..|names| - 1] || n == last;
      if last in rest then rest else rest + [last]
  }

  function NamesOf(records: seq<Record>): seq<string> {
    if records == [] then [] else NamesOf(records[..|records| - 1]) + records[|records| - 1].names
  }

  function FirstHundred(records: seq<Record>): seq<Record> { records[..Min(100, |records|)] }

  /** The columns of a CSV export: the layout's fields and the first page's, or the first hundred records'. */
  function Columns(fields: Option<seq<string>>, firstPage: seq<Record>, records: seq<Record>): seq<string> {
    if fields.Some? then Distinct(fields.value + NamesOf(firstPage)) else Distinct(NamesOf(FirstHundred(records)))
  }

  /** The file that was written: its columns (CSV only) and its rows. */
  datatype File = File(columns: Option<seq<string>>, rows: seq<Record>)

  datatype Result = Result(cancelled: bool, exported: nat, truncated: bool, file: File)

  /** A page continues where the pages before it ended; a short one is the last. */
  lemma PagesJoin(found: seq<Record>, first: nat, done: nat, limit: nat, maxRecords: nat)
    requires 1 <= first && |Page(found, first, done)| == done && done + limit <= maxRecords
    ensures var page := Page(found, first + done, limit);
            && |page| <= limit
            && Page(found, first, done) + page == Page(found, first, done + |page|)
            && |Page(found, first, done + |page|)| == done + |page|
            && (|page| < limit ==> Page(found, first, done + |page|) == Wanted(found, first, maxRecords)
                                   && |found| < first - 1 + maxRecords)
  {}

  lemma NothingYet(found: seq<Record>, first: nat)
    requires 1 <= first
    ensures Page(found, first, 0) == []
  {}

  lemma ProbeTells(found: seq<Record>, first: nat, done: nat)
    requires 1 <= first && |Page(found, first, done)| == done
    ensures |Page(found, first + done, 1)| > 0 <==> |found| > first - 1 + done
  {}

  /** A name for the note column that no field uses. */
  method NoteColumn(names: seq<string>) returns (note: string)
    ensures note !in names
  {
    note := "__portalNote (export information)";
    ghost var taken := Longest(names);
    while note in names
      decreases taken + 1 - |note|
    {
      LongestBounds(names, note);
      note := "_" + note;
    }
  }

  ghost function Longest(names: seq<string>): nat {
    if names == [] then 0
    else if |names[0]| > Longest(names[1..]) then |names[0]| else Longest(names[1..])
  }

  lemma {:induction false} LongestBounds(names: seq<string>, name: string)
    requires name in names
    ensures |name| <= Longest(names)
  {
    if name != names[0] { LongestBounds(names[1..], name); }
  }

  /** The file writers with the buffer in front of them. */
  class Writer {
    const format: Format
    const fields: Option<seq<string>>
    var columns: Option<seq<string>>
    var rows: seq<Record>
    var pendingCsv: seq<Record>

    /** Everything handed over so far, written or waiting. */
    ghost function Taken(): seq<Record>
      reads this
    {
      rows + pendingCsv
    }

    /** Records wait only while the columns of a CSV file are unknown, and never a hundred of them. */
    ghost predicate Valid()
      reads this
    {
      && (format.Jsonl? || columns.Some? ==> pendingCsv == [])
      && (format.Jsonl? ==> columns.None?)
      && (format.Csv? && columns.None? ==> rows == [] && |pendingCsv| < 100)
      && (format.Csv? && columns.Some? && fields.None? ==> columns.value == Columns(None, [], Taken()) && |rows| >= 100)
    }

    constructor (format: Format, fields: Option<seq<string>>)
      ensures Valid() && Taken() == [] && columns == None && this.format == format && this.fields == fields
    {
      this.format, this.fields := format, fields;
      columns, rows, pendingCsv := None, [], [];
    }

    method StartCsv(records: seq<Record>)
      requires format.Csv?
      modifies this`columns
      ensures columns == Some(Columns(fields, records, records))
    {
      if fields.Some? { columns := Some(Distinct(fields.value + NamesOf(records))); }
      else { columns := Some(Distinct(NamesOf(FirstHundred(records)))); }
    }

    method Append(record: Record)
      requires Valid() && (format.Csv? && fields.Some? ==> columns.Some?)
      modifies this
      ensures Valid() && Taken() == old(Taken()) + [record]
      ensures old(columns).Some? ==> columns == old(columns)
    {
      ghost var before := Taken();
      if format.Jsonl? || columns.Some? {
        rows := rows + [record];
        assert FirstHundred(Taken()) == FirstHundred(before) || |before| < 100;
      } else {
        pendingCsv := pendingCsv + [record];
        if |pendingCsv| >= 100 {
          StartCsv(pendingCsv);
          rows := pendingCsv;
          pendingCsv := [];
          assert Taken() == rows;
        }
      }
    }

    /** Writes what still waits, as closing the file does. */
    method Close() returns (file: File)
      requires Valid()
      modifies this
      ensures file.rows == old(Taken())
      ensures format.Jsonl? ==> file.columns == None
      ensures format.Csv? ==>
                file.columns == if fields.Some? && old(columns).Some? then old(columns)
                                else Some(Columns(fields, old(Taken()), old(Taken())))
    {
      if format.Csv? && columns.None? {
        StartCsv(pendingCsv);
        rows := pendingCsv;
        pendingCsv := [];
      }
      file := File(columns, rows);
    }
  }

  method AppendPage(writer: Writer, page: seq<Record>)
    requires writer.Valid() && (writer.format.Csv? && writer.fields.Some? ==> writer.columns.Some?)
    modifies writer
    ensures writer.Valid() && writer.Taken() == old(writer.Taken()) + page
    ensures old(writer.columns).Some? ==> writer.columns == old(writer.columns)
  {
    for i := 0 to |page|
      invariant writer.Valid() && writer.Taken() == old(writer.Taken()) + page[..i]
      invariant old(writer.columns).Some? ==> writer.columns == old(writer.columns)
    {
      writer.Append(page[i]);
      assert page[..i + 1] == page[..i] + [page[i]];
    }
    assert page[..|page|] == page;
  }

  /**
   * The export loop. `cancelFrom` is the number of times the job is asked about cancellation before it
   * says yes, and yes from then on; `probeFails` makes the last request for one more record fail.
   */
  method BatchExportFind(found: seq<Record>, startAt: Option<nat>, options: Options, configured: real, mode: PerformanceMode,
                         fields: Option<seq<string>>, cancelFrom: nat, probeFails: bool)
    returns (r: Result, ghost asked: nat)
    requires startAt.Some? ==> 1 <= startAt.value
    ensures r.cancelled <==> cancelFrom < asked
    ensures r.cancelled ==> r.exported == 0 && !r.truncated && r.file.rows == []
    ensures var offset := if startAt.Some? then startAt.value else 1;
            var maxRecords := MostRecords(options, configured);
            !r.cancelled ==>
              && r.file.rows == Wanted(found, offset, maxRecords) && r.exported == |r.file.rows|
              && (!probeFails ==> (r.truncated <==> |found| > offset - 1 + maxRecords))
              && (r.truncated ==> r.exported == maxRecords)
              && r.file.columns
                 == if FormatOf(options, mode).Jsonl? then None
                    else Some(Columns(fields, Page(found, offset, Min(NormalizePageSize(options.pageSize, mode), maxRecords)), r.file.rows))
  {
    hide Page, Distinct, NamesOf, MostRecords, NormalizePageSize, FormatOf;
    var maxRecords := MostRecords(options, configured);
    var pageSize := NormalizePageSize(options.pageSize, mode);
    var format := FormatOf(options, mode);
    var exported := 0;
    var offset := if startAt.Some? then startAt.value else 1;
    ghost var first := offset;
    ghost var firstPage := Page(found, first, Min(pageSize, maxRecords));
    NothingYet(found, first);
    var truncated := false;
    var writer := new Writer(format, fields);
    var checks := 0;
    ghost var complete := false;
    while exported < maxRecords
      invariant exported <= maxRecords && offset == first + exported && checks <= cancelFrom
      invariant writer.Valid() && writer.Taken() == Page(found, first, exported) && |writer.Taken()| == exported
      invariant writer.format == format && writer.fields == fields && fresh(writer)
      invariant format.Csv? && fields.Some? ==>
                  writer.columns == if exported == 0 then None else Some(Columns(fields, firstPage, []))
      decreases maxRecords - exported
    {
      checks := checks + 1;
      if checks > cancelFrom { break; }
      var limit := Min(pageSize, maxRecords - exported);
      var page := Page(found, offset, limit);
      if format.Csv? && fields.Some? && writer.columns.None? { writer.StartCsv(page); }
      PagesJoin(found, first, exported, limit, maxRecords);
      if |page| == 0 {
        complete := true;
        break;
      }
      AppendPage(writer, page);
      exported := exported + |page|;
      offset := offset + |page|;
      if |page| < limit {
        complete := true;
        break;
      }
    }
    assert complete || exported == maxRecords ==> writer.Taken() == Wanted(found, first, maxRecords);
    if exported >= maxRecords {
      checks := checks + 1;
      ProbeTells(found, first, exported);
      if checks <= cancelFrom { truncated := probeFails || |Page(found, offset, 1)| > 0; }
    }
    checks := checks + 1;
    asked := checks;
    if checks > cancelFrom {
      return Result(true, 0, false, File(None, [])), asked;
    }
    var file := writer.Close();
    r := Result(false, exported, truncated, file);
  }
}
