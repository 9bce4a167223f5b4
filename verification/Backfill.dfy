/** The two halves of a bulk backfill, `source_watermark` and `set_checkpoint` of src/pipeline.rs. */
module Backfill {
  import opened Wrappers
  import opened Merge
  import opened Query
  import opened Protocol
  import Names
  import opened Catalog
  import RecordBatches
  import opened Sync

  /** The checks made before the source is asked, in their order. */
  function CaptureChecked(t: TableSync): Result<(), SyncError> {
    if Validate(t).Err? then Err(Config(Validate(t).error))
    else if !Names.SafeName(t.watermarkColumn) then Err(UnsafeTableName(t.watermarkColumn))
    else if !Names.Accepted(t.table) then Err(UnsafeTableName(Names.ParseQualified(t.table).error.name))
    else Ok(())
  }

  /** Which configurations a capture is made for: the key columns' names are not looked at. */
  lemma CaptureCheckedExactly(t: TableSync)
    ensures CaptureChecked(t).Ok? <==>
            WellConfigured(t) && Names.SafeName(t.watermarkColumn) && Names.Accepted(t.table)
    ensures CaptureChecked(t).Err? ==>
      match CaptureChecked(t).error
      case Config(e) =>
        !WellConfigured(t)
        && e == (if Names.Blank(t.watermarkColumn) then MissingWatermark(t.table) else MissingPrimaryKey(t.table))
      case UnsafeTableName(name) =>
        WellConfigured(t)
        && if !Names.SafeName(t.watermarkColumn) then name == t.watermarkColumn
           else !Names.Accepted(t.table) && name == Names.ParseQualified(t.table).error.name
      case _ => false
  {
    hide Names.SafeName, Names.ParseQualified, Names.Blank;
  }

  /**
   * `source_watermark`: the maximum of the watermark column as the source is now, or an error
   * and nothing captured.
   */
  method SourceWatermark(w: World, t: TableSync, columns: seq<RecordBatches.Field>, reaches: bool)
    returns (r: Result<Option<int>, TableError>)
    requires w.Valid()
    modifies w
    ensures w.Valid()
    ensures r.Ok? <==> CaptureChecked(t).Ok? && reaches && Has(columns, t.watermarkColumn)
    ensures r.Ok? ==> IsMaximum(r.value, old(w.source)) && w.Now() == Apply(old(w.Now()), Capture(r.value))
    ensures r.Ok? ==> w.log == old(w.log) + [Capture(r.value)]
    ensures r.Err? ==> w.Now() == old(w.Now()) && w.log == old(w.log)
  {
    hide World.Valid;
    var checked := CaptureChecked(t);
    if checked.Err? {
      return Err(Failed(checked.error));
    }
    if !reaches {
      return Err(Unreachable);
    }
    if columns == [] {
      return Err(Failed(TableNotFound(t.table)));
    }
    if !Has(columns, t.watermarkColumn) {
      return Err(Failed(ColumnNotFound(t.watermarkColumn)));
    }
    var top := w.Capture();
    return Ok(top);
  }

  /**
   * `set_checkpoint`: unless a commit comes in between, the value is recorded whatever it is,
   * or the call fails and records nothing. With a value whose rows are in Delta this is a
   * step of the protocol; with any other, `Skipping` says which rows later runs pass by.
   */
  method SetCheckpoint(w: World, t: TableSync, value: int, at: int, loads: bool, creates: bool, stores: bool,
                       others: seq<Event>)
    returns (r: Result<(), SyncError>, ghost happened: seq<Event>)
    requires w.Valid()
    modifies w, w.data, w.marks
    ensures History(old(w.Now()), happened)
    ensures var mid := After(old(w.Now()), happened);
            && (r.Ok? ==> w.Now() == Marked(mid, value, at) && Stored(w.marks.Value()) == Some(value))
            && (r.Ok? && Safe(mid, Some(value)) ==> w.Valid())
            && (r.Err? ==> w.Now() == mid && w.Valid())
            && (r.Ok? <==>
                  && Validate(t).Ok? && Names.Accepted(t.table)
                  && stores && (if old(w.marks.commits) != 0 then loads else creates)
                  && mid.marks.commits == Opened(old(w.marks.Value())).commits)
    ensures others == [] ==> happened <= [SetMark(value, at, false)]
  {
    happened := [];
    if Validate(t).Err? {
      return Err(Config(Validate(t).error)), happened;
    }
    if !Names.Accepted(t.table) {
      return Err(UnsafeTableName(Names.ParseQualified(t.table).error.name)), happened;
    }
    hide World.Valid, Safe, Names.Accepted;
    var written;
    written, happened := w.SetMark(value, at, loads, creates, stores, others);
    r := if written.Ok? then Ok(()) else Err(NotWritten(written.error));
  }
}
