/**
 * The queue-manager manifest (`resources/qmgr_dump.csv`): one row per MQ
 * object with the host and queue manager that own it, read from disk once
 * and then served from a module-level cache.
 */
module Manifest {
  import opened Wrappers
  import opened Text

  /** One manifest row after the column renames (`qmname`, `objecttype`, `objectdef`). */
  datatype Row = Row(
    extractedAt: string,
    hostname: string,
    qmgr: string,
    objectType: string,
    mqscCommand: string)

  type Table = seq<Row>

  /** What the file system holds at `CSV_PATH`: nothing, something the parser rejects, or parsed rows. */
  datatype DiskState = Missing | Unreadable | Present(rows: seq<Row>)

  /** Every cell with its surrounding whitespace removed. */
  function StripRow(r: Row): (s: Row)
  {
    Row(Strip(r.extractedAt), Strip(r.hostname), Strip(r.qmgr), Strip(r.objectType), Strip(r.mqscCommand))
  }

  predicate IsStrippedCell(c: string) { Strip(c) == c }

  predicate IsStrippedRow(r: Row)
  {
    IsStrippedCell(r.extractedAt) && IsStrippedCell(r.hostname) && IsStrippedCell(r.qmgr)
    && IsStrippedCell(r.objectType) && IsStrippedCell(r.mqscCommand)
  }

  lemma StripRowIsStripped(r: Row)
    ensures IsStrippedRow(StripRow(r))
  {
    StripIdempotent(r.extractedAt);
    StripIdempotent(r.hostname);
    StripIdempotent(r.qmgr);
    StripIdempotent(r.objectType);
    StripIdempotent(r.mqscCommand);
  }

  /** `df.map(lambda x: x.strip() ...)` over the parsed rows. */
  function StripRows(rows: seq<Row>): (t: seq<Row>)
    ensures |t| == |rows|
    ensures forall i | 0 <= i < |rows| :: t[i] == StripRow(rows[i])
    ensures forall i | 0 <= i < |t| :: IsStrippedRow(t[i])
  {
    if rows == [] then []
    else
      StripRowIsStripped(rows[0]);
      [StripRow(rows[0])] + StripRows(rows[1..])
  }

  /**
   * `_load_csv_from_disk`: a missing or unreadable file gives the empty
   * table instead of an exception; otherwise the parsed rows, in file order,
   * with every cell stripped.
   */
  function LoadFromDisk(disk: DiskState): (t: Table)
    ensures !disk.Present? ==> t == []
    ensures disk.Present? ==> |t| == |disk.rows|
    ensures forall i | 0 <= i < |t| :: IsStrippedRow(t[i])
  {
    match disk
    case Missing => []
    case Unreadable => []
    case Present(rows) => StripRows(rows)
  }

  /** A row of the loaded table is its file row with the cells stripped. */
  lemma LoadedRowIsStrippedFileRow(rows: seq<Row>, i: nat)
    requires i < |rows|
    ensures i < |LoadFromDisk(Present(rows))| && LoadFromDisk(Present(rows))[i] == StripRow(rows[i])
  {
  }

  /**
   * The module global `_CSV_CACHE` together with `load_csv`.  The ghost
   * counter records how often the file was read.
   */
  class CsvCache {
    var cache: Option<Table>
    ghost var diskReads: nat

    ghost predicate Valid()
      reads this
    {
      (cache.None? <==> diskReads == 0) && diskReads <= 1
    }

    /** Module import: nothing cached, nothing read. */
    constructor ()
      ensures Valid() && cache == None && diskReads == 0
    {
      cache := None;
      diskReads := 0;
    }

    /**
     * `load_csv`: the first call reads the disk and caches whatever it got,
     * the empty table included; later calls return the cached table and
     * never look at the disk again.
     */
    method LoadCsv(disk: DiskState) returns (t: Table)
      requires Valid()
      modifies this
      ensures Valid()
      ensures old(cache).Some? ==> t == old(cache).value && cache == old(cache) && diskReads == old(diskReads)
      ensures old(cache).None? ==> t == LoadFromDisk(disk) && cache == Some(t) && diskReads == 1
    {
      if cache.None? {
        cache := Some(LoadFromDisk(disk));
        diskReads := diskReads + 1;
      }
      t := cache.value;
    }
  }

  /** Two calls with whatever disk contents in between return the same table and read the disk once. */
  method LoadTwice(c: CsvCache, first: DiskState, second: DiskState) returns (t1: Table, t2: Table)
    requires c.Valid()
    modifies c
    ensures t1 == t2 && c.diskReads == 1
    ensures old(c.cache).None? ==> t1 == LoadFromDisk(first)
  {
    t1 := c.LoadCsv(first);
    t2 := c.LoadCsv(second);
  }
}
