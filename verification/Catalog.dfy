/** Which tables a run covers and how each is configured: src/catalog.rs. */
module Catalog {
  import opened Wrappers
  import opened Names

  datatype TableSync = TableSync(table: string, watermarkColumn: string, primaryKey: seq<string>)

  datatype ConfigError =
    | MissingWatermark(table: string)
    | MissingPrimaryKey(table: string)
    | DuplicateTable

  function Validate(t: TableSync): Result<(), ConfigError> {
    if Blank(t.watermarkColumn) then Err(MissingWatermark(t.table))
    else if forall i | 0 <= i < |t.primaryKey| :: Blank(t.primaryKey[i]) then Err(MissingPrimaryKey(t.table))
    else Ok(())
  }

  predicate WellConfigured(t: TableSync) {
    !Blank(t.watermarkColumn) && exists i | 0 <= i < |t.primaryKey| :: !Blank(t.primaryKey[i])
  }

  /** The first `n` entries are usable and name different tables. */
  predicate WellFormed(tables: seq<TableSync>, n: nat)
    requires n <= |tables|
  {
    && (forall i | 0 <= i < n :: WellConfigured(tables[i]))
    && (forall i, j | 0 <= i < j < n :: tables[i].table != tables[j].table)
  }

  class SyncCatalog {
    const tables: seq<TableSync>

    constructor (tables: seq<TableSync>)
      ensures this.tables == tables
    {
      this.tables := tables;
    }
  }

  /** The first entry the catalog cannot take, and why. */
  predicate FirstBadTable(tables: seq<TableSync>, i: nat, e: ConfigError) {
    && i < |tables|
    && WellFormed(tables, i)
    && (if !WellConfigured(tables[i]) then
          e == if Blank(tables[i].watermarkColumn) then MissingWatermark(tables[i].table)
               else MissingPrimaryKey(tables[i].table)
        else e == DuplicateTable && exists j | 0 <= j < i :: tables[j].table == tables[i].table)
  }

  /**
   * `SyncCatalog::new`: a catalog exactly when every entry is usable and no table is named
   * twice; otherwise the error of the first entry at fault, unusable before duplicate.
   */
  method NewCatalog(tables: seq<TableSync>) returns (r: Result<SyncCatalog, ConfigError>)
    ensures r.Ok? <==> WellFormed(tables, |tables|)
    ensures r.Ok? ==> r.value.tables == tables
    ensures r.Err? ==> exists i | 0 <= i < |tables| :: FirstBadTable(tables, i, r.error)
  {
    var seen: set<string> := {};
    var i := 0;
    while i < |tables|
      invariant i <= |tables|
      invariant WellFormed(tables, i)
      invariant forall name :: name in seen <==> exists j | 0 <= j < i :: tables[j].table == name
    {
      var t := tables[i];
      var checked := Validate(t);
      if checked.Err? {
        assert !WellConfigured(t);
        assert FirstBadTable(tables, i, checked.error);
        return Err(checked.error);
      }
      assert WellConfigured(t);
      if t.table in seen {
        assert FirstBadTable(tables, i, DuplicateTable);
        return Err(DuplicateTable);
      }
      seen := seen + {t.table};
      i := i + 1;
    }
    var catalog := new SyncCatalog(tables);
    return Ok(catalog);
  }
}
