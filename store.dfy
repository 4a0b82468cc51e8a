/** The `emissions` table and the two ways records get into it: a manual
    entry appends one row, a bulk upload replaces the whole table. */
module Store {
  import opened Records

  /** The columns an uploaded table must carry, in the order they are kept. */
  const RequiredColumns: seq<string> := [
    "business_id", "business_type", "date", "source_category", "activity",
    "amount", "unit", "emission_factor", "scope"]

  /** A parsed upload: the header's column names and one entry per data row. */
  datatype Table = Table(columns: set<string>, rows: seq<Entry>)

  /** Every name of `need` is among `have`. */
  function AllPresent(need: seq<string>, have: set<string>): (ok: bool)
    ensures ok <==> forall i :: 0 <= i < |need| ==> need[i] in have
  {
    if need == [] then true
    else need[0] in have && AllPresent(need[1..], have)
  }

  /** The upload's column check. */
  function HasRequiredColumns(columns: set<string>): (ok: bool)
    ensures ok <==> (set c | c in RequiredColumns) <= columns
  {
    AllPresent(RequiredColumns, columns)
  }

  /** The rows an upload writes: every entry gets its emissions computed and
      the caller's identity, in the upload's order. */
  function StampAll(es: seq<Entry>, userId: string): (rs: seq<EmissionRecord>)
    ensures |rs| == |es|
    ensures forall i :: 0 <= i < |es| ==>
      Derived(rs[i]) && rs[i].userId == userId && EntryOf(rs[i]) == es[i]
  {
    if es == [] then [] else [Stamp(es[0], userId)] + StampAll(es[1..], userId)
  }

  class EmissionStore {
    /** The table's rows in insertion order. */
    var rows: seq<EmissionRecord>

    /** No endpoint ever recomputes or edits the emissions column, so every
        stored row keeps the value computed when it was written. */
    ghost predicate Valid()
      reads this
    {
      forall i :: 0 <= i < |rows| ==> Derived(rows[i])
    }

    /** The table as the start-up code leaves it: freshly created and empty. */
    constructor ()
      ensures Valid()
      ensures rows == []
    {
      rows := [];
    }

    /** Insert one row for `entry`, stamped with the caller, and return its
        emissions. Earlier rows, of every caller, are kept as they were. */
    method ManualEntry(entry: Entry, userId: string) returns (emissionsKg: real)
      requires Valid()
      modifies this
      ensures Valid()
      ensures emissionsKg == entry.amount * entry.emissionFactor
      ensures rows == old(rows) + [Stamp(entry, userId)]
      ensures |rows| == |old(rows)| + 1
      ensures rows[..|old(rows)|] == old(rows)
      ensures EntryOf(rows[|old(rows)|]) == entry
      ensures rows[|old(rows)|].userId == userId
      ensures rows[|old(rows)|].emissionsKg == emissionsKg
    {
      emissionsKg := entry.amount * entry.emissionFactor;
      rows := rows + [Stamp(entry, userId)];
    }

    /** Bulk upload. A table missing a required column is refused and the
        store is left as it was. Otherwise the store becomes exactly the
        uploaded rows, each stamped with the caller, so the records that were
        there before, whoever stored them, are gone; the result is the number
        of rows written. */
    method Upload(table: Table, userId: string) returns (r: Result<nat>)
      requires Valid()
      modifies this
      ensures Valid()
      ensures !HasRequiredColumns(table.columns) ==> r == Err(MissingColumns) && rows == old(rows)
      ensures HasRequiredColumns(table.columns) ==>
        && r == Ok(|table.rows|)
        && rows == StampAll(table.rows, userId)
        && |rows| == |table.rows|
        && (forall x :: x in rows ==> x.userId == userId)
    {
      if !HasRequiredColumns(table.columns) {
        return Err(MissingColumns);
      }
      rows := StampAll(table.rows, userId);
      r := Ok(|rows|);
    }
  }
}
