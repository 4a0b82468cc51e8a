/** What the two ingestion paths do to the figures a caller reads back. */
module IngestionEffects {
  import opened Records
  import opened Store
  import opened Aggregator

  /** Appending a row extends a selection by that row exactly when the row
      belongs to the selected business and caller. */
  lemma SelectAfterAppend(rows: seq<EmissionRecord>, r: EmissionRecord, businessId: string, userId: string)
    ensures Select(rows + [r], businessId, userId)
         == Select(rows, businessId, userId) + (if r.businessId == businessId && r.userId == userId then [r] else [])
  {
    WhereAppend(rows, [r], BusinessId, businessId);
    var byBusiness := Where([r], BusinessId, businessId);
    assert byBusiness == if r.businessId == businessId then [r] else [];
    WhereAppend(Where(rows, BusinessId, businessId), byBusiness, UserId, userId);
    if r.businessId == businessId {
      assert Where(byBusiness, UserId, userId) == if r.userId == userId then [r] else [];
    } else {
      assert Where(byBusiness, UserId, userId) == [];
    }
  }

  /** After a manual entry the caller's dashboard for that business exists
      and its total has grown by exactly the returned emissions; every other
      business or caller reads the same records as before. */
  lemma ManualEntryAddsToDashboard(rows: seq<EmissionRecord>, entry: Entry, userId: string,
                                   businessId: string, reader: string)
    ensures businessId == entry.businessId && reader == userId ==>
      var d := Dashboard(rows + [Stamp(entry, userId)], businessId, reader);
      d.Ok? && d.value.total == Total(Select(rows, businessId, reader)) + entry.amount * entry.emissionFactor
    ensures businessId != entry.businessId || reader != userId ==>
      Select(rows + [Stamp(entry, userId)], businessId, reader) == Select(rows, businessId, reader)
  {
    var r := Stamp(entry, userId);
    SelectAfterAppend(rows, r, businessId, reader);
    if businessId == entry.businessId && reader == userId {
      TotalAppend(Select(rows, businessId, reader), [r]);
      assert Total([r]) == r.emissionsKg;
    } else {
      assert Select(rows, businessId, reader) + [] == Select(rows, businessId, reader);
    }
  }

  /** After an upload only the uploader's records exist: any other caller's
      dashboard, for any business, reports that nothing was found. */
  lemma UploadHidesOtherCallers(entries: seq<Entry>, uploader: string, businessId: string, reader: string)
    requires reader != uploader
    ensures Dashboard(StampAll(entries, uploader), businessId, reader) == Err(NotFound)
  {
    var rows := StampAll(entries, uploader);
    assert forall x :: x in rows ==> x.userId == uploader;
  }

  /** Read back from a valid store, a caller's dashboard total is the sum of
      amount × factor over the selected rows: every selected row still holds
      the emissions computed when it was written. */
  lemma StoredDashboardTotal(store: EmissionStore, businessId: string, userId: string)
    requires store.Valid()
    ensures forall x :: x in Select(store.rows, businessId, userId) ==> Derived(x)
    ensures Dashboard(store.rows, businessId, userId).Ok? ==>
      Dashboard(store.rows, businessId, userId).value.total == RawTotal(Select(store.rows, businessId, userId))
  {
    var sel := Select(store.rows, businessId, userId);
    forall x | x in sel ensures Derived(x) {
      var i :| 0 <= i < |store.rows| && store.rows[i] == x;
    }
    TotalOfDerived(sel);
  }
}
