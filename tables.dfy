/**
 * The table store (`src/stores/tableStore.ts`): the shared record-store
 * protocol over tables, with the table messages, the `TABLE-` id prefix and
 * no check before an update, plus `regenerateQR`, which stores a fresh
 * ordering URL and QR picture on one table.
 */
module Tables {
  import opened Wrappers
  import opened DocDb
  import opened RecordStore
  import Qr

  datatype TableStatus = Available | Occupied | Reserved | Cleaning | Maintenance

  /** The fields a table has besides its id, key, revision and timestamps. */
  datatype TableBody = TableBody(number: int, name: Option<string>, zone: Option<string>,
                                 qrUrl: Option<string>, qrSvg: Option<string>, status: TableStatus)

  type Table = Doc<TableBody>

  /** The table fields of a `Partial<Table>`. */
  datatype TableFields = TableFields(number: Option<int>, name: Option<string>, zone: Option<string>,
                                     qrUrl: Option<string>, qrSvg: Option<string>, status: Option<TableStatus>)

  type TableUpdate = Patch<TableFields>

  function MergeFields(b: TableBody, q: TableFields): TableBody {
    TableBody(q.number.GetOr(b.number),
              if q.name.Some? then q.name else b.name,
              if q.zone.Some? then q.zone else b.zone,
              if q.qrUrl.Some? then q.qrUrl else b.qrUrl,
              if q.qrSvg.Some? then q.qrSvg else b.qrSvg,
              q.status.GetOr(b.status))
  }

  /** Table updates are never refused up front. */
  function NoGuard(t: Table, p: TableUpdate): Option<string> {
    None
  }

  const TableMessages := Messages("Table not found", "Failed to load tables", "Failed to create table",
                                  "Failed to update table", "Failed to delete table")

  const TableConfig: Config<TableBody, TableFields> := Config("TABLE-", TableMessages, MergeFields, NoGuard)

  const QrFailure := "Failed to generate QR code"

  /** The store as the application creates it: empty, over the `tables` database. */
  method NewTableStore(db: Db<Table>) returns (s: Store<TableBody, TableFields>)
    ensures fresh(s) && s.db == db && s.cfg == TableConfig
    ensures s.Current() == View([], false, None, None)
  {
    s := new Store(db, TableConfig);
  }

  /** Updating an id that is not cached sets "Table not found", settles, and calls nothing. */
  lemma UpdateUnknownTable(v: View<TableBody>, db: DbState<Table>, id: string, p: TableUpdate, now: string)
    requires forall i :: 0 <= i < |v.records| ==> v.records[i].id != id
    ensures AfterUpdate(TableConfig, v, db, id, p, now) ==
            (v.(error := Some("Table not found"), loading := false, updatingId := None), db)
  {
  }

  /**
   * Every update of a cached table runs (nothing refuses it) and ends saved
   * with only that entry replaced, reverted to the start-of-call list with
   * "Failed to update table", or left optimistic when the recovery search failed.
   */
  lemma TableUpdateOutcomes(v: View<TableBody>, db: DbState<Table>, id: string, p: TableUpdate, now: string)
    requires FindById(v.records, id).Some? && p.id.GetOr(id) == id
    ensures var orig := FindById(v.records, id).value;
            var (v2, db2) := AfterUpdate(TableConfig, v, db, id, p, now);
            (exists d :: SavedAs(v.records, id, d, v2, db2)) ||
            (v2.records == v.records && v2.error == Some("Failed to update table") && Settled(v2)) ||
            (v2 == Optimistic(TableConfig, v, orig, id, p, now) && v2.loading && v2.updatingId == Some(id))
  {
    UpdateOutcomes(TableConfig, v, db, id, p, now);
  }

  /** The key `regenerateQR` writes under: `table._id || id`, so an empty `_id` falls back to the id. */
  function QrKey(t: Table, id: string): string {
    if t.docId.Some? && t.docId.value != "" then t.docId.value else id
  }

  /** The table as `regenerateQR` rewrites it: fresh URL and picture, the cached revision kept. */
  function WithQr(t: Table, url: string, svg: string, now: string): Table {
    t.(body := t.body.(qrUrl := Some(url), qrSvg := Some(svg)), updatedAt := Some(now))
  }

  /**
   * `regenerateQR(id)`: the SVG comes from the QR helper (`render` stands for
   * the QR library, `origin` for the window's origin), the stored URL is
   * always the ordering URL on the origin, and the write carries the cached
   * revision without re-reading it.
   */
  function AfterRegenerateQR(v: View<TableBody>, db: DbState<Table>, id: string, origin: Option<string>,
                             render: string -> Option<string>, now: string): (View<TableBody>, DbState<Table>)
  {
    var v1 := v.(updatingId := Some(id), loading := true, error := None);
    var t := FindById(v.records, id);
    if t.None? then (v1.(error := Some("Table not found"), loading := false, updatingId := None), db)
    else
      var updated := Regenerated(t.value, origin, render, now);
      var key := QrKey(t.value, id);
      var (r, db1) := PutStep(db, Some(key), updated.(docId := Some(key)), updated.rev);
      if r.Ok? then (v1.(records := ReplaceById(v.records, id, updated), loading := false, updatingId := None), db1)
      else (v1.(error := Some(QrFailure), loading := false, updatingId := None), db1)
  }

  method RegenerateQR(s: Store<TableBody, TableFields>, id: string, origin: Option<string>,
                      render: string -> Option<string>, now: string)
    modifies s, s.db
    ensures (s.Current(), s.db.State()) == AfterRegenerateQR(old(s.Current()), old(s.db.State()), id, origin, render, now)
  {
    s.updatingId, s.loading, s.error := Some(id), true, None;
    var current := s.records;
    var t := FindById(current, id);
    if t.None? {
      s.error, s.loading, s.updatingId := Some("Table not found"), false, None;
      return;
    }
    var svg := Qr.SvgForTable(Qr.QrTable(t.value.id, t.value.body.qrUrl), None, origin, render);
    var url := Qr.OrderUrl(origin.GetOr(""), t.value.id);
    var updated := WithQr(t.value, url, svg, now);
    var key := QrKey(t.value, id);
    var r := s.db.Put(Some(key), updated.(docId := Some(key)), updated.rev);
    if r.Ok? {
      s.records, s.loading, s.updatingId := ReplaceById(current, id, updated), false, None;
    } else {
      s.error, s.loading, s.updatingId := Some(QrFailure), false, None;
    }
  }

  /**
   * `regenerateQR` always clears `updatingId` and `loading` and writes once;
   * on success the entries with that id become the first such entry with only
   * its URL, picture and timestamp changed, the URL being the ordering URL for
   * the id, and all other entries stay; otherwise the list is unchanged and
   * the error says why.
   */
  lemma RegenerateQROutcome(v: View<TableBody>, db: DbState<Table>, id: string, origin: Option<string>,
                            render: string -> Option<string>, now: string)
    ensures var (v2, db2) := AfterRegenerateQR(v, db, id, origin, render, now);
            Settled(v2) &&
            (FindById(v.records, id).None? ==> v2.records == v.records && v2.error == Some("Table not found") && db2 == db) &&
            (FindById(v.records, id).Some? ==>
               var t := FindById(v.records, id).value;
               |db2.log| == |db.log| + 1 &&
               ((v2.error.None? && |v2.records| == |v.records| &&
                 forall i :: 0 <= i < |v.records| ==>
                   if v.records[i].id == id then
                     v2.records[i].body.qrUrl == Some(Qr.OrderUrl(origin.GetOr(""), id)) &&
                     v2.records[i].body.qrSvg.Some? &&
                     v2.records[i] == t.(body := v2.records[i].body, updatedAt := Some(now)) &&
                     v2.records[i].body == t.body.(qrUrl := v2.records[i].body.qrUrl, qrSvg := v2.records[i].body.qrSvg)
                   else v2.records[i] == v.records[i]) ||
                (v2.error == Some(QrFailure) && v2.records == v.records)))
  {
  }

  /**
   * After a successful `regenerateQR` the cached entry still carries the
   * revision it had before, which the database no longer has: a second
   * `regenerateQR` on the same table is refused as a conflict.
   */
  lemma RegenerateTwiceConflicts(v: View<TableBody>, db: DbState<Table>, id: string, origin: Option<string>,
                                 render: string -> Option<string>, now1: string, now2: string)
    requires FindById(v.records, id).Some? && Valid(db) && db.faults == []
    requires var t := FindById(v.records, id).value;
             QrKey(t, id) in db.docs && t.rev == Some(db.docs[QrKey(t, id)].rev)
    ensures var (v1, db1) := AfterRegenerateQR(v, db, id, origin, render, now1);
            var (v2, db2) := AfterRegenerateQR(v1, db1, id, origin, render, now2);
            v1.error.None? && v2.error == Some(QrFailure) && v2.records == v1.records
  {
    var t := FindById(v.records, id).value;
    var key := QrKey(t, id);
    var updated := Regenerated(t, origin, render, now1);
    RegenerateSaves(v, db, id, origin, render, now1);
    var v1 := v.(records := ReplaceById(v.records, id, updated), loading := false, updatingId := None, error := None);
    var db1 := DbState(db.docs[key := Stored(updated.(docId := Some(key)), db.nextRev)], db.nextRev + 1, [],
                       db.log + [PutCall(Some(key))]);
    ReplaceFinds(v.records, id, updated);
    assert QrKey(updated, id) == key && key in db1.docs && db1.docs[key].rev == db.nextRev;
    RegenerateStale(v1, db1, id, origin, render, now2);
  }

  /** The table `regenerateQR` writes for `t`. */
  function Regenerated(t: Table, origin: Option<string>, render: string -> Option<string>, now: string): Table {
    WithQr(t, Qr.OrderUrl(origin.GetOr(""), t.id), Qr.SvgForTable(Qr.QrTable(t.id, t.body.qrUrl), None, origin, render), now)
  }

  /** A `regenerateQR` whose write carries the stored revision and meets no fault: the whole new state. */
  lemma RegenerateSaves(v: View<TableBody>, db: DbState<Table>, id: string, origin: Option<string>,
                        render: string -> Option<string>, now: string)
    requires FindById(v.records, id).Some? && db.faults == []
    requires var t := FindById(v.records, id).value;
             QrKey(t, id) in db.docs && t.rev == Some(db.docs[QrKey(t, id)].rev)
    ensures var t := FindById(v.records, id).value;
            var key := QrKey(t, id);
            var updated := Regenerated(t, origin, render, now);
            AfterRegenerateQR(v, db, id, origin, render, now) ==
              (v.(records := ReplaceById(v.records, id, updated), loading := false, updatingId := None, error := None),
               DbState(db.docs[key := Stored(updated.(docId := Some(key)), db.nextRev)], db.nextRev + 1, [],
                       db.log + [PutCall(Some(key))]))
  {
    var t := FindById(v.records, id).value;
    var key := QrKey(t, id);
    var updated := Regenerated(t, origin, render, now);
    var doc := updated.(docId := Some(key));
    var db1 := db.(log := db.log + [PutCall(Some(key))]);
    assert Begin(db, PutCall(Some(key))) == (None, db1);
    assert updated.rev == t.rev && Accepts(db1.docs, key, updated.rev);
    assert PutStep(db, Some(key), doc, updated.rev) == (Ok(db.nextRev), db1.(docs := db.docs[key := Stored(doc, db.nextRev)], nextRev := db.nextRev + 1));
  }

  /** A `regenerateQR` whose cached revision is not the stored one fails with the QR message and keeps the list. */
  lemma RegenerateStale(v: View<TableBody>, db: DbState<Table>, id: string, origin: Option<string>,
                        render: string -> Option<string>, now: string)
    requires FindById(v.records, id).Some? && db.faults == []
    requires var t := FindById(v.records, id).value;
             QrKey(t, id) in db.docs && t.rev != Some(db.docs[QrKey(t, id)].rev)
    ensures var v2 := AfterRegenerateQR(v, db, id, origin, render, now).0;
            v2.error == Some(QrFailure) && v2.records == v.records
  {
  }

  /**
   * A table that already has a non-empty `qrUrl` gets a picture of that old
   * URL, while the URL stored beside it is the freshly built ordering URL.
   */
  lemma RegeneratedPictureUsesStoredUrl(v: View<TableBody>, db: DbState<Table>, id: string, origin: Option<string>,
                                        render: string -> Option<string>, now: string, prior: string, svg: string)
    requires FindById(v.records, id).Some?
    requires FindById(v.records, id).value.body.qrUrl == Some(prior) && prior != ""
    requires render(prior) == Some(svg)
    ensures var (v2, db2) := AfterRegenerateQR(v, db, id, origin, render, now);
            v2.error.None? ==>
              forall i :: 0 <= i < |v2.records| && v.records[i].id == id ==>
                v2.records[i].body.qrSvg == Some(svg) &&
                v2.records[i].body.qrUrl == Some(Qr.OrderUrl(origin.GetOr(""), id))
  {
  }
}
