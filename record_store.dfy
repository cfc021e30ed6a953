/**
 * The protocol the order store and the table store share: a list cache of
 * records kept beside the document database, with `loading`, `error` and
 * `updatingId` status fields, and the operations load, add, update (optimistic,
 * with one retry on a conflict and a search of all documents on a miss) and
 * delete. The two stores differ only in their record body, the prefix of new
 * ids, their messages and whether an update can be refused up front; those are
 * gathered in a `Config`.
 *
 * Each operation is first a pure function from the store's view and the
 * database state to the new view and database state (`AfterLoad`,
 * `AfterAdd`, `AfterUpdate`, `AfterDelete`); the class `Store` then performs the
 * same steps on its fields and on the database object, and each of its methods
 * is proved to end in the state that function describes.
 */
module RecordStore {
  import opened Wrappers
  import Text
  import opened DocDb

  /**
   * A stored record: the application id, the database key `_id` and revision
   * `_rev` (both optional in the source's types), the entity's own fields, and
   * the timestamps.
   */
  datatype Doc<B> = Doc(id: string, docId: Option<string>, rev: Option<Rev>, body: B, createdAt: string, updatedAt: Option<string>)

  /** A `Partial<Record>`: every present field overrides, as `{...record, ...updates}` does. */
  datatype Patch<Q> = Patch(id: Option<string>, docId: Option<string>, rev: Option<Rev>, createdAt: Option<string>, body: Q)

  datatype Messages = Messages(notFound: string, load: string, create: string, update: string, delete: string)

  /**
   * What distinguishes one store from the other: the prefix of generated ids,
   * the messages, how a patch overrides the entity's own fields, and a check
   * that may refuse an update before anything changes (its message).
   */
  datatype Config<!B, !Q> = Config(prefix: string, messages: Messages, mergeBody: (B, Q) -> B, guard: (Doc<B>, Patch<Q>) -> Option<string>)

  /** The store's observable state. */
  datatype View<B> = View(records: seq<Doc<B>>, loading: bool, error: Option<string>, updatingId: Option<string>)

  /** `{...d, ...p, updatedAt: now}`. */
  function Merge<B, Q>(d: Doc<B>, p: Patch<Q>, mergeBody: (B, Q) -> B, now: string): (r: Doc<B>)
    ensures r.id == p.id.GetOr(d.id) && r.createdAt == p.createdAt.GetOr(d.createdAt)
    ensures r.docId == (if p.docId.Some? then p.docId else d.docId)
    ensures r.rev == (if p.rev.Some? then p.rev else d.rev)
    ensures r.body == mergeBody(d.body, p.body) && r.updatedAt == Some(now)
  {
    Doc(p.id.GetOr(d.id),
        if p.docId.Some? then p.docId else d.docId,
        if p.rev.Some? then p.rev else d.rev,
        mergeBody(d.body, p.body),
        p.createdAt.GetOr(d.createdAt),
        Some(now))
  }

  /** A document as the database hands it out: carrying its key and current revision. */
  function Hydrate<B>(key: string, s: Stored<Doc<B>>): Doc<B> {
    s.doc.(docId := Some(key), rev := Some(s.rev))
  }

  /** `records.find(r => r.id === id)`: the first record with that id. */
  function FindById<B>(records: seq<Doc<B>>, id: string): (r: Option<Doc<B>>)
    ensures r.None? <==> forall i :: 0 <= i < |records| ==> records[i].id != id
    ensures r.Some? ==> r.value.id == id
    ensures r.Some? ==> exists i :: 0 <= i < |records| && records[i] == r.value && r.value.id == id &&
                                    forall j :: 0 <= j < i ==> records[j].id != id
  {
    if records == [] then None
    else if records[0].id == id then Some(records[0])
    else
      var r := FindById(records[1..], id);
      assert r.Some? ==> exists i :: 0 <= i < |records| && records[i] == r.value && r.value.id == id &&
                                     forall j :: 0 <= j < i ==> records[j].id != id by {
        if r.Some? {
          var i :| 0 <= i < |records[1..]| && records[1..][i] == r.value && r.value.id == id &&
                   forall j :: 0 <= j < i ==> records[1..][j].id != id;
          assert records[i + 1] == r.value;
        }
      }
      r
  }

  /** `records.map(r => r.id === id ? d : r)`. */
  function ReplaceById<B>(records: seq<Doc<B>>, id: string, d: Doc<B>): (r: seq<Doc<B>>)
    ensures |r| == |records|
    ensures forall i :: 0 <= i < |r| ==> r[i] == if records[i].id == id then d else records[i]
  {
    seq(|records|, i requires 0 <= i < |records| => if records[i].id == id then d else records[i])
  }

  /** After replacing the entries with an id by a record with that id, the first such entry is that record. */
  lemma {:induction false} ReplaceFinds<B>(records: seq<Doc<B>>, id: string, d: Doc<B>)
    requires FindById(records, id).Some? && d.id == id
    ensures FindById(ReplaceById(records, id, d), id) == Some(d)
  {
    var r := ReplaceById(records, id, d);
    if records[0].id != id {
      assert r[0] == records[0] && r[1..] == ReplaceById(records[1..], id, d);
      ReplaceFinds(records[1..], id, d);
    }
  }

  /** `records.filter(r => r.id !== id)`. */
  function RemoveById<B>(records: seq<Doc<B>>, id: string): (r: seq<Doc<B>>)
    ensures |r| <= |records|
    ensures forall i :: 0 <= i < |r| ==> r[i] in records && r[i].id != id
    ensures forall i :: 0 <= i < |records| && records[i].id != id ==> records[i] in r
  {
    if records == [] then []
    else if records[0].id == id then RemoveById(records[1..], id)
    else [records[0]] + RemoveById(records[1..], id)
  }

  /** The filter keeps the other records in their order and with their multiplicity. */
  lemma {:induction false} RemoveByIdKeepsOrder<B>(records: seq<Doc<B>>, id: string)
    ensures Subsequence(RemoveById(records, id), records)
    ensures forall d :: d in records ==>
              multiset(RemoveById(records, id))[d] == if d.id == id then 0 else multiset(records)[d]
  {
    if records != [] {
      RemoveByIdKeepsOrder(records[1..], id);
      var r, rest := RemoveById(records, id), RemoveById(records[1..], id);
      assert records == [records[0]] + records[1..];
      if records[0].id != id {
        assert r[0] == records[0] && r[1..] == rest;
        assert r == [records[0]] + rest;
      }
    }
  }

  /** `rows.map(row => row.doc)`: each document with its key and revision. */
  function Loaded<B>(rows: seq<Row<Doc<B>>>): (r: seq<Doc<B>>)
    ensures |r| == |rows|
    ensures forall i :: 0 <= i < |rows| ==> r[i] == Hydrate(rows[i].key, Stored(rows[i].doc, rows[i].rev))
  {
    seq(|rows|, i requires 0 <= i < |rows| => Hydrate(rows[i].key, Stored(rows[i].doc, rows[i].rev)))
  }

  /** `rows.find(row => row.doc.id === id)`. */
  function FindRow<B>(rows: seq<Row<Doc<B>>>, id: string): (r: Option<Row<Doc<B>>>)
    ensures r.None? <==> forall i :: 0 <= i < |rows| ==> rows[i].doc.id != id
    ensures r.Some? ==> r.value in rows && r.value.doc.id == id
    ensures r.Some? ==> exists i :: 0 <= i < |rows| && rows[i] == r.value &&
                                    forall j :: 0 <= j < i ==> rows[j].doc.id != id
  {
    if rows == [] then None
    else if rows[0].doc.id == id then Some(rows[0])
    else
      var r := FindRow(rows[1..], id);
      assert r.Some? ==> exists i :: 0 <= i < |rows| && rows[i] == r.value &&
                                     forall j :: 0 <= j < i ==> rows[j].doc.id != id by {
        if r.Some? {
          var i :| 0 <= i < |rows[1..]| && rows[1..][i] == r.value &&
                   forall j :: 0 <= j < i ==> rows[1..][j].doc.id != id;
          assert rows[i + 1] == r.value;
        }
      }
      r
  }

  /** The record a new entry is written as: `{...data, id, _id: id, createdAt: now, updatedAt: now}`. */
  function NewDoc<B>(prefix: string, body: B, rev: Option<Rev>, ms: nat, now: string): Doc<B> {
    var id := prefix + Text.Decimal(ms);
    Doc(id, Some(id), rev, body, now, Some(now))
  }

  // ---------------------------------------------------------------------
  // The operations as functions of the view and the database state
  // ---------------------------------------------------------------------

  /** `loadX`: every document, newest key first; on failure only the error message. */
  function AfterLoad<B, Q>(cfg: Config<B, Q>, v: View<B>, db: DbState<Doc<B>>): (View<B>, DbState<Doc<B>>) {
    var v1 := v.(loading := true, error := None);
    var (rows, db1) := AllDocsStep(db, true);
    if rows.Ok? then (v1.(records := Loaded(rows.value), loading := false), db1)
    else (v1.(error := Some(cfg.messages.load), loading := false), db1)
  }

  /** `addX`: one `put` of the new record, which is prepended only once it is stored. */
  function AfterAdd<B, Q>(cfg: Config<B, Q>, v: View<B>, db: DbState<Doc<B>>, body: B, rev: Option<Rev>, ms: nat, now: string): (View<B>, DbState<Doc<B>>) {
    var d := NewDoc(cfg.prefix, body, rev, ms, now);
    var v1 := v.(loading := true, error := None);
    var (r, db1) := PutStep(db, d.docId, d, d.rev);
    if r.Ok? then (v1.(records := [d.(rev := Some(r.value))] + v.records, loading := false), db1)
    else (v1.(error := Some(cfg.messages.create), loading := false), db1)
  }

  /** The state right after the optimistic replacement, before any database call. */
  function Optimistic<B, Q>(cfg: Config<B, Q>, v: View<B>, orig: Doc<B>, id: string, p: Patch<Q>, now: string): View<B> {
    View(ReplaceById(v.records, id, Merge(orig, p, cfg.mergeBody, now)), true, None, Some(id))
  }

  /** One attempt: read the latest document under `key`, merge the patch onto it, write it back. */
  function AttemptStep<B, Q>(cfg: Config<B, Q>, db: DbState<Doc<B>>, key: string, p: Patch<Q>, now: string): (r: (Result<Doc<B>>, DbState<Doc<B>>))
    ensures r.0.Ok? ==> (r.0.value.docId.Some? && r.0.value.docId.value in r.1.docs &&
                         Hydrate(r.0.value.docId.value, r.1.docs[r.0.value.docId.value]) == r.0.value)
    ensures |r.1.log| == |db.log| + 1 || |r.1.log| == |db.log| + 2
    ensures r.1.log[..|db.log| + 1] == db.log + [GetCall(key)]
    ensures |r.1.log| == |db.log| + 2 ==> r.1.log[|db.log| + 1].PutCall?
  {
    var (latest, db1) := GetStep(db, key);
    if latest.Err? then (Err(latest.error), db1)
    else
      var updated := Merge(Hydrate(key, latest.value), p, cfg.mergeBody, now);
      var (r, db2) := PutStep(db1, updated.docId, updated, updated.rev);
      if r.Err? then (Err(r.error), db2)
      else (Ok(updated.(rev := Some(r.value))), db2)
  }

  /** The success branch of `tryUpdate`: the saved document, with its new revision, replaces the entry. */
  function Saved<B>(v: View<B>, id: string, d: Doc<B>): View<B> {
    v.(records := ReplaceById(v.records, id, d), loading := false, updatingId := None)
  }

  /** The final handler of `tryUpdate`: back to the list captured at the start. */
  function Reverted<B, Q>(cfg: Config<B, Q>, v: View<B>, snapshot: seq<Doc<B>>): View<B> {
    v.(records := snapshot, error := Some(cfg.messages.update), loading := false, updatingId := None)
  }

  /**
   * `tryUpdate(attempt)`: a not-found error on the first attempt searches all
   * documents for the id and, if one is found, tries once more under its key;
   * a failure inside that search is thrown out of the error handler, so the
   * view stays as it is. A conflict on the first attempt tries again. Every
   * other failure reverts.
   */
  function AfterTryUpdate<B, Q>(cfg: Config<B, Q>, v: View<B>, db: DbState<Doc<B>>, id: string, key: string, p: Patch<Q>,
                                now: string, snapshot: seq<Doc<B>>, attempt: nat): (View<B>, DbState<Doc<B>>)
    requires attempt == 1 || attempt == 2
    decreases 2 - attempt
  {
    var (r, db1) := AttemptStep(cfg, db, key, p, now);
    if r.Ok? then (Saved(v, id, r.value), db1)
    else if r.error == NotFound && attempt == 1 then
      var (rows, db2) := AllDocsStep(db1, false);
      if rows.Err? then (v, db2)
      else
        var found := FindRow(rows.value, id);
        if found.None? then (Reverted(cfg, v, snapshot), db2)
        else
          var (r2, db3) := AttemptStep(cfg, db2, found.value.key, p, now);
          if r2.Err? then (v, db3) else (Saved(v, id, r2.value), db3)
    else if r.error == Conflict && attempt == 1 then
      AfterTryUpdate(cfg, v, db1, id, key, p, now, snapshot, 2)
    else (Reverted(cfg, v, snapshot), db1)
  }

  /** `updateX(id, updates)`, its attempts run to completion. */
  function AfterUpdate<B, Q>(cfg: Config<B, Q>, v: View<B>, db: DbState<Doc<B>>, id: string, p: Patch<Q>, now: string): (View<B>, DbState<Doc<B>>) {
    var v1 := v.(updatingId := Some(id), loading := true, error := None);
    var orig := FindById(v.records, id);
    if orig.None? then (v1.(error := Some(cfg.messages.notFound), loading := false, updatingId := None), db)
    else
      var refusal := cfg.guard(orig.value, p);
      if refusal.Some? then (v1.(error := refusal, loading := false, updatingId := None), db)
      else AfterTryUpdate(cfg, Optimistic(cfg, v, orig.value, id, p, now), db, id, orig.value.docId.GetOr(id), p, now, v.records, 1)
  }

  /** `deleteX(id)`: read the document, remove it at that revision, then drop it from the list. */
  function AfterDelete<B, Q>(cfg: Config<B, Q>, v: View<B>, db: DbState<Doc<B>>, id: string): (View<B>, DbState<Doc<B>>) {
    var v1 := v.(loading := true, error := None);
    var d := FindById(v.records, id);
    if d.None? then (v1.(error := Some(cfg.messages.notFound), loading := false), db)
    else
      var key := d.value.docId.GetOr(id);
      var (latest, db1) := GetStep(db, key);
      if latest.Err? then (v1.(error := Some(cfg.messages.delete), loading := false), db1)
      else
        var (r, db2) := RemoveStep(db1, key, latest.value.rev);
        if r.Err? then (v1.(error := Some(cfg.messages.delete), loading := false), db2)
        else (v1.(records := RemoveById(v.records, id), loading := false), db2)
  }

  // ---------------------------------------------------------------------
  // What the operations guarantee
  // ---------------------------------------------------------------------

  /** No operation is in flight. */
  predicate Settled<B>(v: View<B>) {
    !v.loading && v.updatingId.None?
  }

  /**
   * The update went through: the entry for `id` in `start` is now `d`, and
   * `d` is exactly what a fresh read of the database returns under its key.
   */
  ghost predicate SavedAs<B>(start: seq<Doc<B>>, id: string, d: Doc<B>, v: View<B>, db: DbState<Doc<B>>) {
    v.records == ReplaceById(start, id, d) && v.error.None? && Settled(v) &&
    d.docId.Some? && d.docId.value in db.docs && Hydrate(d.docId.value, db.docs[d.docId.value]) == d
  }

  /** The patch touches neither the record's id nor its key nor its revision, as the screens' patches do. */
  predicate KeepsIdentity<Q>(p: Patch<Q>, id: string) {
    p.id.GetOr(id) == id && p.docId.None? && p.rev.None?
  }

  lemma ReplaceTwice<B>(records: seq<Doc<B>>, id: string, d1: Doc<B>, d2: Doc<B>)
    requires d1.id == id
    ensures ReplaceById(ReplaceById(records, id, d1), id, d2) == ReplaceById(records, id, d2)
  {
  }

  /**
   * `tryUpdate` ends in one of three ways: saved, reverted to the snapshot, or
   * — only when the first attempt missed and the search of all documents
   * then failed — with the view untouched, still loading.
   */
  lemma {:induction false} TryUpdateOutcomes<B, Q>(cfg: Config<B, Q>, v: View<B>, db: DbState<Doc<B>>, id: string, key: string,
                                                   p: Patch<Q>, now: string, snapshot: seq<Doc<B>>, attempt: nat)
    requires attempt == 1 || attempt == 2
    requires v.error.None?
    ensures var (v2, db2) := AfterTryUpdate(cfg, v, db, id, key, p, now, snapshot, attempt);
            (exists d :: SavedAs(v.records, id, d, v2, db2)) ||
            v2 == Reverted(cfg, v, snapshot) ||
            (v2 == v && attempt == 1 && AttemptStep(cfg, db, key, p, now).0 == Err(NotFound))
    decreases 2 - attempt
  {
    var (r, db1) := AttemptStep(cfg, db, key, p, now);
    var (v2, db2) := AfterTryUpdate(cfg, v, db, id, key, p, now, snapshot, attempt);
    if r.Ok? {
      assert SavedAs(v.records, id, r.value, v2, db2);
    } else if r.error == NotFound && attempt == 1 {
      var (rows, db3) := AllDocsStep(db1, false);
      if rows.Ok? {
        var found := FindRow(rows.value, id);
        if found.Some? {
          var (r2, db4) := AttemptStep(cfg, db3, found.value.key, p, now);
          if r2.Ok? {
            assert SavedAs(v.records, id, r2.value, v2, db2);
          }
        }
      }
    } else if r.error == Conflict && attempt == 1 {
      TryUpdateOutcomes(cfg, v, db1, id, key, p, now, snapshot, 2);
    }
  }

  /**
   * Every update of a cached record that is not refused ends saved (only
   * that entry replaced, by what the database now holds), reverted to the
   * list captured at the start with the update message, or — when the
   * first read missed and the recovery search failed — stuck in the
   * optimistic state with `loading` and `updatingId` still set.
   */
  lemma UpdateOutcomes<B, Q>(cfg: Config<B, Q>, v: View<B>, db: DbState<Doc<B>>, id: string, p: Patch<Q>, now: string)
    requires FindById(v.records, id).Some? && cfg.guard(FindById(v.records, id).value, p).None?
    requires p.id.GetOr(id) == id
    ensures var orig := FindById(v.records, id).value;
            var (v2, db2) := AfterUpdate(cfg, v, db, id, p, now);
            (exists d :: SavedAs(v.records, id, d, v2, db2)) ||
            (v2.records == v.records && v2.error == Some(cfg.messages.update) && Settled(v2)) ||
            (v2 == Optimistic(cfg, v, orig, id, p, now) && v2.loading && v2.updatingId == Some(id) &&
             AttemptStep(cfg, db, orig.docId.GetOr(id), p, now).0 == Err(NotFound))
  {
    var orig := FindById(v.records, id).value;
    var o := Optimistic(cfg, v, orig, id, p, now);
    var key := orig.docId.GetOr(id);
    TryUpdateOutcomes(cfg, o, db, id, key, p, now, v.records, 1);
    var (v2, db2) := AfterUpdate(cfg, v, db, id, p, now);
    if exists d :: SavedAs(o.records, id, d, v2, db2) {
      var d :| SavedAs(o.records, id, d, v2, db2);
      ReplaceTwice(v.records, id, Merge(orig, p, cfg.mergeBody, now), d);
      assert SavedAs(v.records, id, d, v2, db2);
    }
  }

  /** The second attempt is the last: one read, at most one write, and it saves or reverts. */
  lemma SecondAttemptIsLast<B, Q>(cfg: Config<B, Q>, v: View<B>, db: DbState<Doc<B>>, id: string, key: string,
                                  p: Patch<Q>, now: string, snapshot: seq<Doc<B>>)
    requires v.error.None?
    ensures var (v2, db2) := AfterTryUpdate(cfg, v, db, id, key, p, now, snapshot, 2);
            (|db2.log| == |db.log| + 1 || |db2.log| == |db.log| + 2) &&
            db2.log[..|db.log| + 1] == db.log + [GetCall(key)] &&
            ((exists d :: SavedAs(v.records, id, d, v2, db2)) || v2 == Reverted(cfg, v, snapshot))
  {
    TryUpdateOutcomes(cfg, v, db, id, key, p, now, snapshot, 2);
  }

  /** A conflict on the first attempt leads to exactly one more read and at most one more write, and nothing after them. */
  lemma ConflictRetriedOnce<B, Q>(cfg: Config<B, Q>, v: View<B>, db: DbState<Doc<B>>, id: string, key: string,
                                  p: Patch<Q>, now: string, snapshot: seq<Doc<B>>)
    requires AttemptStep(cfg, db, key, p, now).0 == Err(Conflict) && v.error.None?
    ensures var db1 := AttemptStep(cfg, db, key, p, now).1;
            var (v2, db2) := AfterTryUpdate(cfg, v, db, id, key, p, now, snapshot, 1);
            (|db2.log| == |db1.log| + 1 || |db2.log| == |db1.log| + 2) &&
            db2.log[..|db1.log| + 1] == db1.log + [GetCall(key)] &&
            ((exists d :: SavedAs(v.records, id, d, v2, db2)) || v2 == Reverted(cfg, v, snapshot))
  {
    var db1 := AttemptStep(cfg, db, key, p, now).1;
    SecondAttemptIsLast(cfg, v, db1, id, key, p, now, snapshot);
  }

  lemma AppendPairs<T>(s: seq<T>, a: T, b: T, c: T, d: T)
    ensures s + [a, b] + [c, d] == s + [a, b, c, d]
  {
  }

  /** The next scheduled database call runs undisturbed. */
  predicate NextPasses<D>(faults: seq<Fault<D>>) {
    faults == [] || faults[0].Pass?
  }

  function Rest<D>(faults: seq<Fault<D>>): seq<Fault<D>> {
    if faults == [] then [] else faults[1..]
  }

  /** An undisturbed attempt on a stored record saves the patch merged onto it under a fresh revision. */
  lemma CleanAttempt<B, Q>(cfg: Config<B, Q>, db: DbState<Doc<B>>, key: string, p: Patch<Q>, now: string)
    requires key in db.docs && p.docId.None? && p.rev.None?
    requires NextPasses(db.faults) && NextPasses(Rest(db.faults))
    ensures var merged := Merge(Hydrate(key, db.docs[key]), p, cfg.mergeBody, now);
            AttemptStep(cfg, db, key, p, now) ==
              (Ok(merged.(rev := Some(db.nextRev))),
               DbState(db.docs[key := Stored(merged, db.nextRev)], db.nextRev + 1, Rest(Rest(db.faults)),
                       db.log + [GetCall(key), PutCall(Some(key))]))
  {
    var (g, db1) := GetStep(db, key);
    assert g == Ok(db.docs[key]) && db1 == db.(faults := Rest(db.faults), log := db.log + [GetCall(key)]);
    var merged := Merge(Hydrate(key, db.docs[key]), p, cfg.mergeBody, now);
    assert merged.docId == Some(key) && merged.rev == Some(db.docs[key].rev);
    var (r, db2) := PutStep(db1, merged.docId, merged, merged.rev);
    assert r == Ok(db.nextRev);
    assert db.log + [GetCall(key)] + [PutCall(Some(key))] == db.log + [GetCall(key), PutCall(Some(key))];
  }

  /** Another writer commits `d` just before the attempt's write, so the write carries a stale revision and conflicts. */
  lemma InterruptedAttempt<B, Q>(cfg: Config<B, Q>, db: DbState<Doc<B>>, key: string, p: Patch<Q>, now: string, d: Doc<B>)
    requires key in db.docs && p.docId.None? && p.rev.None? && Valid(db)
    requires |db.faults| >= 2 && db.faults[0].Pass? && db.faults[1] == Interleave(key, d)
    ensures AttemptStep(cfg, db, key, p, now) ==
              (Err(Conflict),
               DbState(db.docs[key := Stored(d, db.nextRev)], db.nextRev + 1, db.faults[2..],
                       db.log + [GetCall(key), PutCall(Some(key))]))
  {
    var (g, db1) := GetStep(db, key);
    assert g == Ok(db.docs[key]) && db1 == db.(faults := db.faults[1..], log := db.log + [GetCall(key)]);
    var merged := Merge(Hydrate(key, db.docs[key]), p, cfg.mergeBody, now);
    assert merged.docId == Some(key) && merged.rev == Some(db.docs[key].rev);
    var (r, db2) := PutStep(db1, merged.docId, merged, merged.rev);
    assert db.docs[key].rev < db.nextRev;
    assert r == Err(Conflict);
    assert db.log + [GetCall(key)] + [PutCall(Some(key))] == db.log + [GetCall(key), PutCall(Some(key))];
  }

  /**
   * Another writer commits `d` between the first read and the first write:
   * the write conflicts, the retry reads `d` and merges the patch onto it
   * (not onto the cached copy), and that merge is saved.
   */
  lemma ForeignWriteRetried<B, Q>(cfg: Config<B, Q>, v: View<B>, db: DbState<Doc<B>>, id: string, p: Patch<Q>, now: string, d: Doc<B>)
    requires FindById(v.records, id).Some? && cfg.guard(FindById(v.records, id).value, p).None?
    requires KeepsIdentity(p, id) && Valid(db)
    requires var key := FindById(v.records, id).value.docId.GetOr(id);
             key in db.docs && db.faults == [Pass, Interleave(key, d), Pass, Pass]
    ensures var key := FindById(v.records, id).value.docId.GetOr(id);
            var merged := Merge(Hydrate(key, Stored(d, db.nextRev)), p, cfg.mergeBody, now);
            var (v2, db2) := AfterUpdate(cfg, v, db, id, p, now);
            db2.log == db.log + [GetCall(key), PutCall(Some(key)), GetCall(key), PutCall(Some(key))] &&
            key in db2.docs && db2.docs[key] == Stored(merged, db.nextRev + 1) &&
            v2.records == ReplaceById(v.records, id, merged.(rev := Some(db.nextRev + 1))) &&
            v2.error.None? && Settled(v2)
  {
    var orig := FindById(v.records, id).value;
    var key := orig.docId.GetOr(id);
    ForeignWriteResult(cfg, v, db, id, p, now, d);
    RetriedShape(cfg, v, orig, id, p, now, db, key, d);
    AppendPairs(db.log, GetCall(key), PutCall(Some(key)), GetCall(key), PutCall(Some(key)));
  }

  /** The state `ForeignWriteRetried` describes, as one value. */
  lemma ForeignWriteResult<B, Q>(cfg: Config<B, Q>, v: View<B>, db: DbState<Doc<B>>, id: string, p: Patch<Q>, now: string, d: Doc<B>)
    requires FindById(v.records, id).Some? && cfg.guard(FindById(v.records, id).value, p).None?
    requires KeepsIdentity(p, id) && Valid(db)
    requires var key := FindById(v.records, id).value.docId.GetOr(id);
             key in db.docs && db.faults == [Pass, Interleave(key, d), Pass, Pass]
    ensures var orig := FindById(v.records, id).value;
            var key := orig.docId.GetOr(id);
            var merged := Merge(Hydrate(key, Stored(d, db.nextRev)), p, cfg.mergeBody, now);
            AfterUpdate(cfg, v, db, id, p, now) ==
              (Saved(Optimistic(cfg, v, orig, id, p, now), id, merged.(rev := Some(db.nextRev + 1))),
               DbState(db.docs[key := Stored(d, db.nextRev)][key := Stored(merged, db.nextRev + 1)], db.nextRev + 2, [],
                       db.log + [GetCall(key), PutCall(Some(key))] + [GetCall(key), PutCall(Some(key))]))
  {
    var orig := FindById(v.records, id).value;
    var key := orig.docId.GetOr(id);
    UpdateRuns(cfg, v, db, id, p, now);
    InterleavedTry(cfg, Optimistic(cfg, v, orig, id, p, now), db, id, key, p, now, v.records, d);
  }

  /** The attempts of `tryUpdate` when a foreign write lands between the first read and the first write. */
  lemma InterleavedTry<B, Q>(cfg: Config<B, Q>, v: View<B>, db: DbState<Doc<B>>, id: string, key: string, p: Patch<Q>,
                             now: string, snapshot: seq<Doc<B>>, d: Doc<B>)
    requires key in db.docs && p.docId.None? && p.rev.None? && Valid(db)
    requires db.faults == [Pass, Interleave(key, d), Pass, Pass]
    ensures var merged := Merge(Hydrate(key, Stored(d, db.nextRev)), p, cfg.mergeBody, now);
            AfterTryUpdate(cfg, v, db, id, key, p, now, snapshot, 1) ==
              (Saved(v, id, merged.(rev := Some(db.nextRev + 1))),
               DbState(db.docs[key := Stored(d, db.nextRev)][key := Stored(merged, db.nextRev + 1)], db.nextRev + 2, [],
                       db.log + [GetCall(key), PutCall(Some(key))] + [GetCall(key), PutCall(Some(key))]))
  {
    var db1 := DbState(db.docs[key := Stored(d, db.nextRev)], db.nextRev + 1, [Pass, Pass],
                       db.log + [GetCall(key), PutCall(Some(key))]);
    InterruptedAttempt(cfg, db, key, p, now, d);
    assert AttemptStep(cfg, db, key, p, now) == (Err(Conflict), db1);
    ConflictGoesToSecond(cfg, v, db, id, key, p, now, snapshot);
    RetrySaves(cfg, v, db1, id, key, p, now, snapshot);
  }

  /** The state a saved retry leaves, spelled out field by field. */
  lemma RetriedShape<B, Q>(cfg: Config<B, Q>, v: View<B>, orig: Doc<B>, id: string, p: Patch<Q>, now: string,
                           db: DbState<Doc<B>>, key: string, d: Doc<B>)
    requires orig.id == id && KeepsIdentity(p, id)
    ensures var merged := Merge(Hydrate(key, Stored(d, db.nextRev)), p, cfg.mergeBody, now);
            var saved := merged.(rev := Some(db.nextRev + 1));
            var v2 := Saved(Optimistic(cfg, v, orig, id, p, now), id, saved);
            var docs := db.docs[key := Stored(d, db.nextRev)][key := Stored(merged, db.nextRev + 1)];
            key in docs && docs[key] == Stored(merged, db.nextRev + 1) &&
            v2.records == ReplaceById(v.records, id, saved) && v2.error.None? && Settled(v2)
  {
    var merged := Merge(Hydrate(key, Stored(d, db.nextRev)), p, cfg.mergeBody, now);
    ReplaceTwice(v.records, id, Merge(orig, p, cfg.mergeBody, now), merged.(rev := Some(db.nextRev + 1)));
  }

  /** An update of a cached record that the guard lets through starts the first attempt from the optimistic view. */
  lemma UpdateRuns<B, Q>(cfg: Config<B, Q>, v: View<B>, db: DbState<Doc<B>>, id: string, p: Patch<Q>, now: string)
    requires FindById(v.records, id).Some? && cfg.guard(FindById(v.records, id).value, p).None?
    ensures var orig := FindById(v.records, id).value;
            AfterUpdate(cfg, v, db, id, p, now) ==
              AfterTryUpdate(cfg, Optimistic(cfg, v, orig, id, p, now), db, id, orig.docId.GetOr(id), p, now, v.records, 1)
  {
  }

  /** A conflict on the first attempt hands over to the second attempt, with the state the first one left. */
  lemma ConflictGoesToSecond<B, Q>(cfg: Config<B, Q>, v: View<B>, db: DbState<Doc<B>>, id: string, key: string,
                                   p: Patch<Q>, now: string, snapshot: seq<Doc<B>>)
    requires AttemptStep(cfg, db, key, p, now).0 == Err(Conflict)
    ensures AfterTryUpdate(cfg, v, db, id, key, p, now, snapshot, 1) ==
            AfterTryUpdate(cfg, v, AttemptStep(cfg, db, key, p, now).1, id, key, p, now, snapshot, 2)
  {
  }

  /** A second attempt with nothing in the way saves the patch merged onto the stored document. */
  lemma RetrySaves<B, Q>(cfg: Config<B, Q>, v: View<B>, db: DbState<Doc<B>>, id: string, key: string, p: Patch<Q>,
                         now: string, snapshot: seq<Doc<B>>)
    requires key in db.docs && p.docId.None? && p.rev.None? && db.faults == [Pass, Pass]
    ensures var merged := Merge(Hydrate(key, db.docs[key]), p, cfg.mergeBody, now);
            AfterTryUpdate(cfg, v, db, id, key, p, now, snapshot, 2) ==
              (Saved(v, id, merged.(rev := Some(db.nextRev))),
               DbState(db.docs[key := Stored(merged, db.nextRev)], db.nextRev + 1, [],
                       db.log + [GetCall(key), PutCall(Some(key))]))
  {
    CleanAttempt(cfg, db, key, p, now);
  }

  /** Two foreign writes, one before each write of ours: both writes conflict and the list goes back to its start. */
  lemma SecondConflictReverts<B, Q>(cfg: Config<B, Q>, v: View<B>, db: DbState<Doc<B>>, id: string, p: Patch<Q>, now: string, d1: Doc<B>, d2: Doc<B>)
    requires FindById(v.records, id).Some? && cfg.guard(FindById(v.records, id).value, p).None?
    requires KeepsIdentity(p, id) && Valid(db)
    requires var key := FindById(v.records, id).value.docId.GetOr(id);
             key in db.docs && db.faults == [Pass, Interleave(key, d1), Pass, Interleave(key, d2)]
    ensures var key := FindById(v.records, id).value.docId.GetOr(id);
            var (v2, db2) := AfterUpdate(cfg, v, db, id, p, now);
            db2.log == db.log + [GetCall(key), PutCall(Some(key)), GetCall(key), PutCall(Some(key))] &&
            v2.records == v.records && v2.error == Some(cfg.messages.update) && Settled(v2)
  {
    var orig := FindById(v.records, id).value;
    var key := orig.docId.GetOr(id);
    UpdateRuns(cfg, v, db, id, p, now);
    TwiceInterleavedTry(cfg, Optimistic(cfg, v, orig, id, p, now), db, id, key, p, now, v.records, d1, d2);
    AppendPairs(db.log, GetCall(key), PutCall(Some(key)), GetCall(key), PutCall(Some(key)));
  }

  /** The attempts of `tryUpdate` when a foreign write lands before each of its two writes. */
  lemma TwiceInterleavedTry<B, Q>(cfg: Config<B, Q>, v: View<B>, db: DbState<Doc<B>>, id: string, key: string, p: Patch<Q>,
                                  now: string, snapshot: seq<Doc<B>>, d1: Doc<B>, d2: Doc<B>)
    requires key in db.docs && p.docId.None? && p.rev.None? && Valid(db)
    requires db.faults == [Pass, Interleave(key, d1), Pass, Interleave(key, d2)]
    ensures AfterTryUpdate(cfg, v, db, id, key, p, now, snapshot, 1) ==
              (Reverted(cfg, v, snapshot),
               DbState(db.docs[key := Stored(d1, db.nextRev)][key := Stored(d2, db.nextRev + 1)], db.nextRev + 2, [],
                       db.log + [GetCall(key), PutCall(Some(key))] + [GetCall(key), PutCall(Some(key))]))
  {
    var db1 := DbState(db.docs[key := Stored(d1, db.nextRev)], db.nextRev + 1, [Pass, Interleave(key, d2)],
                       db.log + [GetCall(key), PutCall(Some(key))]);
    InterruptedAttempt(cfg, db, key, p, now, d1);
    assert AttemptStep(cfg, db, key, p, now) == (Err(Conflict), db1);
    ConflictGoesToSecond(cfg, v, db, id, key, p, now, snapshot);
    assert Valid(db1);
    InterruptedAttempt(cfg, db1, key, p, now, d2);
  }

  /**
   * The first read misses and the search of all documents fails: the failure
   * escapes the error handler, so nothing is reverted and the view keeps the
   * optimistic entry with `loading` and `updatingId` set.
   */
  lemma FallbackFailureEscapes<B, Q>(cfg: Config<B, Q>, v: View<B>, db: DbState<Doc<B>>, id: string, p: Patch<Q>, now: string)
    requires FindById(v.records, id).Some? && cfg.guard(FindById(v.records, id).value, p).None?
    requires db.faults == [Fail(NotFound), Fail(Other)]
    ensures var orig := FindById(v.records, id).value;
            var (v2, db2) := AfterUpdate(cfg, v, db, id, p, now);
            db2.log == db.log + [GetCall(orig.docId.GetOr(id)), AllDocsCall] &&
            v2 == Optimistic(cfg, v, orig, id, p, now) && v2.loading && v2.updatingId == Some(id) &&
            (v2.records != v.records <== v.records != ReplaceById(v.records, id, Merge(orig, p, cfg.mergeBody, now)))
  {
  }

  /** When exactly one stored document has the id, the search of all documents finds it under its key. */
  lemma SearchLocates<B>(docs: map<string, Stored<Doc<B>>>, id: string, k: string)
    requires k in docs && docs[k].doc.id == id
    requires forall k2 :: k2 in docs && k2 != k ==> docs[k2].doc.id != id
    ensures FindRow(Rows(docs, false), id).Some? && FindRow(Rows(docs, false), id).value.key == k
  {
    var rows := Rows(docs, false);
    RowsCover(docs, false, k);
    var i :| 0 <= i < |rows| && rows[i].key == k;
    assert rows[i].doc.id == id;
  }

  /** The database side of a successful search: the read under `key` misses, the listing holds the record under `k`, and the attempt there saves. */
  lemma SearchFinds<B, Q>(cfg: Config<B, Q>, db: DbState<Doc<B>>, id: string, key: string, p: Patch<Q>, now: string, k: string)
    requires KeepsIdentity(p, id) && db.faults == [] && key !in db.docs
    requires k in db.docs && db.docs[k].doc.id == id
    requires forall k2 :: k2 in db.docs && k2 != k ==> db.docs[k2].doc.id != id
    ensures var db1 := db.(log := db.log + [GetCall(key)]);
            var db2 := db1.(log := db1.log + [AllDocsCall]);
            var rows := Rows(db.docs, false);
            AttemptStep(cfg, db, key, p, now) == (Err(NotFound), db1) &&
            AllDocsStep(db1, false) == (Ok(rows), db2) &&
            FindRow(rows, id).Some? && FindRow(rows, id).value.key == k &&
            AttemptStep(cfg, db2, k, p, now).0 == Ok(Merge(Hydrate(k, db.docs[k]), p, cfg.mergeBody, now).(rev := Some(db.nextRev))) &&
            AttemptStep(cfg, db2, k, p, now).1.log == db.log + [GetCall(key), AllDocsCall, GetCall(k), PutCall(Some(k))]
  {
    var db1 := db.(log := db.log + [GetCall(key)]);
    var db2 := db1.(log := db1.log + [AllDocsCall]);
    var rows := Rows(db.docs, false);
    SearchLocates(db.docs, id, k);
    CleanAttempt(cfg, db2, k, p, now);
    assert db2.log == db.log + [GetCall(key), AllDocsCall];
    AppendPairs(db.log, GetCall(key), AllDocsCall, GetCall(k), PutCall(Some(k)));
  }

  /** The record is stored under another key: the first read misses, the search finds it, and the update is saved under that key. */
  lemma FallbackFindsMovedRecord<B, Q>(cfg: Config<B, Q>, v: View<B>, db: DbState<Doc<B>>, id: string, p: Patch<Q>, now: string, k: string)
    requires FindById(v.records, id).Some? && cfg.guard(FindById(v.records, id).value, p).None?
    requires KeepsIdentity(p, id) && db.faults == []
    requires FindById(v.records, id).value.docId.GetOr(id) !in db.docs
    requires k in db.docs && db.docs[k].doc.id == id
    requires forall k2 :: k2 in db.docs && k2 != k ==> db.docs[k2].doc.id != id
    ensures var key := FindById(v.records, id).value.docId.GetOr(id);
            var (v2, db2) := AfterUpdate(cfg, v, db, id, p, now);
            db2.log == db.log + [GetCall(key), AllDocsCall, GetCall(k), PutCall(Some(k))] &&
            v2.records == ReplaceById(v.records, id, Merge(Hydrate(k, db.docs[k]), p, cfg.mergeBody, now).(rev := Some(db.nextRev))) &&
            v2.error.None? && Settled(v2)
  {
    var orig := FindById(v.records, id).value;
    var key := orig.docId.GetOr(id);
    var o := Optimistic(cfg, v, orig, id, p, now);
    SearchFinds(cfg, db, id, key, p, now, k);
    var saved := Merge(Hydrate(k, db.docs[k]), p, cfg.mergeBody, now).(rev := Some(db.nextRev));
    assert AfterUpdate(cfg, v, db, id, p, now) == AfterTryUpdate(cfg, o, db, id, key, p, now, v.records, 1);
    ReplaceTwice(v.records, id, Merge(orig, p, cfg.mergeBody, now), saved);
  }

  /** The record is stored nowhere: the first read misses, the search finds nothing, and the list goes back to its start. */
  lemma MissingRecordReverts<B, Q>(cfg: Config<B, Q>, v: View<B>, db: DbState<Doc<B>>, id: string, p: Patch<Q>, now: string)
    requires FindById(v.records, id).Some? && cfg.guard(FindById(v.records, id).value, p).None?
    requires db.faults == [] && FindById(v.records, id).value.docId.GetOr(id) !in db.docs
    requires forall k :: k in db.docs ==> db.docs[k].doc.id != id
    ensures var key := FindById(v.records, id).value.docId.GetOr(id);
            var (v2, db2) := AfterUpdate(cfg, v, db, id, p, now);
            db2.log == db.log + [GetCall(key), AllDocsCall] &&
            v2.records == v.records && v2.error == Some(cfg.messages.update) && Settled(v2)
  {
    var rows := Rows(db.docs, false);
    assert FindRow(rows, id).None?;
  }

  /**
   * `addX` writes once; only a stored record is prepended, with the new
   * revision, and it is exactly what the database holds under its id.
   */
  lemma AddOutcome<B, Q>(cfg: Config<B, Q>, v: View<B>, db: DbState<Doc<B>>, body: B, rev: Option<Rev>, ms: nat, now: string)
    ensures var id := cfg.prefix + Text.Decimal(ms);
            var (v2, db2) := AfterAdd(cfg, v, db, body, rev, ms, now);
            db2.log == db.log + [PutCall(Some(id))] && !v2.loading && v2.updatingId == v.updatingId &&
            (v2.error.None? ==>
               |v2.records| == |v.records| + 1 && v2.records[1..] == v.records &&
               v2.records[0].id == id && v2.records[0].docId == Some(id) && v2.records[0].body == body &&
               v2.records[0].createdAt == now && v2.records[0].updatedAt == Some(now) &&
               id in db2.docs && Hydrate(id, db2.docs[id]) == v2.records[0]) &&
            (v2.error.Some? ==> v2.records == v.records && v2.error == Some(cfg.messages.create))
  {
    var (v2, db2) := AfterAdd(cfg, v, db, body, rev, ms, now);
    if v2.error.None? {
      assert v2.records[1..] == v.records;
    }
  }

  /** Two records created in the same millisecond get the same id, and the second write is refused as a conflict. */
  lemma SameMillisecondCollides<B, Q>(cfg: Config<B, Q>, v: View<B>, db: DbState<Doc<B>>, body1: B, body2: B, ms: nat, now: string)
    requires db.faults == [] && cfg.prefix + Text.Decimal(ms) !in db.docs
    ensures var (v1, db1) := AfterAdd(cfg, v, db, body1, None, ms, now);
            var (v2, db2) := AfterAdd(cfg, v1, db1, body2, None, ms, now);
            v1.error.None? && v2.error == Some(cfg.messages.create) && v2.records == v1.records
  {
  }

  /**
   * `deleteX` drops exactly the records with that id, and only after the
   * read and the removal both succeeded; otherwise the list is unchanged.
   */
  lemma DeleteOutcome<B, Q>(cfg: Config<B, Q>, v: View<B>, db: DbState<Doc<B>>, id: string)
    ensures var (v2, db2) := AfterDelete(cfg, v, db, id);
            !v2.loading && v2.updatingId == v.updatingId &&
            (FindById(v.records, id).None? ==>
               v2 == v.(error := Some(cfg.messages.notFound), loading := false) && db2 == db) &&
            (FindById(v.records, id).Some? ==>
               var key := FindById(v.records, id).value.docId.GetOr(id);
               (v2.error.None? && v2.records == RemoveById(v.records, id) && key !in db2.docs &&
                db2.log == db.log + [GetCall(key), RemoveCall(key)]) ||
               (v2.error == Some(cfg.messages.delete) && v2.records == v.records))
  {
  }

  /**
   * The list a load produces from `docs`: one entry per stored document, as a
   * read returns it, in strictly decreasing key order.
   */
  lemma LoadedListing<D>(docs: map<string, Stored<Doc<D>>>)
    ensures var r := Loaded(Rows(docs, true));
            |r| == |docs| &&
            (forall i :: 0 <= i < |r| ==> r[i].docId.Some? && r[i].docId.value in docs && r[i] == Hydrate(r[i].docId.value, docs[r[i].docId.value])) &&
            (forall k :: k in docs ==> exists i :: 0 <= i < |r| && r[i].docId == Some(k)) &&
            (forall i, j :: 0 <= i < j < |r| ==> Text.Less(r[j].docId.value, r[i].docId.value))
  {
    var rows := Rows(docs, true);
    var r := Loaded(rows);
    forall i | 0 <= i < |r|
      ensures r[i].docId == Some(rows[i].key) && r[i].docId.value in docs && r[i] == Hydrate(r[i].docId.value, docs[r[i].docId.value])
    {
    }
    RowsOrdered(docs, true);
    forall k | k in docs
      ensures exists i :: 0 <= i < |r| && r[i].docId == Some(k)
    {
      RowsCover(docs, true, k);
      var i :| 0 <= i < |rows| && rows[i].key == k;
      assert r[i].docId == Some(k);
    }
  }

  /**
   * `loadX` lists every stored document once, with its key and revision,
   * in strictly decreasing key order; a failed load keeps the list.
   */
  lemma LoadOutcome<B, Q>(cfg: Config<B, Q>, v: View<B>, db: DbState<Doc<B>>)
    ensures var (v2, db2) := AfterLoad(cfg, v, db);
            db2.log == db.log + [AllDocsCall] && !v2.loading && v2.updatingId == v.updatingId &&
            (v2.error.None? ==> v2.records == Loaded(Rows(db2.docs, true))) &&
            (v2.error.Some? ==> v2.records == v.records && v2.error == Some(cfg.messages.load))
  {
  }

  // ---------------------------------------------------------------------
  // The store object
  // ---------------------------------------------------------------------

  class Store<B, Q> {
    var records: seq<Doc<B>>
    var loading: bool
    var error: Option<string>
    var updatingId: Option<string>
    const db: Db<Doc<B>>
    const cfg: Config<B, Q>

    function Current(): View<B>
      reads this
    {
      View(records, loading, error, updatingId)
    }

    /** An empty store over `db`. */
    constructor (db: Db<Doc<B>>, cfg: Config<B, Q>)
      ensures Current() == View([], false, None, None)
      ensures this.db == db && this.cfg == cfg
    {
      this.db := db;
      this.cfg := cfg;
      records, loading, error, updatingId := [], false, None, None;
    }

    method Load()
      modifies this, db
      ensures (Current(), db.State()) == AfterLoad(cfg, old(Current()), old(db.State()))
    {
      loading, error := true, None;
      var rows := db.AllDocs(true);
      if rows.Ok? {
        records, loading := Loaded(rows.value), false;
      } else {
        error, loading := Some(cfg.messages.load), false;
      }
    }

    method Add(body: B, rev: Option<Rev>, ms: nat, now: string)
      modifies this, db
      ensures (Current(), db.State()) == AfterAdd(cfg, old(Current()), old(db.State()), body, rev, ms, now)
    {
      var d := NewDoc(cfg.prefix, body, rev, ms, now);
      loading, error := true, None;
      var r := db.Put(d.docId, d, d.rev);
      if r.Ok? {
        records, loading := [d.(rev := Some(r.value))] + records, false;
      } else {
        error, loading := Some(cfg.messages.create), false;
      }
    }

    /** One attempt of `tryUpdate` against the database object. */
    method Attempt(key: string, p: Patch<Q>, now: string) returns (r: Result<Doc<B>>)
      modifies db
      ensures (r, db.State()) == AttemptStep(cfg, old(db.State()), key, p, now)
    {
      var latest := db.Get(key);
      if latest.Err? {
        return Err(latest.error);
      }
      var updated := Merge(Hydrate(key, latest.value), p, cfg.mergeBody, now);
      var put := db.Put(updated.docId, updated, updated.rev);
      if put.Err? {
        return Err(put.error);
      }
      r := Ok(updated.(rev := Some(put.value)));
    }

    method TryUpdate(id: string, key: string, p: Patch<Q>, now: string, snapshot: seq<Doc<B>>, attempt: nat)
      requires attempt == 1 || attempt == 2
      modifies this, db
      ensures (Current(), db.State()) == AfterTryUpdate(cfg, old(Current()), old(db.State()), id, key, p, now, snapshot, attempt)
      decreases 2 - attempt
    {
      var r := Attempt(key, p, now);
      if r.Ok? {
        records, loading, updatingId := ReplaceById(records, id, r.value), false, None;
        return;
      }
      if r.error == NotFound && attempt == 1 {
        var rows := db.AllDocs(false);
        if rows.Err? {
          return;
        }
        var found := FindRow(rows.value, id);
        if found.Some? {
          var r2 := Attempt(found.value.key, p, now);
          if r2.Ok? {
            records, loading, updatingId := ReplaceById(records, id, r2.value), false, None;
          }
          return;
        }
      } else if r.error == Conflict && attempt == 1 {
        TryUpdate(id, key, p, now, snapshot, 2);
        return;
      }
      records, error, loading, updatingId := snapshot, Some(cfg.messages.update), false, None;
    }

    method Update(id: string, p: Patch<Q>, now: string)
      modifies this, db
      ensures (Current(), db.State()) == AfterUpdate(cfg, old(Current()), old(db.State()), id, p, now)
    {
      updatingId, loading, error := Some(id), true, None;
      var current := records;
      var orig := FindById(current, id);
      if orig.None? {
        error, loading, updatingId := Some(cfg.messages.notFound), false, None;
        return;
      }
      var optimistic := Merge(orig.value, p, cfg.mergeBody, now);
      var refusal := cfg.guard(orig.value, p);
      if refusal.Some? {
        error, loading, updatingId := refusal, false, None;
        return;
      }
      records := ReplaceById(current, id, optimistic);
      TryUpdate(id, orig.value.docId.GetOr(id), p, now, current, 1);
    }

    method Delete(id: string)
      modifies this, db
      ensures (Current(), db.State()) == AfterDelete(cfg, old(Current()), old(db.State()), id)
    {
      loading, error := true, None;
      var current := records;
      var d := FindById(current, id);
      if d.None? {
        error, loading := Some(cfg.messages.notFound), false;
        return;
      }
      var key := d.value.docId.GetOr(id);
      var latest := db.Get(key);
      if latest.Err? {
        error, loading := Some(cfg.messages.delete), false;
        return;
      }
      var r := db.Remove(key, latest.value.rev);
      if r.Err? {
        error, loading := Some(cfg.messages.delete), false;
        return;
      }
      records, loading := RemoveById(current, id), false;
    }

    /** `setX(list)`: replaces the list and nothing else. */
    method SetRecords(xs: seq<Doc<B>>)
      modifies this
      ensures Current() == old(Current()).(records := xs)
    {
      records := xs;
    }
  }
}
