/**
 * The menu store (`src/stores/menuStore.ts`). Unlike the order and table
 * stores it has two backends, chosen once: the `orderin-menu` database when
 * IndexedDB and PouchDB are present, otherwise a whole-list snapshot kept in
 * local storage under `orderin-menu-items`. `addItem` and `updateItem` call
 * each other (an add of a cached id becomes an update, an update of a missing
 * document becomes an add); the model bounds that recursion by `fuel`.
 */
module Menu {
  import opened Wrappers
  import opened DocDb
  import opened RecordStore

  /** The fields a menu item has besides its id, revision and timestamps. */
  datatype MenuBody = MenuBody(name: string, description: Option<string>, price: int, category: string,
                               imageUrl: Option<string>, isAvailable: bool)

  /**
   * A menu item; `docId` is `_id` and `rev` is `_rev`, absent (`None`) when
   * the object does not carry the property at all.
   */
  type MenuItem = Doc<MenuBody>

  /** The store's list and the local-storage snapshot (`None`: the key is absent). */
  datatype MenuState = MenuState(items: seq<MenuItem>, saved: Option<seq<MenuItem>>)

  /** How an `async` operation ended: resolved, rejected with an error, or past the recursion bound. */
  datatype Outcome = Done | Threw(error: DbError) | OutOfFuel

  /** `{ ...item, id: item.id || crypto.randomUUID() }`, the fresh id being `uuid`. */
  function WithId(item: MenuItem, uuid: string): MenuItem {
    if item.id == "" then item.(id := uuid) else item
  }

  /** `{ _id: item.id, ...item, updatedAt: now }`: the document `addItem` writes. */
  function AddedDoc(item: MenuItem, now: string): MenuItem {
    item.(docId := Some(item.docId.GetOr(item.id)), updatedAt := Some(now))
  }

  /** `{ ...existing, ...item, updatedAt: now }`: every property the item carries wins. */
  function Overlay(existing: MenuItem, item: MenuItem, now: string): MenuItem {
    Doc(item.id,
        if item.docId.Some? then item.docId else existing.docId,
        if item.rev.Some? then item.rev else existing.rev,
        MenuBody(item.body.name,
                 if item.body.description.Some? then item.body.description else existing.body.description,
                 item.body.price, item.body.category,
                 if item.body.imageUrl.Some? then item.body.imageUrl else existing.body.imageUrl,
                 item.body.isAvailable),
        item.createdAt, Some(now))
  }

  /** The stored document holds the item's own fields, stamped with `now`. */
  predicate Carries(doc: MenuItem, item: MenuItem, now: string) {
    doc.id == item.id && doc.createdAt == item.createdAt && doc.updatedAt == Some(now) &&
    doc.body.name == item.body.name && doc.body.price == item.body.price &&
    doc.body.category == item.body.category && doc.body.isAvailable == item.body.isAvailable &&
    (item.body.description.Some? ==> doc.body.description == item.body.description) &&
    (item.body.imageUrl.Some? ==> doc.body.imageUrl == item.body.imageUrl)
  }

  /** `{ id: _id, _rev, ...cleanDoc }`: the stored document's own `id` wins, `_id` is dropped. */
  function LoadedItems(rows: seq<Row<MenuItem>>): (r: seq<MenuItem>)
    ensures |r| == |rows|
    ensures forall i :: 0 <= i < |r| ==>
              r[i].rev == Some(rows[i].rev) && r[i].docId.None? &&
              r[i].id == rows[i].doc.id && r[i].body == rows[i].doc.body
  {
    seq(|rows|, i requires 0 <= i < |rows| => rows[i].doc.(docId := None, rev := Some(rows[i].rev)))
  }

  /**
   * `loadItems`: read every document (ascending key order) or the snapshot,
   * then take what was read unless it is empty while the list is not. A
   * failed read changes nothing; the call never rejects and returns the list.
   */
  function AfterLoadItems(m: MenuState, db: DbState<MenuItem>, usePouch: bool): (MenuState, DbState<MenuItem>)
  {
    if !usePouch then (Adopt(m, m.saved.GetOr([])), db)
    else
      var (r, db1) := AllDocsStep(db, false);
      if r.Err? then (m, db1) else (Adopt(m, LoadedItems(r.value)), db1)
  }

  /** The list takes what was read unless that is empty while the list is not. */
  function Adopt(m: MenuState, persisted: seq<MenuItem>): MenuState {
    if |persisted| > 0 || |m.items| == 0 then m.(items := persisted) else m
  }

  /** The get and put `updateItem` makes: read the document, lay the item over it, write it back. */
  function PutAttempt(db: DbState<MenuItem>, item: MenuItem, now: string): (r: (Result<Rev>, DbState<MenuItem>))
    ensures r.0.Ok? && item.docId.None? ==>
              item.id in r.1.docs && r.1.docs[item.id].rev == r.0.value && Carries(r.1.docs[item.id].doc, item, now)
    ensures |r.1.log| == |db.log| + 1 || |r.1.log| == |db.log| + 2
  {
    var (g, db1) := GetStep(db, item.id);
    if g.Err? then (Err(g.error), db1)
    else
      var doc := Overlay(Hydrate(item.id, g.value), item, now);
      PutStep(db1, doc.docId, doc, doc.rev)
  }

  /**
   * `addItem(item)`: an id already in the list is handed to `updateItem` and
   * the call resolves with the item as given; otherwise the item (its id
   * defaulted) is put first in the list before the backend is written, gains
   * the new revision on success, and is filtered out again, with the snapshot
   * rewritten, when the write fails.
   */
  function AfterAddItem(m: MenuState, db: DbState<MenuItem>, usePouch: bool, item: MenuItem, uuid: string,
                        now: string, fuel: nat): (MenuState, DbState<MenuItem>, Outcome, MenuItem)
    decreases fuel
  {
    if FindById(m.items, item.id).Some? then
      if fuel == 0 then (m, db, OutOfFuel, item)
      else
        var (m1, db1, o) := AfterUpdateItem(m, db, usePouch, item, uuid, now, fuel - 1);
        (m1, db1, o, item)
    else
      var x := WithId(item, uuid);
      var m1 := m.(items := [x] + m.items);
      if usePouch then
        var doc := AddedDoc(x, now);
        var (r, db1) := PutStep(db, doc.docId, doc, doc.rev);
        if r.Ok? then (m1.(items := ReplaceById(m1.items, x.id, x.(rev := Some(r.value)))), db1, Done, x)
        else
          var rest := RemoveById(m1.items, x.id);
          (m1.(items := rest, saved := Some(rest)), db1, Threw(r.error), x)
      else (m1.(saved := Some(m1.items)), db, Done, x)
  }

  /**
   * `updateItem(item)`: the list changes only once a write has succeeded,
   * the entry becoming the item with the new revision; a conflict reads and
   * writes exactly once more, a missing document is handed to `addItem`, and
   * any other failure rejects with the list unchanged. Without the database
   * the entry is replaced, stamped with `now`, and the snapshot rewritten.
   */
  function AfterUpdateItem(m: MenuState, db: DbState<MenuItem>, usePouch: bool, item: MenuItem, uuid: string,
                           now: string, fuel: nat): (MenuState, DbState<MenuItem>, Outcome)
    decreases fuel
  {
    if !usePouch then
      var items := ReplaceById(m.items, item.id, item.(updatedAt := Some(now)));
      (m.(items := items, saved := Some(items)), db, Done)
    else
      var (r1, db1) := PutAttempt(db, item, now);
      if r1.Ok? then (m.(items := ReplaceById(m.items, item.id, item.(rev := Some(r1.value)))), db1, Done)
      else if r1.error == NotFound then
        if fuel == 0 then (m, db1, OutOfFuel)
        else
          var (m2, db2, o, _) := AfterAddItem(m, db1, usePouch, item, uuid, now, fuel - 1);
          (m2, db2, o)
      else if r1.error == Conflict then
        var (r2, db2) := PutAttempt(db1, item, now);
        if r2.Ok? then (m.(items := ReplaceById(m.items, item.id, item.(rev := Some(r2.value)))), db2, Done)
        else (m, db2, Threw(r2.error))
      else (m, db1, Threw(r1.error))
  }

  /** `deleteItem(id)`: read, remove at the read revision, and only then drop the entries with that id. */
  function AfterDeleteItem(m: MenuState, db: DbState<MenuItem>, usePouch: bool, id: string): (MenuState, DbState<MenuItem>, Outcome)
  {
    if usePouch then
      var (g, db1) := GetStep(db, id);
      if g.Err? then (m, db1, Threw(g.error))
      else
        var (r, db2) := RemoveStep(db1, id, g.value.rev);
        if r.Err? then (m, db2, Threw(r.error))
        else (m.(items := RemoveById(m.items, id)), db2, Done)
    else
      var items := RemoveById(m.items, id);
      (m.(items := items, saved := Some(items)), db, Done)
  }

  function Flipped(x: MenuItem): MenuItem {
    x.(body := x.body.(isAvailable := !x.body.isAvailable))
  }

  /** `toggleAvailability(id)`: update the cached item with `isAvailable` inverted; nothing for an unknown id. */
  function AfterToggle(m: MenuState, db: DbState<MenuItem>, usePouch: bool, id: string, uuid: string,
                       now: string, fuel: nat): (MenuState, DbState<MenuItem>, Outcome)
  {
    var x := FindById(m.items, id);
    if x.None? then (m, db, Done)
    else AfterUpdateItem(m, db, usePouch, Flipped(x.value), uuid, now, fuel)
  }

  /** Filtering out an id no entry has leaves the list as it was. */
  lemma {:induction false} RemoveAbsent<B>(xs: seq<Doc<B>>, id: string)
    requires forall i :: 0 <= i < |xs| ==> xs[i].id != id
    ensures RemoveById(xs, id) == xs
  {
    if xs != [] {
      RemoveAbsent(xs[1..], id);
    }
  }

  /** Replacing the entries with an id, then filtering them out, is filtering them out. */
  lemma {:induction false} RemoveAfterReplace<B>(xs: seq<Doc<B>>, id: string, d: Doc<B>)
    requires d.id == id
    ensures RemoveById(ReplaceById(xs, id, d), id) == RemoveById(xs, id)
  {
    if xs != [] {
      assert ReplaceById(xs, id, d)[1..] == ReplaceById(xs[1..], id, d);
      RemoveAfterReplace(xs[1..], id, d);
    }
  }

  /**
   * What a successful add or update leaves behind: the document under the
   * item's id holds the item's fields, every entry with that id is the item
   * with the document's revision, and the other entries are as they were.
   */
  ghost predicate Written(m: MenuState, m2: MenuState, db2: DbState<MenuItem>, item: MenuItem, now: string) {
    item.id in db2.docs && Carries(db2.docs[item.id].doc, item, now) &&
    RemoveById(m2.items, item.id) == RemoveById(m.items, item.id) &&
    forall i :: 0 <= i < |m2.items| && m2.items[i].id == item.id ==>
      m2.items[i] == item.(rev := Some(db2.docs[item.id].rev))
  }

  /**
   * `addItem` against the database: it resolves with the item as given;
   * success leaves the item written and listed; a rejection or the
   * recursion bound leaves the list as it was; a cached id never gains a
   * second entry, and a new one gains exactly one.
   */
  lemma {:induction false} AddOutcomes(m: MenuState, db: DbState<MenuItem>, item: MenuItem, uuid: string, now: string, fuel: nat)
    requires item.id != "" && item.docId.None?
    ensures var (m2, db2, o, x) := AfterAddItem(m, db, true, item, uuid, now, fuel);
            x == item &&
            (o.Done? ==> Written(m, m2, db2, item, now) && FindById(m2.items, item.id).Some?) &&
            (!o.Done? ==> m2.items == m.items) &&
            (FindById(m.items, item.id).Some? ==> |m2.items| == |m.items|) &&
            (FindById(m.items, item.id).None? && o.Done? ==> |m2.items| == |m.items| + 1)
    decreases fuel
  {
    if FindById(m.items, item.id).Some? {
      if fuel > 0 {
        AddOfCachedUpdates(m, db, item, uuid, now, fuel);
        UpdateOutcomes(m, db, item, uuid, now, fuel - 1);
      }
    } else {
      AddFresh(m, db, item, uuid, now, fuel);
    }
  }

  /** `addItem` of a cached id is `updateItem` of the item, resolving with the item as given. */
  lemma AddOfCachedUpdates(m: MenuState, db: DbState<MenuItem>, item: MenuItem, uuid: string, now: string, fuel: nat)
    requires FindById(m.items, item.id).Some? && fuel > 0
    ensures var r := AfterUpdateItem(m, db, true, item, uuid, now, fuel - 1);
            AfterAddItem(m, db, true, item, uuid, now, fuel) == (r.0, r.1, r.2, item)
  {
  }

  /** `addItem` of an id not in the list: one write, after which the item is listed once more or not at all. */
  lemma AddFresh(m: MenuState, db: DbState<MenuItem>, item: MenuItem, uuid: string, now: string, fuel: nat)
    requires item.id != "" && item.docId.None? && FindById(m.items, item.id).None?
    ensures var (m2, db2, o, x) := AfterAddItem(m, db, true, item, uuid, now, fuel);
            x == item &&
            (o.Done? ==> Written(m, m2, db2, item, now) && FindById(m2.items, item.id).Some? &&
                         |m2.items| == |m.items| + 1) &&
            (!o.Done? ==> m2.items == m.items)
  {
    var doc := AddedDoc(item, now);
    var (r, db1) := PutStep(db, Some(item.id), doc, item.rev);
    AddFreshWrites(m, db, item, uuid, now, fuel);
    assert ([item] + m.items)[1..] == m.items;
    if r.Ok? {
      var d := item.(rev := Some(r.value));
      var items := ReplaceById([item] + m.items, item.id, d);
      RemoveAfterReplace([item] + m.items, item.id, d);
      assert items[0].id == item.id;
      assert Carries(doc, item, now);
    } else {
      RemoveAbsent(m.items, item.id);
    }
  }

  /** `addItem` of an id not in the list: the list and snapshot after its one write. */
  lemma AddFreshWrites(m: MenuState, db: DbState<MenuItem>, item: MenuItem, uuid: string, now: string, fuel: nat)
    requires item.id != "" && item.docId.None? && FindById(m.items, item.id).None?
    ensures var (r, db1) := PutStep(db, Some(item.id), AddedDoc(item, now), item.rev);
            var listed := [item] + m.items;
            AfterAddItem(m, db, true, item, uuid, now, fuel) ==
              if r.Ok? then (m.(items := ReplaceById(listed, item.id, item.(rev := Some(r.value)))), db1, Done, item)
              else (m.(items := RemoveById(listed, item.id), saved := Some(RemoveById(listed, item.id))), db1, Threw(r.error), item)
  {
  }

  /**
   * What `updateItem` leaves behind, `r` being the new list and snapshot,
   * database and outcome: success leaves the item written (and still listed
   * when it was cached); any other ending leaves the list as it was; a cached
   * item's entry count never changes.
   */
  ghost predicate UpdateEnded(m: MenuState, item: MenuItem, now: string, r: (MenuState, DbState<MenuItem>, Outcome)) {
    (r.2.Done? ==> Written(m, r.0, r.1, item, now)) &&
    (r.2.Done? && FindById(m.items, item.id).Some? ==> FindById(r.0.items, item.id).Some?) &&
    (!r.2.Done? ==> r.0.items == m.items) &&
    (FindById(m.items, item.id).Some? ==> |r.0.items| == |m.items|)
  }

  /** `updateItem` against the database always ends as `UpdateEnded` describes. */
  lemma {:induction false} UpdateOutcomes(m: MenuState, db: DbState<MenuItem>, item: MenuItem, uuid: string, now: string, fuel: nat)
    requires item.id != "" && item.docId.None?
    ensures UpdateEnded(m, item, now, AfterUpdateItem(m, db, true, item, uuid, now, fuel))
    decreases fuel
  {
    var (r1, db1) := PutAttempt(db, item, now);
    if r1.Ok? {
      ReplacedWritten(m, db1, item, now, r1.value);
      assert AfterUpdateItem(m, db, true, item, uuid, now, fuel) ==
             (m.(items := ReplaceById(m.items, item.id, item.(rev := Some(r1.value)))), db1, Done);
    } else if r1.error == NotFound {
      if fuel > 0 {
        UpdateOfMissingAdds(m, db, item, uuid, now, fuel);
        AddOutcomes(m, db1, item, uuid, now, fuel - 1);
      } else {
        assert AfterUpdateItem(m, db, true, item, uuid, now, fuel) == (m, db1, OutOfFuel);
      }
    } else if r1.error == Conflict {
      var (r2, db2) := PutAttempt(db1, item, now);
      if r2.Ok? {
        ReplacedWritten(m, db2, item, now, r2.value);
        assert AfterUpdateItem(m, db, true, item, uuid, now, fuel) ==
               (m.(items := ReplaceById(m.items, item.id, item.(rev := Some(r2.value)))), db2, Done);
      } else {
        assert AfterUpdateItem(m, db, true, item, uuid, now, fuel) == (m, db2, Threw(r2.error));
      }
    } else {
      assert AfterUpdateItem(m, db, true, item, uuid, now, fuel) == (m, db1, Threw(r1.error));
    }
  }

  /** `updateItem` of an item whose document is missing is `addItem` of the item after the failed read. */
  lemma UpdateOfMissingAdds(m: MenuState, db: DbState<MenuItem>, item: MenuItem, uuid: string, now: string, fuel: nat)
    requires PutAttempt(db, item, now).0 == Err(NotFound) && fuel > 0
    ensures var a := AfterAddItem(m, PutAttempt(db, item, now).1, true, item, uuid, now, fuel - 1);
            AfterUpdateItem(m, db, true, item, uuid, now, fuel) == (a.0, a.1, a.2)
  {
  }

  /** The list `updateItem` builds after a successful write is `Written`. */
  lemma ReplacedWritten(m: MenuState, db2: DbState<MenuItem>, item: MenuItem, now: string, r: Rev)
    requires item.id in db2.docs && db2.docs[item.id].rev == r && Carries(db2.docs[item.id].doc, item, now)
    ensures var m2 := m.(items := ReplaceById(m.items, item.id, item.(rev := Some(r))));
            Written(m, m2, db2, item, now) && |m2.items| == |m.items| &&
            (FindById(m.items, item.id).Some? ==> FindById(m2.items, item.id).Some?)
  {
    var d := item.(rev := Some(r));
    RemoveAfterReplace(m.items, item.id, d);
    if FindById(m.items, item.id).Some? {
      var j :| 0 <= j < |m.items| && m.items[j].id == item.id;
      assert ReplaceById(m.items, item.id, d)[j].id == item.id;
    }
  }

  /**
   * An id that is cached but has no document makes `addItem` and
   * `updateItem` call each other forever: whatever the bound, it is reached.
   */
  lemma {:induction false} CachedButMissingDiverges(m: MenuState, db: DbState<MenuItem>, item: MenuItem, uuid: string, now: string, fuel: nat)
    requires FindById(m.items, item.id).Some? && item.id !in db.docs && db.faults == []
    ensures AfterAddItem(m, db, true, item, uuid, now, fuel).2 == OutOfFuel
    ensures AfterUpdateItem(m, db, true, item, uuid, now, fuel).2 == OutOfFuel
    decreases fuel
  {
    if fuel > 0 {
      var (_, db1) := PutAttempt(db, item, now);
      CachedButMissingDiverges(m, db, item, uuid, now, fuel - 1);
      CachedButMissingDiverges(m, db1, item, uuid, now, fuel - 1);
    }
  }

  /**
   * A write by someone else between the read and the write of `updateItem`
   * is recovered from when the item carries no revision: two reads, two
   * writes, and the entry ends with the retry's revision.
   */
  lemma ForeignWriteRetried(m: MenuState, db: DbState<MenuItem>, item: MenuItem, uuid: string, now: string, fuel: nat, d: MenuItem)
    requires Valid(db) && item.docId.None? && item.rev.None? && item.id in db.docs
    requires db.faults == [Pass, Interleave(item.id, d)]
    ensures var (m2, db2, o) := AfterUpdateItem(m, db, true, item, uuid, now, fuel);
            o == Done &&
            db2.log == db.log + [GetCall(item.id), PutCall(Some(item.id)), GetCall(item.id), PutCall(Some(item.id))] &&
            m2.items == ReplaceById(m.items, item.id, item.(rev := Some(db.nextRev + 1)))
  {
    assert db.docs[item.id].rev < db.nextRev;
    var (r1, db1) := PutAttempt(db, item, now);
    assert r1 == Err(Conflict) && db1.log == db.log + [GetCall(item.id), PutCall(Some(item.id))];
    var (r2, db2) := PutAttempt(db1, item, now);
    assert r2 == Ok(db.nextRev + 1);
    assert db2.log == db1.log + [GetCall(item.id), PutCall(Some(item.id))];
  }

  /**
   * The retry after a conflict re-sends the caller's revision, which the
   * overlay lets win over the one just read: an item carrying the revision
   * it was loaded with loses the retry too, and the update rejects with the
   * list unchanged.
   */
  lemma CachedRevisionLosesRetry(m: MenuState, db: DbState<MenuItem>, item: MenuItem, uuid: string, now: string, fuel: nat, d: MenuItem)
    requires Valid(db) && item.docId.None? && item.id in db.docs && item.rev == Some(db.docs[item.id].rev)
    requires db.faults == [Pass, Interleave(item.id, d)]
    ensures var (m2, db2, o) := AfterUpdateItem(m, db, true, item, uuid, now, fuel);
            o == Threw(Conflict) && m2 == m &&
            db2.log == db.log + [GetCall(item.id), PutCall(Some(item.id)), GetCall(item.id), PutCall(Some(item.id))] &&
            db2.docs == db.docs[item.id := Stored(d, db.nextRev)]
  {
    assert db.docs[item.id].rev < db.nextRev;
  }

  /**
   * Adding a new item and then toggling it writes twice with one read in
   * between, and leaves the listed item with `isAvailable` inverted.
   */
  lemma AddThenToggle(m: MenuState, db: DbState<MenuItem>, item: MenuItem, uuid: string, now1: string, now2: string,
                      fuel1: nat, fuel2: nat)
    requires item.id != "" && item.docId.None? && item.rev.None?
    requires FindById(m.items, item.id).None? && item.id !in db.docs && db.faults == []
    ensures var (m1, db1, o1, _) := AfterAddItem(m, db, true, item, uuid, now1, fuel1);
            var (m2, db2, o2) := AfterToggle(m1, db1, true, item.id, uuid, now2, fuel2);
            o1 == Done && o2 == Done &&
            db2.log == db.log + [PutCall(Some(item.id)), GetCall(item.id), PutCall(Some(item.id))] &&
            FindById(m2.items, item.id).Some? &&
            FindById(m2.items, item.id).value.body.isAvailable == !item.body.isAvailable
  {
    var (m1, db1, o1, _) := AfterAddItem(m, db, true, item, uuid, now1, fuel1);
    var d1 := item.(rev := Some(db.nextRev));
    assert m1.items == ReplaceById([item] + m.items, item.id, d1);
    assert m1.items[0] == d1;
    assert FindById(m1.items, item.id) == Some(d1);
    var d2 := Flipped(d1).(rev := Some(db.nextRev + 1));
    var (m2, db2, o2) := AfterToggle(m1, db1, true, item.id, uuid, now2, fuel2);
    assert m2.items == ReplaceById(m1.items, item.id, d2);
    assert m2.items[0] == d2;
  }

  /**
   * `toggleAvailability` of an unknown id does nothing; otherwise it ends
   * like `updateItem`, and on success every entry with the id has the
   * opposite availability of the cached item.
   */
  lemma ToggleOutcome(m: MenuState, db: DbState<MenuItem>, id: string, uuid: string, now: string, fuel: nat)
    requires id != ""
    ensures var (m2, db2, o) := AfterToggle(m, db, true, id, uuid, now, fuel);
            (FindById(m.items, id).None? ==> m2 == m && db2 == db && o == Done) &&
            (FindById(m.items, id).Some? && FindById(m.items, id).value.docId.None? ==>
               (o.Done? ==> forall i :: 0 <= i < |m2.items| && m2.items[i].id == id ==>
                              m2.items[i].body.isAvailable == !FindById(m.items, id).value.body.isAvailable) &&
               (!o.Done? ==> m2.items == m.items))
  {
    var x := FindById(m.items, id);
    if x.Some? && x.value.docId.None? {
      UpdateOutcomes(m, db, Flipped(x.value), uuid, now, fuel);
    }
  }

  /**
   * `deleteItem`: success drops exactly the entries with the id (and its
   * document); a rejection changes nothing; without the database the
   * filtered list is also saved.
   */
  lemma DeleteOutcome(m: MenuState, db: DbState<MenuItem>, usePouch: bool, id: string)
    ensures var (m2, db2, o) := AfterDeleteItem(m, db, usePouch, id);
            !o.OutOfFuel? &&
            (o.Done? ==> (forall i :: 0 <= i < |m2.items| ==> m2.items[i].id != id) &&
                         (forall i :: 0 <= i < |m.items| && m.items[i].id != id ==> m.items[i] in m2.items) &&
                         (usePouch ==> id !in db2.docs && m2.saved == m.saved) &&
                         (!usePouch ==> m2.saved == Some(m2.items) && db2 == db)) &&
            (o.Threw? ==> usePouch && m2 == m)
  {
  }

  /**
   * `loadItems` never empties a non-empty list and never touches the
   * snapshot; an empty read keeps the list; a read of a non-empty snapshot
   * or of a non-empty database that did not fail is what the list becomes;
   * a failed read of the database leaves the state as it was.
   */
  lemma LoadItemsOutcome(m: MenuState, db: DbState<MenuItem>, usePouch: bool)
    ensures var (m2, db2) := AfterLoadItems(m, db, usePouch);
            m2.saved == m.saved &&
            (|m.items| > 0 ==> |m2.items| > 0) &&
            (!usePouch ==> db2 == db &&
                           (m.saved.GetOr([]) == [] ==> m2.items == m.items) &&
                           (m.saved.GetOr([]) != [] ==> m2.items == m.saved.value)) &&
            (usePouch ==> db2.log == db.log + [AllDocsCall] &&
                          (m2.items == m.items || m2.items == LoadedItems(Rows(db2.docs, false))) &&
                          (db.faults != [] && db.faults[0].Fail? ==> m2 == m) &&
                          ((db.faults == [] || db.faults[0].Pass?) && |db.docs| > 0 ==>
                             db2.docs == db.docs && m2.items == LoadedItems(Rows(db.docs, false))))
  {
    if usePouch && (db.faults == [] || db.faults[0].Pass?) && |db.docs| > 0 {
      var k :| k in db.docs;
      RowsCover(db.docs, false, k);
    }
  }

  /** Every stored document shows up once loaded, with its own id and its revision. */
  lemma LoadedCovers(docs: map<string, Stored<MenuItem>>, k: string)
    requires k in docs
    ensures var loaded := LoadedItems(Rows(docs, false));
            exists i :: 0 <= i < |loaded| && loaded[i].id == docs[k].doc.id && loaded[i].rev == Some(docs[k].rev) &&
                        loaded[i].body == docs[k].doc.body
  {
    RowsCover(docs, false, k);
    var i :| 0 <= i < |Rows(docs, false)| && Rows(docs, false)[i].key == k;
    assert LoadedItems(Rows(docs, false))[i].rev == Some(docs[k].rev);
  }

  /**
   * Without the database every add, update and delete resolves, leaves the
   * database alone, and saves exactly the list it leaves.
   */
  lemma FallbackWritesThrough(m: MenuState, db: DbState<MenuItem>, item: MenuItem, id: string, uuid: string, now: string, fuel: nat)
    ensures var (m2, db2, o) := AfterUpdateItem(m, db, false, item, uuid, now, fuel);
            o == Done && db2 == db && m2.saved == Some(m2.items)
    ensures var (m2, db2, o, _) := AfterAddItem(m, db, false, item, uuid, now, fuel);
            (fuel > 0 || FindById(m.items, item.id).None?) ==> o == Done && db2 == db && m2.saved == Some(m2.items)
    ensures var (m2, db2, o) := AfterDeleteItem(m, db, false, id);
            o == Done && db2 == db && m2.saved == Some(m2.items)
  {
  }

  /** Loading from a snapshot that matches the list changes nothing. */
  lemma FallbackReloadStable(m: MenuState, db: DbState<MenuItem>)
    requires m.saved == Some(m.items)
    ensures AfterLoadItems(m, db, false) == (m, db)
  {
  }

  class MenuStore {
    var items: seq<MenuItem>
    var saved: Option<seq<MenuItem>>
    const db: Db<MenuItem>
    const usePouch: bool

    function Current(): MenuState
      reads this
    {
      MenuState(items, saved)
    }

    /** An empty store; `usePouch` is the backend test made when the module loads. */
    constructor (db: Db<MenuItem>, usePouch: bool, saved: Option<seq<MenuItem>>)
      ensures Current() == MenuState([], saved)
      ensures this.db == db && this.usePouch == usePouch
    {
      this.db := db;
      this.usePouch := usePouch;
      this.items := [];
      this.saved := saved;
    }

    method LoadItems() returns (r: seq<MenuItem>)
      modifies this, db
      ensures (Current(), db.State()) == AfterLoadItems(old(Current()), old(db.State()), usePouch)
      ensures r == items
    {
      var persisted: seq<MenuItem>;
      if usePouch {
        var rows := db.AllDocs(false);
        if rows.Err? {
          return items;
        }
        persisted := LoadedItems(rows.value);
      } else {
        persisted := saved.GetOr([]);
      }
      if |persisted| > 0 || |items| == 0 {
        items := persisted;
      }
      r := items;
    }

    /** One get-then-put of `updateItem` against the database object. */
    method Attempt(item: MenuItem, now: string) returns (r: Result<Rev>)
      modifies db
      ensures (r, db.State()) == PutAttempt(old(db.State()), item, now)
    {
      var g := db.Get(item.id);
      if g.Err? {
        return Err(g.error);
      }
      var doc := Overlay(Hydrate(item.id, g.value), item, now);
      r := db.Put(doc.docId, doc, doc.rev);
    }

    method AddItem(item: MenuItem, uuid: string, now: string, fuel: nat) returns (o: Outcome, x: MenuItem)
      modifies this, db
      ensures (Current(), db.State(), o, x) == AfterAddItem(old(Current()), old(db.State()), usePouch, item, uuid, now, fuel)
      decreases fuel
    {
      if FindById(items, item.id).Some? {
        if fuel == 0 {
          return OutOfFuel, item;
        }
        o := UpdateItem(item, uuid, now, fuel - 1);
        return o, item;
      }
      x := WithId(item, uuid);
      items := [x] + items;
      if !usePouch {
        saved := Some(items);
        return Done, x;
      }
      var doc := AddedDoc(x, now);
      var r := db.Put(doc.docId, doc, doc.rev);
      if r.Ok? {
        items := ReplaceById(items, x.id, x.(rev := Some(r.value)));
        o := Done;
      } else {
        items := RemoveById(items, x.id);
        saved := Some(items);
        o := Threw(r.error);
      }
    }

    method UpdateItem(item: MenuItem, uuid: string, now: string, fuel: nat) returns (o: Outcome)
      modifies this, db
      ensures (Current(), db.State(), o) == AfterUpdateItem(old(Current()), old(db.State()), usePouch, item, uuid, now, fuel)
      decreases fuel
    {
      if !usePouch {
        items := ReplaceById(items, item.id, item.(updatedAt := Some(now)));
        saved := Some(items);
        return Done;
      }
      var r := Attempt(item, now);
      if r.Err? && r.error == NotFound {
        if fuel == 0 {
          return OutOfFuel;
        }
        var added;
        o, added := AddItem(item, uuid, now, fuel - 1);
        return;
      }
      if r.Err? && r.error == Conflict {
        r := Attempt(item, now);
      } else if r.Err? {
        return Threw(r.error);
      }
      if r.Err? {
        return Threw(r.error);
      }
      items := ReplaceById(items, item.id, item.(rev := Some(r.value)));
      o := Done;
    }

    method DeleteItem(id: string) returns (o: Outcome)
      modifies this, db
      ensures (Current(), db.State(), o) == AfterDeleteItem(old(Current()), old(db.State()), usePouch, id)
    {
      if !usePouch {
        items := RemoveById(items, id);
        saved := Some(items);
        return Done;
      }
      var g := db.Get(id);
      if g.Err? {
        return Threw(g.error);
      }
      var r := db.Remove(id, g.value.rev);
      if r.Err? {
        return Threw(r.error);
      }
      items := RemoveById(items, id);
      o := Done;
    }

    method ToggleAvailability(id: string, uuid: string, now: string, fuel: nat) returns (o: Outcome)
      modifies this, db
      ensures (Current(), db.State(), o) == AfterToggle(old(Current()), old(db.State()), usePouch, id, uuid, now, fuel)
    {
      var x := FindById(items, id);
      if x.None? {
        return Done;
      }
      o := UpdateItem(Flipped(x.value), uuid, now, fuel);
    }
  }
}
