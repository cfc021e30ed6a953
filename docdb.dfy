/**
 * The revision-checked document database the three record stores talk to
 * (PouchDB in the source), reduced to what the stores rely on: a map from
 * document key (`_id`) to the stored document and its current revision,
 * `get`, `put`, `remove` and `allDocs`.
 *
 * Every call first consumes one entry of a fault schedule, which stands for
 * everything outside the store's control: `Fail(e)` makes the call fail with
 * `e`, and `Interleave(k, d)` lets another writer commit `d` under key `k`
 * just before the call runs, so that a revision the store read earlier
 * becomes stale and its next `put` genuinely conflicts. Every call is also
 * appended to a log, so that contracts can count the calls an operation makes.
 */
module DocDb {
  import opened Wrappers
  import Text

  /** A revision token; the database mints a fresh one on every successful write. */
  type Rev = nat

  datatype DbError = Conflict | NotFound | Other

  datatype Result<T> = Ok(value: T) | Err(error: DbError)

  datatype Call = GetCall(key: string) | PutCall(id: Option<string>) | RemoveCall(key: string) | AllDocsCall

  datatype Stored<D> = Stored(doc: D, rev: Rev)

  /** One row of `allDocs({include_docs: true})`: the key, the document and its revision. */
  datatype Row<D> = Row(key: string, doc: D, rev: Rev)

  datatype Fault<D> = Pass | Fail(error: DbError) | Interleave(key: string, doc: D)

  datatype DbState<D> = DbState(docs: map<string, Stored<D>>, nextRev: Rev, faults: seq<Fault<D>>, log: seq<Call>)

  /** Every stored revision was minted before `nextRev`, so `nextRev` is fresh. */
  predicate Valid<D>(s: DbState<D>) {
    forall k | k in s.docs :: s.docs[k].rev < s.nextRev
  }

  /** What every call does first: log itself and consume one scheduled fault. */
  function Begin<D>(s: DbState<D>, c: Call): (r: (Option<DbError>, DbState<D>))
    ensures r.1.log == s.log + [c]
    ensures r.1.faults == if s.faults == [] then [] else s.faults[1..]
    ensures Valid(s) ==> Valid(r.1)
    ensures r.0.None? && (s.faults == [] || s.faults[0].Pass?) ==> r.1.docs == s.docs && r.1.nextRev == s.nextRev
  {
    var s1 := s.(faults := if s.faults == [] then [] else s.faults[1..], log := s.log + [c]);
    if s.faults == [] then (None, s1)
    else match s.faults[0]
      case Pass => (None, s1)
      case Fail(e) => (Some(e), s1)
      case Interleave(k, d) =>
        (None, s1.(docs := s1.docs[k := Stored(d, s1.nextRev)], nextRev := s1.nextRev + 1))
  }

  /** `db.get(key)`: the stored document and revision, or `NotFound`. */
  function GetStep<D>(s: DbState<D>, key: string): (r: (Result<Stored<D>>, DbState<D>))
    ensures r.1.log == s.log + [GetCall(key)]
    ensures Valid(s) ==> Valid(r.1)
    ensures r.0.Ok? ==> key in r.1.docs && r.0.value == r.1.docs[key]
  {
    var (f, s1) := Begin(s, GetCall(key));
    if f.Some? then (Err(f.value), s1)
    else if key in s1.docs then (Ok(s1.docs[key]), s1)
    else (Err(NotFound), s1)
  }

  /**
   * Whether a write carrying `rev` is current: an existing document needs its
   * current revision, a new one needs none.
   */
  predicate Accepts<D>(docs: map<string, Stored<D>>, key: string, rev: Option<Rev>) {
    if key in docs then rev == Some(docs[key].rev) else rev == None
  }

  /**
   * `db.put(doc)` where `key` is the document's `_id` and `rev` its `_rev`:
   * a stale or unexpected revision is a `Conflict`, a document without `_id`
   * is refused, and a successful write stores the document under a fresh
   * revision, which it returns.
   */
  function PutStep<D>(s: DbState<D>, key: Option<string>, doc: D, rev: Option<Rev>): (r: (Result<Rev>, DbState<D>))
    ensures r.1.log == s.log + [PutCall(key)]
    ensures Valid(s) ==> Valid(r.1)
    ensures r.0.Ok? ==> key.Some? && key.value in r.1.docs && r.1.docs[key.value] == Stored(doc, r.0.value)
    ensures r.0.Ok? && Valid(s) ==> forall k | k in s.docs :: s.docs[k].rev != r.0.value
  {
    var (f, s1) := Begin(s, PutCall(key));
    if f.Some? then (Err(f.value), s1)
    else if key.None? then (Err(Other), s1)
    else if Accepts(s1.docs, key.value, rev) then
      (Ok(s1.nextRev), s1.(docs := s1.docs[key.value := Stored(doc, s1.nextRev)], nextRev := s1.nextRev + 1))
    else (Err(Conflict), s1)
  }

  /** `db.remove(doc)` for the document read under `key` at revision `rev`. */
  function RemoveStep<D>(s: DbState<D>, key: string, rev: Rev): (r: (Result<()>, DbState<D>))
    ensures r.1.log == s.log + [RemoveCall(key)]
    ensures Valid(s) ==> Valid(r.1)
    ensures r.0.Ok? ==> key !in r.1.docs
  {
    var (f, s1) := Begin(s, RemoveCall(key));
    if f.Some? then (Err(f.value), s1)
    else if key !in s1.docs then (Err(NotFound), s1)
    else if s1.docs[key].rev != rev then (Err(Conflict), s1)
    else (Ok(()), s1.(docs := s1.docs - {key}))
  }

  /** `db.allDocs({include_docs: true, descending})`: every document, ordered by key. */
  function AllDocsStep<D>(s: DbState<D>, descending: bool): (r: (Result<seq<Row<D>>>, DbState<D>))
    ensures r.1.log == s.log + [AllDocsCall]
    ensures Valid(s) ==> Valid(r.1)
    ensures r.1.docs == s.docs || (s.faults != [] && s.faults[0].Interleave?)
    ensures r.0.Ok? ==> r.0.value == Rows(r.1.docs, descending)
  {
    var (f, s1) := Begin(s, AllDocsCall);
    if f.Some? then (Err(f.value), s1) else (Ok(Rows(s1.docs, descending)), s1)
  }

  predicate IsMaxKey(k: string, ks: set<string>) {
    k in ks && forall j | j in ks && j != k :: Text.Less(j, k)
  }

  lemma {:induction false} MaxKeyExists(ks: set<string>)
    requires ks != {}
    ensures exists k :: IsMaxKey(k, ks)
    decreases ks
  {
    var x :| x in ks;
    if ks != {x} {
      MaxKeyExists(ks - {x});
      var m :| IsMaxKey(m, ks - {x});
      Text.LessTotal(x, m);
      if Text.Less(x, m) {
        forall j | j in ks && j != m
          ensures Text.Less(j, m)
        {
        }
        assert IsMaxKey(m, ks);
      } else {
        forall j | j in ks && j != x
          ensures Text.Less(j, x)
        {
          if j != m {
            Text.LessTransitive(j, m, x);
          }
        }
        assert IsMaxKey(x, ks);
      }
    } else {
      assert IsMaxKey(x, ks);
    }
  }

  /** Every key is below each key before it (recursive, so that it unfolds one key at a time). */
  predicate Descending(r: seq<string>)
    decreases |r|
  {
    |r| <= 1 || ((forall j :: 1 <= j < |r| ==> Text.Less(r[j], r[0])) && Descending(r[1..]))
  }

  /** Every key is above each key before it. */
  predicate Ascending(r: seq<string>)
    decreases |r|
  {
    |r| <= 1 || ((forall j :: 1 <= j < |r| ==> Text.Less(r[0], r[j])) && Ascending(r[1..]))
  }

  lemma {:induction false} DescendingPairs(r: seq<string>)
    requires Descending(r)
    ensures forall i, j :: 0 <= i < j < |r| ==> Text.Less(r[j], r[i])
    decreases |r|
  {
    if |r| > 1 {
      DescendingPairs(r[1..]);
      forall i, j | 0 <= i < j < |r|
        ensures Text.Less(r[j], r[i])
      {
        if i > 0 {
          assert r[i] == r[1..][i - 1] && r[j] == r[1..][j - 1];
        }
      }
    }
  }

  lemma {:induction false} AscendingPairs(r: seq<string>)
    requires Ascending(r)
    ensures forall i, j :: 0 <= i < j < |r| ==> Text.Less(r[i], r[j])
    decreases |r|
  {
    if |r| > 1 {
      AscendingPairs(r[1..]);
      forall i, j | 0 <= i < j < |r|
        ensures Text.Less(r[i], r[j])
      {
        if i > 0 {
          assert r[i] == r[1..][i - 1] && r[j] == r[1..][j - 1];
        }
      }
    }
  }

  lemma {:induction false} PairsAscending(r: seq<string>)
    requires forall i, j :: 0 <= i < j < |r| ==> Text.Less(r[i], r[j])
    ensures Ascending(r)
    decreases |r|
  {
    if |r| > 1 {
      assert forall i, j :: 0 <= i < j < |r[1..]| ==> r[1..][i] == r[i + 1] && r[1..][j] == r[j + 1];
      PairsAscending(r[1..]);
    }
  }

  /** The keys of `ks` from the greatest to the least. */
  function KeysDescending(ks: set<string>): (r: seq<string>)
    ensures |r| == |ks|
    ensures forall k :: k in r <==> k in ks
    ensures Descending(r)
    decreases ks
  {
    if ks == {} then []
    else
      MaxKeyExists(ks);
      Text.LessAsymmetric();
      var k :| IsMaxKey(k, ks);
      var rest := KeysDescending(ks - {k});
      var r := [k] + rest;
      assert r[1..] == rest;
      assert forall j :: 1 <= j < |r| ==> r[j] in ks - {k};
      r
  }

  function Reverse<T>(s: seq<T>): (r: seq<T>)
    ensures |r| == |s|
    ensures forall i :: 0 <= i < |s| ==> r[i] == s[|s| - 1 - i]
  {
    seq(|s|, i requires 0 <= i < |s| => s[|s| - 1 - i])
  }

  /** The keys of `ks`, from the greatest down when `descending`, from the least up otherwise. */
  function KeysInOrder(ks: set<string>, descending: bool): (r: seq<string>)
    ensures |r| == |ks|
    ensures forall k :: k in r <==> k in ks
    ensures if descending then Descending(r) else Ascending(r)
  {
    var keys := KeysDescending(ks);
    if descending then keys
    else
      ReverseAscending(keys);
      Reverse(keys)
  }

  /** Reversing a descending list of keys gives an ascending list of the same keys. */
  lemma ReverseAscending(keys: seq<string>)
    requires Descending(keys)
    ensures forall k :: k in Reverse(keys) <==> k in keys
    ensures Ascending(Reverse(keys))
  {
    var up := Reverse(keys);
    forall k | k in keys
      ensures k in up
    {
      var i :| 0 <= i < |keys| && keys[i] == k;
      assert up[|keys| - 1 - i] == k;
    }
    DescendingPairs(keys);
    forall i, j | 0 <= i < j < |up|
      ensures Text.Less(up[i], up[j])
    {
      assert up[i] == keys[|keys| - 1 - i] && up[j] == keys[|keys| - 1 - j];
    }
    PairsAscending(up);
  }

  /** The rows `allDocs` returns for `docs`: one per key, ordered by key. */
  function Rows<D>(docs: map<string, Stored<D>>, descending: bool): (r: seq<Row<D>>)
    ensures |r| == |docs|
    ensures forall i :: 0 <= i < |r| ==> r[i].key == KeysInOrder(docs.Keys, descending)[i]
    ensures forall i :: 0 <= i < |r| ==> r[i].key in docs && Stored(r[i].doc, r[i].rev) == docs[r[i].key]
  {
    var ordered := KeysInOrder(docs.Keys, descending);
    assert forall i :: 0 <= i < |ordered| ==> ordered[i] in docs;
    seq(|ordered|, i requires 0 <= i < |ordered| => Row(ordered[i], docs[ordered[i]].doc, docs[ordered[i]].rev))
  }

  /** Every stored document appears among the rows. */
  lemma RowsCover<D>(docs: map<string, Stored<D>>, descending: bool, k: string)
    requires k in docs
    ensures exists i :: 0 <= i < |Rows(docs, descending)| && Rows(docs, descending)[i].key == k
  {
    var ordered := KeysInOrder(docs.Keys, descending);
    var i :| 0 <= i < |ordered| && ordered[i] == k;
    assert Rows(docs, descending)[i].key == k;
  }

  /** The rows come in strictly increasing key order, or strictly decreasing when `descending`. */
  lemma RowsOrdered<D>(docs: map<string, Stored<D>>, descending: bool)
    ensures var r := Rows(docs, descending);
            forall i, j :: 0 <= i < j < |r| ==> if descending then Text.Less(r[j].key, r[i].key) else Text.Less(r[i].key, r[j].key)
  {
    var ordered := KeysInOrder(docs.Keys, descending);
    var r := Rows(docs, descending);
    if descending {
      DescendingPairs(ordered);
    } else {
      AscendingPairs(ordered);
    }
    forall i, j | 0 <= i < j < |r|
      ensures if descending then Text.Less(r[j].key, r[i].key) else Text.Less(r[i].key, r[j].key)
    {
      assert r[i].key == ordered[i] && r[j].key == ordered[j];
    }
  }

  /** The PouchDB instance: its state changes only through the four calls. */
  class Db<D> {
    var docs: map<string, Stored<D>>
    var nextRev: Rev
    var faults: seq<Fault<D>>
    var log: seq<Call>

    function State(): DbState<D>
      reads this
    {
      DbState(docs, nextRev, faults, log)
    }

    constructor (docs0: map<string, Stored<D>>, nextRev0: Rev, faults0: seq<Fault<D>>)
      ensures State() == DbState(docs0, nextRev0, faults0, [])
    {
      docs, nextRev, faults, log := docs0, nextRev0, faults0, [];
    }

    method Assign(s: DbState<D>)
      modifies this
      ensures State() == s
    {
      docs, nextRev, faults, log := s.docs, s.nextRev, s.faults, s.log;
    }

    method Get(key: string) returns (r: Result<Stored<D>>)
      modifies this
      ensures (r, State()) == GetStep(old(State()), key)
    {
      var step := GetStep(State(), key);
      r := step.0;
      Assign(step.1);
    }

    method Put(key: Option<string>, doc: D, rev: Option<Rev>) returns (r: Result<Rev>)
      modifies this
      ensures (r, State()) == PutStep(old(State()), key, doc, rev)
    {
      var step := PutStep(State(), key, doc, rev);
      r := step.0;
      Assign(step.1);
    }

    method Remove(key: string, rev: Rev) returns (r: Result<()>)
      modifies this
      ensures (r, State()) == RemoveStep(old(State()), key, rev)
    {
      var step := RemoveStep(State(), key, rev);
      r := step.0;
      Assign(step.1);
    }

    method AllDocs(descending: bool) returns (r: Result<seq<Row<D>>>)
      modifies this
      ensures (r, State()) == AllDocsStep(old(State()), descending)
    {
      var step := AllDocsStep(State(), descending);
      r := step.0;
      Assign(step.1);
    }
  }
}
