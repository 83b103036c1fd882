/** The attestation store of the server: `getAttestations`,
    `saveAttestations` and the `POST /sig` handler that guards it. The
    levelup backend is a map from keys to the `attestations` array of the
    record stored under each key; every record lives under `'/sig/' + id`. */
module AttestationStore {
  import opened JsValue
  import opened Grouping
  import opened Attestation
  import opened Validation

  const SigPrefix: string := "/sig/"

  /** The backend key of an id's record, `'/sig/' + id`. The key splits back
      into the prefix and the id, so the key determines the id. */
  function SigKey(id: string): (k: string)
    ensures |k| == |SigPrefix| + |id|
    ensures k[..|SigPrefix|] == SigPrefix && k[|SigPrefix|..] == id
  {
    SigPrefix + id
  }

  /** Distinct ids have distinct keys and never share a record. */
  lemma SigKeyInjective(a: string, b: string)
    ensures SigKey(a) == SigKey(b) <==> a == b
  {
    if SigKey(a) == SigKey(b) {
      assert a == SigKey(a)[|SigPrefix|..];
    }
  }

  /** A key of the form `'/sig/' + id`. */
  predicate IsRecordKey(k: string) {
    |k| >= |SigPrefix| && k[..|SigPrefix|] == SigPrefix
  }

  lemma RecordKeyOf(k: string)
    requires IsRecordKey(k)
    ensures SigKey(k[|SigPrefix|..]) == k
  {
    assert k == k[..|SigPrefix|] + k[|SigPrefix|..];
  }

  /** The backend contents: each key maps to the `attestations` array of
      the record `{attestations}` stored under it. */
  type Db = map<string, seq<Json>>

  /** The stored attestations of an id; a missing record reads as empty. */
  function Stored(db: Db, id: string): seq<Json> {
    if SigKey(id) in db then db[SigKey(id)] else []
  }

  /** The backend after the per-id read-append-write cycles of one save:
      each id of `groups` whose key does not fail gets its stored list
      followed by its group; every other key keeps its value. `failing` is
      the set of keys on which the backend's get or put reports an error. */
  function Saved(db: Db, groups: map<string, seq<Json>>, failing: set<string>): Db {
    db + map id | id in groups && SigKey(id) !in failing :: SigKey(id) := Stored(db, id) + groups[id]
  }

  /** Every per-id cycle succeeds, so `Promise.all` resolves. */
  predicate AllWritten(groups: map<string, seq<Json>>, failing: set<string>) {
    forall id | id in groups :: SigKey(id) !in failing
  }

  /** The record of one id after a save: written with the old list followed
      by the group when the id has a group and its key does not fail,
      untouched otherwise. */
  lemma SavedAt(db: Db, groups: map<string, seq<Json>>, failing: set<string>, id: string)
    ensures SigKey(id) in Saved(db, groups, failing) <==>
      SigKey(id) in db || (id in groups && SigKey(id) !in failing)
    ensures Stored(Saved(db, groups, failing), id) ==
      if id in groups && SigKey(id) !in failing then Stored(db, id) + groups[id] else Stored(db, id)
  {
    forall other | other in groups && SigKey(other) == SigKey(id)
      ensures other == id
    {
      SigKeyInjective(other, id);
    }
  }

  /** A key that is not the record key of a written group keeps its value. */
  lemma SavedElsewhere(db: Db, groups: map<string, seq<Json>>, failing: set<string>, k: string)
    requires forall id | id in groups && SigKey(id) !in failing :: SigKey(id) != k
    ensures k in Saved(db, groups, failing) <==> k in db
    ensures k in db ==> Saved(db, groups, failing)[k] == db[k]
  {
  }

  /** Append-only: no record disappears, and the old list of every id is a
      prefix of its new list; nothing stored is reordered or removed. */
  lemma AppendOnly(db: Db, groups: map<string, seq<Json>>, failing: set<string>, id: string)
    ensures db.Keys <= Saved(db, groups, failing).Keys
    ensures Stored(db, id) <= Stored(Saved(db, groups, failing), id)
  {
    SavedAt(db, groups, failing, id);
  }

  /** One save of a batch, per id: the stored list becomes the old list
      followed by the batch elements with that id in input order, unless the
      id's key fails; the record exists afterwards exactly when it existed
      before or the batch wrote it. */
  lemma {:induction false} SaveBatchAt(db: Db, batch: seq<Json>, failing: set<string>, id: string)
    ensures Stored(Saved(db, GroupBy(batch, IdOf), failing), id) ==
      Stored(db, id) + (if SigKey(id) in failing then [] else Filter(batch, IdOf, id))
    ensures SigKey(id) in Saved(db, GroupBy(batch, IdOf), failing) <==>
      SigKey(id) in db || (SigKey(id) !in failing && Filter(batch, IdOf, id) != [])
  {
    GroupByIsFilter(batch, IdOf, id);
    SavedAt(db, GroupBy(batch, IdOf), failing, id);
    if id !in GroupBy(batch, IdOf) {
      assert Filter(batch, IdOf, id) == [];
    }
  }

  /** Only group keys are written: a key that no element of the batch maps
      to (a non-record key, or the key of an id absent from the batch)
      keeps its value. */
  lemma SaveLeavesOtherKeys(db: Db, batch: seq<Json>, failing: set<string>, k: string)
    requires forall i | 0 <= i < |batch| :: SigKey(IdOf(batch[i])) != k
    ensures k in Saved(db, GroupBy(batch, IdOf), failing) <==> k in db
    ensures k in db ==> Saved(db, GroupBy(batch, IdOf), failing)[k] == db[k]
  {
    forall id | id in GroupBy(batch, IdOf)
      ensures SigKey(id) != k
    {
      GroupByIsFilter(batch, IdOf, id);
      FilterMembers(batch, IdOf, id);
    }
  }

  lemma SequentialSavesRecord(db: Db, b1: seq<Json>, b2: seq<Json>, failing: set<string>, id: string)
    ensures var lhs, rhs := Saved(Saved(db, GroupBy(b1, IdOf), failing), GroupBy(b2, IdOf), failing), Saved(db, GroupBy(b1 + b2, IdOf), failing);
      (SigKey(id) in lhs <==> SigKey(id) in rhs) && Stored(lhs, id) == Stored(rhs, id)
  {
    var mid := Saved(db, GroupBy(b1, IdOf), failing);
    var lhs, rhs := Saved(mid, GroupBy(b2, IdOf), failing), Saved(db, GroupBy(b1 + b2, IdOf), failing);
    var k, old1 := SigKey(id), Stored(db, id);
    var f1, f2 := if k in failing then [] else Filter(b1, IdOf, id), if k in failing then [] else Filter(b2, IdOf, id);
    assert Stored(mid, id) == old1 + f1 && (k in mid <==> k in db || f1 != []) by {
      SaveBatchAt(db, b1, failing, id);
    }
    assert Stored(lhs, id) == Stored(mid, id) + f2 && (k in lhs <==> k in mid || f2 != []) by {
      SaveBatchAt(mid, b2, failing, id);
    }
    assert Stored(rhs, id) == old1 + (f1 + f2) && (k in rhs <==> k in db || f1 + f2 != []) by {
      SaveBatchAt(db, b1 + b2, failing, id);
      FilterAppend(b1, b2, IdOf, id);
    }
    ConcatAssoc(old1, f1, f2);
  }

  /** Stated apart: proved inside the lemmas above, this step is costly. */
  lemma ConcatAssoc(a: seq<Json>, b: seq<Json>, c: seq<Json>)
    ensures a + b + c == a + (b + c)
  {
  }

  lemma SequentialSavesAt(db: Db, b1: seq<Json>, b2: seq<Json>, failing: set<string>, k: string)
    ensures var lhs, rhs := Saved(Saved(db, GroupBy(b1, IdOf), failing), GroupBy(b2, IdOf), failing), Saved(db, GroupBy(b1 + b2, IdOf), failing);
      (k in lhs <==> k in rhs) && (k in lhs ==> lhs[k] == rhs[k])
  {
    if IsRecordKey(k) {
      RecordKeyOf(k);
      SequentialSavesRecord(db, b1, b2, failing, k[|SigPrefix|..]);
    } else {
      var mid := Saved(db, GroupBy(b1, IdOf), failing);
      SavedElsewhere(db, GroupBy(b1, IdOf), failing, k);
      SavedElsewhere(mid, GroupBy(b2, IdOf), failing, k);
      SavedElsewhere(db, GroupBy(b1 + b2, IdOf), failing, k);
    }
  }

  /** Two sequential saves store the same as one save of the concatenated
      batches, provided the backend fails on the same keys. */
  lemma SequentialSaves(db: Db, b1: seq<Json>, b2: seq<Json>, failing: set<string>)
    ensures Saved(Saved(db, GroupBy(b1, IdOf), failing), GroupBy(b2, IdOf), failing) ==
      Saved(db, GroupBy(b1 + b2, IdOf), failing)
  {
    var lhs := Saved(Saved(db, GroupBy(b1, IdOf), failing), GroupBy(b2, IdOf), failing);
    var rhs := Saved(db, GroupBy(b1 + b2, IdOf), failing);
    forall k
      ensures (k in lhs <==> k in rhs) && (k in lhs ==> lhs[k] == rhs[k])
    {
      SequentialSavesAt(db, b1, b2, failing, k);
    }
    SameEntries(lhs, rhs);
  }

  lemma SameEntries(a: Db, b: Db)
    requires forall k :: (k in a <==> k in b) && (k in a ==> a[k] == b[k])
    ensures a == b
  {
    assert a.Keys == b.Keys;
  }

  /** Adding one more group to a save writes one more record: the step the
      save loop takes for each id. */
  lemma SavedExtend(db: Db, groups: map<string, seq<Json>>, failing: set<string>, id: string, group: seq<Json>)
    requires id !in groups
    ensures Saved(db, groups[id := group], failing) ==
      if SigKey(id) in failing then Saved(db, groups, failing)
      else Saved(db, groups, failing)[SigKey(id) := Stored(db, id) + group]
  {
    var before := Saved(db, groups, failing);
    var after := Saved(db, groups[id := group], failing);
    var expected := if SigKey(id) in failing then before else before[SigKey(id) := Stored(db, id) + group];
    forall k
      ensures (k in after <==> k in expected) && (k in after ==> after[k] == expected[k])
    {
      if IsRecordKey(k) {
        var other := k[|SigPrefix|..];
        RecordKeyOf(k);
        SavedAt(db, groups, failing, other);
        SavedAt(db, groups[id := group], failing, other);
        SigKeyInjective(other, id);
      } else {
        SavedElsewhere(db, groups, failing, k);
        SavedElsewhere(db, groups[id := group], failing, k);
      }
    }
    SameEntries(after, expected);
  }

  /** One iteration of the save loop: taking `id` out of the ids still to
      do extends the save by that id's cycle. */
  lemma WriteStep(db0: Db, byId: map<string, seq<Json>>, todo: set<string>, failing: set<string>, id: string)
    requires id in todo && todo <= byId.Keys
    ensures var cur := Saved(db0, byId - todo, failing);
      Saved(db0, byId - (todo - {id}), failing) ==
        if SigKey(id) in failing then cur else cur[SigKey(id) := Stored(cur, id) + byId[id]]
    ensures AllWritten(byId - (todo - {id}), failing) <==>
      AllWritten(byId - todo, failing) && SigKey(id) !in failing
  {
    var done := byId - todo;
    SavedExtend(db0, done, failing, id, byId[id]);
    SavedAt(db0, done, failing, id);
    RemoveStep(byId, todo, id);
  }

  lemma RemoveStep(m: map<string, seq<Json>>, todo: set<string>, id: string)
    requires id in todo && id in m
    ensures m - (todo - {id}) == (m - todo)[id := m[id]]
  {
    var lhs, rhs := m - (todo - {id}), (m - todo)[id := m[id]];
    assert lhs.Keys == rhs.Keys;
    assert forall k | k in lhs :: lhs[k] == rhs[k];
  }

  /** The batches of several sequential saves, concatenated in call order. */
  function Concat(batches: seq<seq<Json>>): seq<Json> {
    if batches == [] then []
    else Concat(batches[..|batches| - 1]) + batches[|batches| - 1]
  }

  /** The backend after saving each batch in turn. */
  function Replay(db: Db, batches: seq<seq<Json>>, failing: set<string>): Db
  {
    if batches == [] then db
    else
      var n := |batches| - 1;
      Saved(Replay(db, batches[..n], failing), GroupBy(batches[n], IdOf), failing)
  }

  /** After N sequential saves an id reads as its old list followed by all
      its attestations of all the calls, in call order and input order. */
  lemma {:induction false} ReplayReads(db: Db, batches: seq<seq<Json>>, failing: set<string>, id: string)
    ensures Stored(Replay(db, batches, failing), id) ==
      Stored(db, id) + (if SigKey(id) in failing then [] else Filter(Concat(batches), IdOf, id))
  {
    if batches != [] {
      var n := |batches| - 1;
      var front, last := batches[..n], batches[n];
      var prev := Replay(db, front, failing);
      var f := if SigKey(id) in failing then [] else Filter(Concat(front), IdOf, id);
      var g := if SigKey(id) in failing then [] else Filter(last, IdOf, id);
      ReplayReads(db, front, failing, id);
      assert Stored(prev, id) == Stored(db, id) + f;
      assert Replay(db, batches, failing) == Saved(prev, GroupBy(last, IdOf), failing);
      assert Stored(Replay(db, batches, failing), id) == Stored(prev, id) + g by {
        SaveBatchAt(prev, last, failing, id);
      }
      assert Concat(batches) == Concat(front) + last;
      assert (if SigKey(id) in failing then [] else Filter(Concat(batches), IdOf, id)) == f + g by {
        FilterAppend(Concat(front), last, IdOf, id);
      }
      ConcatAssoc(Stored(db, id), f, g);
    }
  }

  /** An id that no saved attestation carries reads as empty on a fresh
      backend, whatever was saved for other ids. */
  lemma NeverWrittenReadsEmpty(batches: seq<seq<Json>>, failing: set<string>, id: string)
    requires forall i, j | 0 <= i < |batches| && 0 <= j < |batches[i]| :: IdOf(batches[i][j]) != id
    ensures Stored(Replay(map[], batches, failing), id) == []
  {
    ReplayReads(map[], batches, failing, id);
    var all := Concat(batches);
    ConcatMembers(batches);
    forall k | 0 <= k < |all|
      ensures IdOf(all[k]) != id
    {
      assert all[k] in all;
      var i, j :| 0 <= i < |batches| && 0 <= j < |batches[i]| && batches[i][j] == all[k];
    }
    FilterMembers(all, IdOf, id);
  }

  lemma {:induction false} ConcatMembers(batches: seq<seq<Json>>)
    ensures forall v | v in Concat(batches) ::
      exists i, j | 0 <= i < |batches| && 0 <= j < |batches[i]| :: batches[i][j] == v
  {
    if batches != [] {
      var n := |batches| - 1;
      ConcatMembers(batches[..n]);
      forall v | v in Concat(batches)
        ensures exists i, j | 0 <= i < |batches| && 0 <= j < |batches[i]| :: batches[i][j] == v
      {
        if v in Concat(batches[..n]) {
          var i, j :| 0 <= i < |batches[..n]| && 0 <= j < |batches[..n][i]| && batches[..n][i][j] == v;
          assert batches[i][j] == v;
        } else {
          var j :| 0 <= j < |batches[n]| && batches[n][j] == v;
        }
      }
    }
  }

  /** An attestation `{data: {id, ok}}` with a string id. */
  function Att(id: string, ok: Json): Json {
    JObj(map["data" := JObj(map["id" := JStr(id), "ok" := ok])])
  }

  /** Posting one attestation for "x" and one for "y" to an empty backend
      is accepted and files each under its own id. */
  lemma TwoIdsScenario()
    ensures
      var ax, ay := Att("x", JBool(true)), Att("y", JBool(false));
      var db := Saved(map[], GroupBy([ax, ay], IdOf), {});
      && ValidateBody(JObj(map["attestations" := JArr([ax, ay])])) == Valid
      && Stored(db, "x") == [ax] && Stored(db, "y") == [ay]
  {
    var ax, ay := Att("x", JBool(true)), Att("y", JBool(false));
    var batch := [ax, ay];
    assert CheckAttestation(ax) == Valid && CheckAttestation(ay) == Valid;
    EveryAll(batch);
    assert IdOf(ax) == "x" && IdOf(ay) == "y";
    assert batch[1..] == [ay] && [ay][1..] == [];
    assert Filter([ay], IdOf, "x") == [] && Filter([ay], IdOf, "y") == [ay];
    assert Filter(batch, IdOf, "x") == [ax] + Filter([ay], IdOf, "x");
    assert Filter(batch, IdOf, "y") == [] + Filter([ay], IdOf, "y");
    SaveBatchAt(map[], batch, {}, "x");
    SaveBatchAt(map[], batch, {}, "y");
  }

  /** An attestation without `ok` is refused as invalid data. */
  lemma MissingOkScenario()
    ensures ValidateBody(JObj(map["attestations" := JArr([JObj(map["data" := JObj(map["id" := JStr("x")])])])])) == Invalid
  {
  }

  /** An id object with its own `toString` field passes the shape check,
      but cannot be made a key, so grouping the batch throws. */
  lemma ToStringIdScenario()
    ensures
      var v := JObj(map["data" := JObj(map["id" := JObj(map["toString" := JNum(1)]), "ok" := JBool(true)])]);
      var body := JObj(map["attestations" := JArr([v])]);
      && ValidateBody(body) == Valid
      && AnyIdThrows(Batch(body))
  {
    var v := JObj(map["data" := JObj(map["id" := JObj(map["toString" := JNum(1)]), "ok" := JBool(true)])]);
    assert IdThrows([v][0]);
  }

  /** What `getAttestations` settles with. */
  datatype Fetched = Attestations(list: seq<Json>) | StorageError

  /** How `saveAttestations` ends: its promise resolves, its promise
      rejects, or `groupBy` throws before the backend is touched. */
  datatype SaveResult = AllSaved | SomeFailed | GroupingThrew

  /** The JSON answers of `POST /sig`: `{ok: true}`,
      `{ok: false, error: 'invalid data'}` and
      `{ok: false, error: 'internal error'}`. */
  datatype Response = OkResponse | InvalidData | InternalError

  /** The backend handle opened at start-up, holding the records. */
  class SignetDb {
    var records: Db

    /** Opening the database finds the records persisted by earlier runs. */
    constructor (persisted: Db)
      ensures records == persisted
    {
      records := persisted;
    }

    /** `getAttestations(id)`: a backend error other than "not found"
        rejects; a missing record resolves to the empty list; a present
        record resolves to its stored list. */
    function GetAttestations(id: string, failing: set<string>): (r: Fetched)
      reads this
      ensures r.StorageError? <==> SigKey(id) in failing
      ensures r.Attestations? && SigKey(id) !in records ==> r.list == []
      ensures r.Attestations? && SigKey(id) in records ==> r.list == records[SigKey(id)]
    {
      if SigKey(id) in failing then StorageError else Attestations(Stored(records, id))
    }

    /** `saveAttestations(batch)`: group the batch by id, then write each
        group. When an id cannot be made a key, `groupBy` throws before the
        backend is touched. */
    method SaveAttestations(batch: seq<Json>, failing: set<string>) returns (result: SaveResult)
      requires AllIdsReadable(batch)
      modifies this
      ensures AnyIdThrows(batch) ==> result == GroupingThrew && records == old(records)
      ensures !AnyIdThrows(batch) ==>
        && records == Saved(old(records), GroupBy(batch, IdOf), failing)
        && (result == AllSaved <==> AllWritten(GroupBy(batch, IdOf), failing))
        && result != GroupingThrew
    {
      if AnyIdThrows(batch) {
        result := GroupingThrew;
        return;
      }
      var ok := WriteGroups(GroupBy(batch, IdOf), failing);
      result := if ok then AllSaved else SomeFailed;
    }

    /** The fan-out over the grouped object: for each id read its record,
        append the group and write the result back. The ids are taken in
        any order: each touches its own key. A failing key is skipped and
        makes the call reject, while the other ids are still written. */
    method WriteGroups(byId: map<string, seq<Json>>, failing: set<string>) returns (ok: bool)
      modifies this
      ensures records == Saved(old(records), byId, failing)
      ensures ok <==> AllWritten(byId, failing)
    {
      var todo := byId.Keys;
      ghost var db0 := records;
      ok := true;
      while todo != {}
        invariant todo <= byId.Keys
        invariant records == Saved(db0, byId - todo, failing)
        invariant ok <==> AllWritten(byId - todo, failing)
        decreases |todo|
      {
        var id :| id in todo;
        WriteStep(db0, byId, todo, failing, id);
        var key := SigKey(id);
        if key in failing {
          ok := false;
        } else {
          var stored := if key in records then records[key] else [];
          records := records[key := stored + byId[id]];
        }
        todo := todo - {id};
      }
      assert byId - todo == byId;
    }

    /** The `POST /sig` handler: an invalid body is answered with
        'invalid data' and writes nothing; a check or a grouping that throws
        reaches the fallback error handler and writes nothing; otherwise
        the batch is saved, answered `{ok: true}` when every write
        succeeded and 'internal error' otherwise. */
    method PostSig(body: Json, failing: set<string>) returns (resp: Response)
      modifies this
      ensures ValidateBody(body) != Valid ==> records == old(records)
      ensures ValidateBody(body) == Invalid ==> resp == InvalidData
      ensures ValidateBody(body) == Threw ==> resp == InternalError
      ensures ValidateBody(body) == Valid && AnyIdThrows(Batch(body)) ==>
        resp == InternalError && records == old(records)
      ensures ValidateBody(body) == Valid && !AnyIdThrows(Batch(body)) ==>
        && AllIdsReadable(Batch(body))
        && records == Saved(old(records), GroupBy(Batch(body), IdOf), failing)
        && (resp == OkResponse <==> AllWritten(GroupBy(Batch(body), IdOf), failing))
        && resp != InvalidData
    {
      var verdict := ValidateBody(body);
      if verdict == Invalid {
        resp := InvalidData;
      } else if verdict == Threw {
        resp := InternalError;
      } else {
        AcceptedIdsReadable(body);
        var result := SaveAttestations(Batch(body), failing);
        resp := if result == AllSaved then OkResponse else InternalError;
      }
    }
  }

  /** The x/y example end to end: on a fresh backend that never fails,
      posting one attestation for "x" and one for "y" answers `{ok: true}`,
      and reading each id afterwards returns its attestation alone. */
  method TwoIdsRoundTrip() returns (resp: Response, xs: Fetched, ys: Fetched)
    ensures resp == OkResponse
    ensures xs == Attestations([Att("x", JBool(true))])
    ensures ys == Attestations([Att("y", JBool(false))])
  {
    var ax, ay := Att("x", JBool(true)), Att("y", JBool(false));
    var body := JObj(map["attestations" := JArr([ax, ay])]);
    TwoIdsScenario();
    assert Batch(body) == [ax, ay];
    assert !IdThrows(ax) && !IdThrows(ay);
    var db := new SignetDb(map[]);
    resp := db.PostSig(body, {});
    xs := db.GetAttestations("x", {});
    ys := db.GetAttestations("y", {});
  }
}
