/**
 * Vulnerability records and the in-memory record store
 * (internal/store/store.go, internal/store/mock_store.go).
 *
 * A save inserts each record of a batch under its id unless the id is already
 * present. `SaveAll` is that rule as a function on maps; `MockStore` applies it
 * in place and the lemmas state what it guarantees.
 */
module Store {
  import opened Wrappers

  /** One discovered vulnerability; `discoveredAt` is a Unix timestamp. */
  datatype VulnerabilityRecord = VulnerabilityRecord(
    id: string, severity: string, title: string, purl: string, discoveredAt: int)

  type Records = map<string, VulnerabilityRecord>

  function InsertIfAbsent(m: Records, r: VulnerabilityRecord): Records
  {
    if r.id in m then m else m[r.id := r]
  }

  /** The store after saving `rs` in order into `m`. */
  function SaveAll(m: Records, rs: seq<VulnerabilityRecord>): Records
    decreases |rs|
  {
    if rs == [] then m else InsertIfAbsent(SaveAll(m, rs[..|rs| - 1]), rs[|rs| - 1])
  }

  ghost function Ids(rs: seq<VulnerabilityRecord>): set<string>
  {
    set r | r in rs :: r.id
  }

  /** After a save the keys are the old keys plus every id of the batch, and nothing else. */
  lemma {:induction false} SaveAllKeys(m: Records, rs: seq<VulnerabilityRecord>)
    ensures SaveAll(m, rs).Keys == m.Keys + Ids(rs)
    decreases |rs|
  {
    if rs != [] {
      var init := rs[..|rs| - 1];
      SaveAllKeys(m, init);
      assert rs == init + [rs[|rs| - 1]];
      assert Ids(rs) == Ids(init) + {rs[|rs| - 1].id};
    }
  }

  /** An entry already in the store is never overwritten. */
  lemma {:induction false} SaveAllNeverOverwrites(m: Records, rs: seq<VulnerabilityRecord>, k: string)
    requires k in m
    ensures k in SaveAll(m, rs) && SaveAll(m, rs)[k] == m[k]
    decreases |rs|
  {
    if rs != [] {
      SaveAllNeverOverwrites(m, rs[..|rs| - 1], k);
    }
  }

  /** A record whose id is new to the store and first in the batch is the one stored. */
  lemma {:induction false} SaveAllFirstWins(m: Records, rs: seq<VulnerabilityRecord>, i: int)
    requires 0 <= i < |rs| && rs[i].id !in m
    requires forall j :: 0 <= j < i ==> rs[j].id != rs[i].id
    ensures rs[i].id in SaveAll(m, rs) && SaveAll(m, rs)[rs[i].id] == rs[i]
    decreases |rs|
  {
    var init := rs[..|rs| - 1];
    if i < |rs| - 1 {
      SaveAllFirstWins(m, init, i);
    } else {
      SaveAllKeys(m, init);
      assert rs[i].id !in Ids(init);
    }
  }

  /** Saving records whose ids are all present changes nothing. */
  lemma {:induction false} SaveAllOfPresent(m: Records, rs: seq<VulnerabilityRecord>)
    requires forall j :: 0 <= j < |rs| ==> rs[j].id in m
    ensures SaveAll(m, rs) == m
    decreases |rs|
  {
    if rs != [] {
      SaveAllOfPresent(m, rs[..|rs| - 1]);
    }
  }

  /** Saving the same batch twice leaves the store as saving it once. */
  lemma SaveAllIdempotent(m: Records, rs: seq<VulnerabilityRecord>)
    ensures SaveAll(SaveAll(m, rs), rs) == SaveAll(m, rs)
  {
    SaveAllKeys(m, rs);
    var once := SaveAll(m, rs);
    forall j | 0 <= j < |rs| ensures rs[j].id in once {
      assert rs[j].id in Ids(rs);
    }
    SaveAllOfPresent(once, rs);
  }

  /** The source's mockStore. */
  class MockStore {
    var data: Records

    /** NewMockStore: an empty store. */
    constructor ()
      ensures data == map[]
    {
      data := map[];
    }

    /** SaveVulnerabilityRecords: insert each record unless its id is present; never fails. */
    method SaveVulnerabilityRecords(records: seq<VulnerabilityRecord>) returns (err: Option<string>)
      modifies this
      ensures data == SaveAll(old(data), records)
      ensures err == None
    {
      for i := 0 to |records|
        invariant data == SaveAll(old(data), records[..i])
      {
        assert records[..i + 1][..i] == records[..i];
        var r := records[i];
        if r.id in data {
          continue;
        }
        data := data[r.id := r];
      }
      assert records[..|records|] == records;
      err := None;
    }
  }
}
