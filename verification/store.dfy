/**
 * The event store's contract as the triage core uses it: a map from event id
 * to event, where a batched put overwrites by key.
 */
module EventStore {
  import opened Types
  import opened Seqs

  type Store = map<string, CdmEvent>

  /** The ids carried by a batch. */
  function Ids(events: seq<CdmEvent>): set<string> {
    set i | 0 <= i < |events| :: events[i].id
  }

  /** A batch of one carries just that event's id. */
  lemma IdsOfOne(e: CdmEvent)
    ensures Ids([e]) == {e.id}
  {
    assert [e][0] == e;
  }

  /** No later element of `events` has the id of `events[i]`. */
  predicate LastWithItsId(events: seq<CdmEvent>, i: int)
    requires 0 <= i < |events|
  {
    forall j :: i < j < |events| ==> events[j].id != events[i].id
  }

  /** Ids are pairwise distinct. */
  predicate UniqueIds(events: seq<CdmEvent>) {
    forall i, j :: 0 <= i < j < |events| ==> events[i].id != events[j].id
  }

  /**
   * `bulkPut`: write every event under its id, in order, so that the last
   * write for an id wins; keys the batch does not mention keep their records.
   */
  function BulkPut(store: Store, events: seq<CdmEvent>): (r: Store)
    ensures r.Keys == store.Keys + Ids(events)
    ensures forall k :: k in store && k !in Ids(events) ==> r[k] == store[k]
    ensures forall i :: 0 <= i < |events| && LastWithItsId(events, i) ==> r[events[i].id] == events[i]
    decreases |events|
  {
    if |events| == 0 then store
    else
      var rest := events[1..];
      var r := BulkPut(store[events[0].id := events[0]], rest);
      assert Ids(events) == {events[0].id} + Ids(rest) by {
        forall k | k in Ids(events) ensures k in {events[0].id} + Ids(rest) {
          var i :| 0 <= i < |events| && events[i].id == k;
          if i > 0 { assert rest[i - 1].id == k; }
        }
      }
      assert forall i :: 1 <= i < |events| && LastWithItsId(events, i) ==> LastWithItsId(rest, i - 1);
      assert LastWithItsId(events, 0) ==> events[0].id !in Ids(rest);
      r
  }

  /** `clear`: the empty store. */
  function Clear(): (r: Store)
    ensures r.Keys == {}
  {
    map[]
  }

  /** Putting two batches one after the other is putting their concatenation. */
  lemma {:induction false} BulkPutAppend(store: Store, a: seq<CdmEvent>, b: seq<CdmEvent>)
    ensures BulkPut(BulkPut(store, a), b) == BulkPut(store, a + b)
    decreases |a|
  {
    if |a| > 0 {
      assert (a + b)[0] == a[0];
      assert (a + b)[1..] == a[1..] + b;
      BulkPutAppend(store[a[0].id := a[0]], a[1..], b);
    } else {
      assert a + b == b;
    }
  }

  /** The store after a sequence of batched writes, applied in order. */
  function BulkPutAll(store: Store, batches: seq<seq<CdmEvent>>): Store
  {
    if |batches| == 0 then store
    else BulkPut(BulkPutAll(store, batches[..|batches| - 1]), batches[|batches| - 1])
  }

  /** However the events are batched, the store ends up the same. */
  lemma {:induction false} BulkPutAllFlatten(store: Store, batches: seq<seq<CdmEvent>>)
    ensures BulkPutAll(store, batches) == BulkPut(store, Flatten(batches))
    decreases |batches|
  {
    if |batches| > 0 {
      var init := batches[..|batches| - 1];
      BulkPutAllFlatten(store, init);
      BulkPutAppend(store, Flatten(init), batches[|batches| - 1]);
    }
  }

  /** With distinct ids, every event of the batch is stored as written. */
  lemma BulkPutUnique(store: Store, events: seq<CdmEvent>, i: int)
    requires UniqueIds(events)
    requires 0 <= i < |events|
    ensures BulkPut(store, events)[events[i].id] == events[i]
  {
    assert LastWithItsId(events, i);
  }

  /** `toArray`: `events` lists the records of `store`, each exactly once. */
  predicate IsListing(store: Store, events: seq<CdmEvent>) {
    && UniqueIds(events)
    && Ids(events) == store.Keys
    && forall i :: 0 <= i < |events| ==> store[events[i].id] == events[i]
  }
}
