/**
 * The application-level list operations: re-triage of every event under the
 * current policy, the update of one event after a Monte Carlo run, the
 * Nightmare view and the initial load. The clock enters as `Clock`, the
 * signed hours from now until a given TCA.
 */
module App {
  import opened Numbers
  import opened Wrappers
  import opened Seqs
  import opened Types
  import opened Policy
  import opened EventStore
  import opened Dashboard

  /** Hours from now until the TCA written in a string. */
  type Clock = string -> Num

  /** How many demo events are generated when the store is empty. */
  const InitialMockCount: nat := 50

  /** What a handler leaves behind: the events on screen and the store. */
  datatype Outcome = Outcome(shown: seq<CdmEvent>, stored: Store)

  /** `applyPolicy` at the time the clock gives for the event's own TCA. */
  function Reclassify(e: CdmEvent, policy: PolicyConfig, clock: Clock): CdmEvent {
    ApplyPolicy(e, policy, clock(e.tca))
  }

  /**
   * `events.map(e => applyPolicy(e, policy))`: the same events, by id and in
   * order, with only gates and lanes recomputed, each now classified under
   * the policy.
   */
  function Retriage(events: seq<CdmEvent>, policy: PolicyConfig, clock: Clock): (r: seq<CdmEvent>)
    ensures |r| == |events|
    ensures forall i :: 0 <= i < |r| ==> r[i] == events[i].(gates := r[i].gates, lane := r[i].lane)
    ensures forall i :: 0 <= i < |r| ==> Classified(r[i], policy, clock(r[i].tca))
    ensures forall i :: 0 <= i < |r| ==> r[i] == ApplyPolicy(events[i], policy, clock(events[i].tca))
  {
    seq(|events|, i requires 0 <= i < |events| => Reclassify(events[i], policy, clock))
  }

  /** Re-triaging twice is re-triaging once. */
  lemma RetriageIdempotent(events: seq<CdmEvent>, policy: PolicyConfig, clock: Clock)
    ensures Retriage(Retriage(events, policy, clock), policy, clock) == Retriage(events, policy, clock)
  {
  }

  /** `handleApplyPolicy`: show the re-triaged events and write all of them. */
  function HandleApplyPolicy(events: seq<CdmEvent>, policy: PolicyConfig, clock: Clock, store: Store): (o: Outcome)
    ensures o.shown == Retriage(events, policy, clock)
    ensures o.stored == BulkPut(store, o.shown)
  {
    var shown := Retriage(events, policy, clock);
    Outcome(shown, BulkPut(store, shown))
  }

  /**
   * After applying the policy to events with distinct ids, the store holds
   * exactly the records on screen, each with the lane the policy gives it.
   */
  lemma ApplyPolicyStoresWhatItShows(events: seq<CdmEvent>, policy: PolicyConfig, clock: Clock, store: Store, i: int)
    requires UniqueIds(events)
    requires 0 <= i < |events|
    ensures var o := HandleApplyPolicy(events, policy, clock, store);
            && o.stored[o.shown[i].id] == o.shown[i]
            && Classified(o.stored[events[i].id], policy, clock(events[i].tca))
  {
    var o := HandleApplyPolicy(events, policy, clock, store);
    assert forall j :: 0 <= j < |o.shown| ==> o.shown[j].id == events[j].id;
    BulkPutUnique(store, o.shown, i);
  }

  /**
   * `handleUpdateEvent` as written: the event on screen with the id of
   * `updated` is replaced by its re-classified copy, every other event stays
   * as it was, and the store receives `updated` itself.
   */
  function HandleUpdateEvent(events: seq<CdmEvent>, updated: CdmEvent, policy: PolicyConfig, clock: Clock, store: Store): (o: Outcome)
    ensures |o.shown| == |events|
    ensures forall i :: 0 <= i < |events| && events[i].id != updated.id ==> o.shown[i] == events[i]
    ensures forall i :: 0 <= i < |events| && events[i].id == updated.id ==>
              o.shown[i].id == updated.id && Classified(o.shown[i], policy, clock(updated.tca))
    ensures forall i :: 0 <= i < |events| && events[i].id == updated.id ==>
              o.shown[i] == ApplyPolicy(updated, policy, clock(updated.tca))
    ensures o.stored.Keys == store.Keys + {updated.id}
    ensures o.stored[updated.id] == updated
    ensures forall k :: k in store && k != updated.id ==> o.stored[k] == store[k]
  {
    var shown := seq(|events|, i requires 0 <= i < |events| =>
                       if events[i].id == updated.id then Reclassify(updated, policy, clock) else events[i]);
    IdsOfOne(updated);
    assert LastWithItsId([updated], 0);
    Outcome(shown, BulkPut(store, [updated]))
  }

  /**
   * The store agrees with the screen after an update exactly when `updated`
   * was already classified under the current policy.
   */
  lemma UpdateStoreAgreesIff(events: seq<CdmEvent>, updated: CdmEvent, policy: PolicyConfig, clock: Clock, store: Store, i: int)
    requires 0 <= i < |events| && events[i].id == updated.id
    ensures var o := HandleUpdateEvent(events, updated, policy, clock, store);
            o.stored[updated.id] == o.shown[i] <==> Classified(updated, policy, clock(updated.tca))
  {
  }

  /**
   * The update the inspector sends after a Monte Carlo run: the event with
   * only `pcMc` set. When the refined probability is above the red threshold
   * inside the warning window, the screen shows ACTION_NOW while the store
   * keeps the previous lane.
   */
  lemma MonteCarloUpdateLeavesStaleLane(events: seq<CdmEvent>, e: CdmEvent, pc: Num, policy: PolicyConfig, clock: Clock, store: Store, i: int)
    requires 0 <= i < |events| && events[i].id == e.id
    requires e.lane != ActionNow
    requires WithinWarning(clock(e.tca), policy) && Gt(pc, policy.pcRedThreshold)
    ensures var o := HandleUpdateEvent(events, e.(pcMc := Some(pc)), policy, clock, store);
            && o.shown[i].lane == ActionNow
            && o.stored[e.id].lane == e.lane
  {
  }

  /**
   * `handleUpdateEvent` writing the copy it shows. The screen is the same as
   * in `HandleUpdateEvent`; only the record written differs.
   */
  function HandleUpdateEventPersistingShown(events: seq<CdmEvent>, updated: CdmEvent, policy: PolicyConfig, clock: Clock, store: Store): (o: Outcome)
    ensures o.shown == HandleUpdateEvent(events, updated, policy, clock, store).shown
    ensures o.stored.Keys == store.Keys + {updated.id}
    ensures o.stored[updated.id] == ApplyPolicy(updated, policy, clock(updated.tca))
    ensures forall i :: 0 <= i < |events| && events[i].id == updated.id ==> o.stored[updated.id] == o.shown[i]
    ensures forall k :: k in store && k != updated.id ==> o.stored[k] == store[k]
  {
    var shown := HandleUpdateEvent(events, updated, policy, clock, store).shown;
    var written := Reclassify(updated, policy, clock);
    IdsOfOne(written);
    assert LastWithItsId([written], 0);
    Outcome(shown, BulkPut(store, [written]))
  }

  /** With the re-classified copy written, the store always agrees with the screen. */
  lemma PersistingShownAgrees(events: seq<CdmEvent>, updated: CdmEvent, policy: PolicyConfig, clock: Clock, store: Store, i: int)
    requires 0 <= i < |events| && events[i].id == updated.id
    ensures var o := HandleUpdateEventPersistingShown(events, updated, policy, clock, store);
            && o.stored[updated.id] == o.shown[i]
            && Classified(o.stored[updated.id], policy, clock(updated.tca))
  {
    var written := Reclassify(updated, policy, clock);
    assert LastWithItsId([written], 0);
  }

  /** The Nightmare view: the ACTION_NOW events, in their original order. */
  function NightmareView(events: seq<CdmEvent>): (r: seq<CdmEvent>)
    ensures IsSubsequence(r, events)
    ensures forall i :: 0 <= i < |r| ==> r[i].lane == ActionNow
    ensures forall i :: 0 <= i < |events| && events[i].lane == ActionNow ==> events[i] in r
  {
    Filter(events, (e: CdmEvent) => e.lane == ActionNow)
  }

  /** The Nightmare view lists each ACTION_NOW event as often as the event list does, and nothing else. */
  lemma NightmareViewCounts(events: seq<CdmEvent>)
    ensures forall e :: multiset(NightmareView(events))[e] == if e.lane == ActionNow then multiset(events)[e] else 0
  {
    FilterCounts(events, (e: CdmEvent) => e.lane == ActionNow);
  }

  /**
   * The Nightmare view is the dashboard with an empty search and the
   * ACTION_NOW selector, and it lists as many events as the dashboard's
   * ACTION_NOW counter.
   */
  lemma NightmareIsActionNowFilter(events: seq<CdmEvent>)
    ensures NightmareView(events) == FilteredEvents(events, "", OnlyLane(ActionNow))
    ensures |NightmareView(events)| == ComputeStats(events).action
  {
    ShowAllByDefault(events);
    forall i | 0 <= i < |events|
      ensures MatchesSearch(events[i], "")
    {
      assert events[i] in FilteredEvents(events, "", AllLanes);
    }
    FilterAgree(events, (e: CdmEvent) => e.lane == ActionNow,
                (e: CdmEvent) => MatchesSearch(e, "") && MatchesLane(e, OnlyLane(ActionNow)));
  }

  /**
   * The initial load: the stored events when there are any; otherwise the
   * generated demo events, which are also written to the store.
   */
  function LoadData(store: Store, stored: seq<CdmEvent>, generate: nat -> seq<CdmEvent>): (o: Outcome)
    ensures |stored| > 0 ==> o == Outcome(stored, store)
    ensures |stored| == 0 ==> o.shown == generate(InitialMockCount) && o.stored == BulkPut(store, o.shown)
  {
    if |stored| > 0 then Outcome(stored, store)
    else
      var initial := generate(InitialMockCount);
      Outcome(initial, BulkPut(store, initial))
  }

  /**
   * When `stored` is the store's listing and the generated events have
   * distinct ids, the events on screen after loading list the store.
   */
  lemma LoadedEventsListTheStore(store: Store, stored: seq<CdmEvent>, generate: nat -> seq<CdmEvent>)
    requires IsListing(store, stored)
    requires UniqueIds(generate(InitialMockCount))
    ensures var o := LoadData(store, stored, generate);
            IsListing(o.stored, o.shown)
  {
    if |stored| == 0 {
      var initial := generate(InitialMockCount);
      forall i | 0 <= i < |initial|
        ensures BulkPut(store, initial)[initial[i].id] == initial[i]
      {
        BulkPutUnique(store, initial, i);
      }
    }
  }
}
