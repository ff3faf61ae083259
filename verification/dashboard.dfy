/**
 * The dashboard's list logic: the search-and-lane filter over the events on
 * screen and the per-lane counts shown above the list.
 */
module Dashboard {
  import opened Text
  import opened Seqs
  import opened Types

  /** The lane selector: every lane (`'ALL'`) or one lane. */
  datatype LaneFilter = AllLanes | OnlyLane(lane: TriageLane)

  /** The lower-cased search term occurs in the lower-cased id, first object or second object. */
  predicate MatchesSearch(e: CdmEvent, term: string) {
    var t := Lower(term);
    Contains(Lower(e.id), t) || Contains(Lower(e.object1), t) || Contains(Lower(e.object2), t)
  }

  predicate MatchesLane(e: CdmEvent, filter: LaneFilter) {
    filter.AllLanes? || e.lane == filter.lane
  }

  /**
   * `filteredEvents`: the events matching both the search term and the lane
   * selector, in their original order.
   */
  function FilteredEvents(events: seq<CdmEvent>, term: string, filter: LaneFilter): (r: seq<CdmEvent>)
    ensures IsSubsequence(r, events)
    ensures forall i :: 0 <= i < |r| ==> MatchesSearch(r[i], term) && MatchesLane(r[i], filter)
    ensures forall i :: 0 <= i < |events| && MatchesSearch(events[i], term) && MatchesLane(events[i], filter) ==> events[i] in r
  {
    Filter(events, (e: CdmEvent) => MatchesSearch(e, term) && MatchesLane(e, filter))
  }

  /** The filtered list holds each matching event as often as the event list does, and nothing else. */
  lemma FilteredEventsCounts(events: seq<CdmEvent>, term: string, filter: LaneFilter)
    ensures forall e :: multiset(FilteredEvents(events, term, filter))[e]
                        == if MatchesSearch(e, term) && MatchesLane(e, filter) then multiset(events)[e] else 0
  {
    FilterCounts(events, (e: CdmEvent) => MatchesSearch(e, term) && MatchesLane(e, filter));
  }

  /** The empty search term with the `'ALL'` selector shows every event. */
  lemma ShowAllByDefault(events: seq<CdmEvent>)
    ensures FilteredEvents(events, "", AllLanes) == events
  {
    forall i | 0 <= i < |events|
      ensures MatchesSearch(events[i], "")
    {
      EmptyIsContained(Lower(events[i].id));
    }
    FilterKeepsAll(events, (e: CdmEvent) => MatchesSearch(e, "") && MatchesLane(e, AllLanes));
  }

  /** The counters above the list. */
  datatype Stats = Stats(total: nat, action: nat, mc: nat, ok: nat)

  /** How many events are in `lane`. */
  function CountLane(events: seq<CdmEvent>, lane: TriageLane): nat {
    |Filter(events, (e: CdmEvent) => e.lane == lane)|
  }

  /** Every event is counted in exactly one lane. */
  lemma {:induction false} LanesPartition(events: seq<CdmEvent>)
    ensures CountLane(events, ActionNow) + CountLane(events, McRequired) + CountLane(events, AnalyticOk) == |events|
  {
    if |events| > 0 {
      LanesPartition(events[1..]);
    }
  }

  /** The lane of each event, in list order. */
  function Lanes(events: seq<CdmEvent>): (r: seq<TriageLane>)
    ensures |r| == |events|
  {
    if |events| == 0 then [] else [events[0].lane] + Lanes(events[1..])
  }

  /** The number counted for a lane is how often that lane occurs among the events' lanes. */
  lemma {:induction false} CountLaneIsMultiplicity(events: seq<CdmEvent>, lane: TriageLane)
    ensures CountLane(events, lane) == multiset(Lanes(events))[lane]
  {
    if |events| > 0 {
      CountLaneIsMultiplicity(events[1..], lane);
      assert Lanes(events) == [events[0].lane] + Lanes(events[1..]);
    }
  }

  /**
   * `stats`: the total, and for each lane the number of events in it; the
   * three lane counts add up to the total.
   */
  function ComputeStats(events: seq<CdmEvent>): (s: Stats)
    ensures s.total == |events|
    ensures s.action == multiset(Lanes(events))[ActionNow]
    ensures s.mc == multiset(Lanes(events))[McRequired]
    ensures s.ok == multiset(Lanes(events))[AnalyticOk]
    ensures s.action + s.mc + s.ok == s.total
  {
    LanesPartition(events);
    CountLaneIsMultiplicity(events, ActionNow);
    CountLaneIsMultiplicity(events, McRequired);
    CountLaneIsMultiplicity(events, AnalyticOk);
    Stats(|events|, CountLane(events, ActionNow), CountLane(events, McRequired), CountLane(events, AnalyticOk))
  }
}
