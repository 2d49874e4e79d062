/**
 * Reconciling the stored hashes with a freshly polled snapshot of events. The
 * snapshot is fetched over four start-time windows, split into live and
 * pre-match maps keyed by external id (values are the serialised events, kept
 * abstract as `V`), and each map is merged into its hash: additively for live
 * events, whose stored copies carry push updates, and by overwriting for
 * pre-match events.
 */
module Reconcile {
  import opened Wrappers
  import opened Domain
  import Storage

  // ---- the query windows ----

  /** A start-time window in hours relative to now; the last window has no end. */
  datatype Window = Window(start: int, end: int)

  const TimeRanges := [Window(-4, 0), Window(0, 8), Window(8, 32), Window(32, 0)]

  /** The windows cover from four hours ago onwards without gaps or overlaps: each bounded window ends where the next starts. */
  lemma WindowsTile()
    ensures |TimeRanges| == 4 && TimeRanges[0].start == -4
    ensures forall i :: 0 <= i < |TimeRanges| - 1 ==> TimeRanges[i].start < TimeRanges[i].end == TimeRanges[i + 1].start
  {
  }

  const EventsUrlHead := "https://ss-aka-ori.ladbrokes.com/openbet-ssviewer/Drilldown/2.81/EventToOutcomeForClass/"
  const StartFilter := "?simpleFilter=event.startTime:greaterThanOrEqual:"
  const QueryOptions := "&translationLang=en&responseFormat=json&prune=event&prune=market&childCount=event"
  const EndFilter := "&simpleFilter=event.startTime:lessThan:"

  /** The query for the classes from `start`, without an end. */
  function OpenQuery(classes: string, start: string): string {
    EventsUrlHead + classes + StartFilter + start + QueryOptions
  }

  /** `getEventsUrl`: the window's query, bounded by `end` unless it is the last of `count` windows. The formatted times are parameters. */
  function EventsUrl(classes: string, start: string, end: string, iteration: int, count: int): (r: string)
    ensures OpenQuery(classes, start) <= r
    ensures r == OpenQuery(classes, start) <==> iteration == count - 1
    ensures iteration != count - 1 ==> r[|OpenQuery(classes, start)|..] == EndFilter + end
  {
    if iteration == count - 1 then OpenQuery(classes, start)
    else OpenQuery(classes, start) + EndFilter + end
  }

  /** Of the four window queries, exactly the last is open-ended. */
  lemma OnlyLastWindowIsOpen(classes: string, starts: seq<string>, ends: seq<string>)
    requires |starts| == |TimeRanges| && |ends| == |TimeRanges|
    ensures forall i :: 0 <= i < |TimeRanges| ==>
      (EventsUrl(classes, starts[i], ends[i], i, |TimeRanges|) == OpenQuery(classes, starts[i]) <==> i == 3)
  {
  }

  // ---- splitting the snapshot ----

  /** The ids of the events with the given liveness. */
  function IdsWhere(evs: seq<Event>, live: bool): set<string> {
    set i | 0 <= i < |evs| && evs[i].isLive == live :: evs[i].externalId
  }

  function DivideFrom<V>(evs: seq<Event>, marshal: Event -> Option<V>, li: map<string, V>, pm: map<string, V>): (r: Option<(map<string, V>, map<string, V>)>)
    decreases |evs|
  {
    if |evs| == 0 then Some((li, pm))
    else match marshal(evs[0])
      case None => None
      case Some(b) =>
        if evs[0].isLive then DivideFrom(evs[1..], marshal, li[evs[0].externalId := b], pm)
        else DivideFrom(evs[1..], marshal, li, pm[evs[0].externalId := b])
  }

  /** `divideEvents`: live events by id in one map, the rest in the other; any serialisation failure fails the whole split. */
  function DivideEvents<V>(evs: seq<Event>, marshal: Event -> Option<V>): Option<(map<string, V>, map<string, V>)> {
    DivideFrom(evs, marshal, map[], map[])
  }

  lemma {:induction false} DivideFromKeys<V>(evs: seq<Event>, marshal: Event -> Option<V>, li: map<string, V>, pm: map<string, V>)
    ensures DivideFrom(evs, marshal, li, pm).Some? <==> forall i :: 0 <= i < |evs| ==> marshal(evs[i]).Some?
    ensures DivideFrom(evs, marshal, li, pm).Some? ==>
      var (l, p) := DivideFrom(evs, marshal, li, pm).value;
      l.Keys == li.Keys + IdsWhere(evs, true) && p.Keys == pm.Keys + IdsWhere(evs, false)
    decreases |evs|
  {
    if |evs| > 0 {
      var e := evs[0];
      assert forall i :: 1 <= i < |evs| ==> evs[i] == evs[1..][i - 1];
      assert IdsWhere(evs, e.isLive) == {e.externalId} + IdsWhere(evs[1..], e.isLive) by {
        IdsWhereCons(evs, e.isLive);
      }
      assert IdsWhere(evs, !e.isLive) == IdsWhere(evs[1..], !e.isLive) by {
        IdsWhereCons(evs, !e.isLive);
      }
      if marshal(e).Some? {
        var b := marshal(e).value;
        if e.isLive {
          DivideFromKeys(evs[1..], marshal, li[e.externalId := b], pm);
        } else {
          DivideFromKeys(evs[1..], marshal, li, pm[e.externalId := b]);
        }
      }
    }
  }

  lemma IdsWhereCons(evs: seq<Event>, live: bool)
    requires |evs| > 0
    ensures IdsWhere(evs, live) == (if evs[0].isLive == live then {evs[0].externalId} else {}) + IdsWhere(evs[1..], live)
  {
    assert forall i :: 1 <= i < |evs| ==> evs[i] == evs[1..][i - 1];
    forall k | k in IdsWhere(evs, live)
      ensures k in (if evs[0].isLive == live then {evs[0].externalId} else {}) + IdsWhere(evs[1..], live)
    {
      var i :| 0 <= i < |evs| && evs[i].isLive == live && evs[i].externalId == k;
      if i > 0 {
        assert evs[1..][i - 1] == evs[i];
      }
    }
  }

  /** Event `i` is the last of its phase carrying its id, so its bytes are the ones the split keeps. */
  predicate LastOfPhase(evs: seq<Event>, i: int)
    requires 0 <= i < |evs|
  {
    forall j :: i < j < |evs| && evs[j].externalId == evs[i].externalId ==> evs[j].isLive != evs[i].isLive
  }

  /** The map of one phase: the live map or the pre-match map. */
  function Phase<V>(maps: (map<string, V>, map<string, V>), live: bool): map<string, V> {
    if live then maps.0 else maps.1
  }

  lemma {:induction false} DivideFromValues<V>(evs: seq<Event>, marshal: Event -> Option<V>, li: map<string, V>, pm: map<string, V>)
    requires DivideFrom(evs, marshal, li, pm).Some?
    ensures var res := DivideFrom(evs, marshal, li, pm).value;
      forall i :: 0 <= i < |evs| && LastOfPhase(evs, i) ==>
        evs[i].externalId in Phase(res, evs[i].isLive) && Some(Phase(res, evs[i].isLive)[evs[i].externalId]) == marshal(evs[i])
    ensures var res := DivideFrom(evs, marshal, li, pm).value;
      forall live: bool, k :: k in Phase((li, pm), live) && k !in IdsWhere(evs, live) ==>
        k in Phase(res, live) && Phase(res, live)[k] == Phase((li, pm), live)[k]
    decreases |evs|
  {
    if |evs| > 0 {
      var e := evs[0];
      var b := marshal(e).value;
      var tail := evs[1..];
      var li' := if e.isLive then li[e.externalId := b] else li;
      var pm' := if e.isLive then pm else pm[e.externalId := b];
      assert DivideFrom(evs, marshal, li, pm) == DivideFrom(tail, marshal, li', pm');
      DivideFromValues(tail, marshal, li', pm');
      var res := DivideFrom(evs, marshal, li, pm).value;
      assert forall j :: 0 <= j < |tail| ==> tail[j] == evs[j + 1];
      forall i | 0 <= i < |evs| && LastOfPhase(evs, i)
        ensures evs[i].externalId in Phase(res, evs[i].isLive) && Some(Phase(res, evs[i].isLive)[evs[i].externalId]) == marshal(evs[i])
      {
        if i == 0 {
          forall j | 0 <= j < |tail| && tail[j].externalId == e.externalId
            ensures tail[j].isLive != e.isLive
          {
            assert evs[j + 1] == tail[j];
          }
          assert e.externalId !in IdsWhere(tail, e.isLive);
        } else {
          assert tail[i - 1] == evs[i];
          assert LastOfPhase(tail, i - 1);
        }
      }
      forall live: bool, k | k in Phase((li, pm), live) && k !in IdsWhere(evs, live)
        ensures k in Phase(res, live) && Phase(res, live)[k] == Phase((li, pm), live)[k]
      {
        IdsWhereCons(evs, live);
      }
    }
  }

  /** The split succeeds exactly when every event serialises; live ids go to the first map and the others to the second, each id holding the bytes of the last event of that phase with it. */
  lemma DivideEventsPartitions<V>(evs: seq<Event>, marshal: Event -> Option<V>)
    ensures DivideEvents(evs, marshal).Some? <==> forall i :: 0 <= i < |evs| ==> marshal(evs[i]).Some?
    ensures DivideEvents(evs, marshal).Some? ==>
      DivideEvents(evs, marshal).value.0.Keys == IdsWhere(evs, true)
      && DivideEvents(evs, marshal).value.1.Keys == IdsWhere(evs, false)
    ensures DivideEvents(evs, marshal).Some? ==>
      forall i :: 0 <= i < |evs| && LastOfPhase(evs, i) ==>
        var m := Phase(DivideEvents(evs, marshal).value, evs[i].isLive);
        evs[i].externalId in m && Some(m[evs[i].externalId]) == marshal(evs[i])
  {
    DivideFromKeys(evs, marshal, map[], map[]);
    if DivideEvents(evs, marshal).Some? {
      DivideFromValues(evs, marshal, map[], map[]);
    }
  }

  // ---- set differences ----

  /** `getMissingEventsIds`: the listed ids absent from the snapshot, in listing order. */
  function MissingIds<V>(ids: seq<string>, events: map<string, V>): (r: seq<string>)
    ensures forall k :: k in r <==> k in ids && k !in events
    ensures |r| <= |ids|
  {
    UnlistedMembers(ids, events);
    Unlisted(ids, events)
  }

  /** The filter behind `MissingIds`, kept free of a contract so that its unfolding stays cheap. */
  function Unlisted<V>(ids: seq<string>, events: map<string, V>): seq<string>
    decreases |ids|
  {
    if |ids| == 0 then []
    else (if ids[0] in events then [] else [ids[0]]) + Unlisted(ids[1..], events)
  }

  lemma {:induction false} UnlistedMembers<V>(ids: seq<string>, events: map<string, V>)
    ensures forall k :: k in Unlisted(ids, events) <==> k in ids && k !in events
    ensures |Unlisted(ids, events)| <= |ids|
    decreases |ids|
  {
    if |ids| > 0 {
      UnlistedMembers(ids[1..], events);
      assert ids == [ids[0]] + ids[1..];
    }
  }

  lemma {:induction false} UnlistedAppend<V>(a: seq<string>, b: seq<string>, events: map<string, V>)
    ensures Unlisted(a + b, events) == Unlisted(a, events) + Unlisted(b, events)
    decreases |a|
  {
    if |a| > 0 {
      assert (a + b)[0] == a[0];
      assert (a + b)[1..] == a[1..] + b;
      UnlistedAppend(a[1..], b, events);
      var h := if a[0] in events then [] else [a[0]];
      var x, y := Unlisted(a[1..], events), Unlisted(b, events);
      assert h + (x + y) == (h + x) + y;
    } else {
      assert a + b == b;
    }
  }

  /** Finding the missing ids of a concatenation finds those of each part, so listing order is kept. */
  lemma MissingIdsAppend<V>(a: seq<string>, b: seq<string>, events: map<string, V>)
    ensures MissingIds(a + b, events) == MissingIds(a, events) + MissingIds(b, events)
  {
    UnlistedAppend(a, b, events);
  }

  /**
   * `getNewEvents` (and `filterNewEvents`, its copy for the live poller): a copy
   * of the snapshot with each listed id deleted in turn.
   */
  function NewEvents<V>(ids: seq<string>, events: map<string, V>): (r: map<string, V>)
    decreases |ids|
  {
    if |ids| == 0 then events else NewEvents(ids[1..], events - {ids[0]})
  }

  /** The new events are the snapshot entries whose id is not listed, with their values. */
  lemma {:induction false} NewEventsAreUnlisted<V>(ids: seq<string>, events: map<string, V>)
    ensures NewEvents(ids, events).Keys == events.Keys - set i | 0 <= i < |ids| :: ids[i]
    ensures forall k :: k in NewEvents(ids, events) ==> NewEvents(ids, events)[k] == events[k]
    decreases |ids|
  {
    if |ids| > 0 {
      NewEventsAreUnlisted(ids[1..], events - {ids[0]});
      var all := set i | 0 <= i < |ids| :: ids[i];
      var rest := set i | 0 <= i < |ids[1..]| :: ids[1..][i];
      assert all == {ids[0]} + rest by {
        forall k | k in all
          ensures k in {ids[0]} + rest
        {
          var i :| 0 <= i < |ids| && ids[i] == k;
          if i > 0 {
            assert ids[1..][i - 1] == k;
          }
        }
      }
    }
  }

  // ---- merging into the hashes ----

  /** `removeUnavailableEvents`: listed ids missing from the snapshot are deleted, if there are any. */
  function RemoveUnavailable<V>(h: map<string, V>, listed: seq<string>, events: map<string, V>): map<string, V> {
    var missing := MissingIds(listed, events);
    if |missing| < 1 then h else map k | k in h && k !in missing :: h[k]
  }

  /** Live reconcile: delete ids the snapshot lacks, then add only ids not listed before, so push-updated copies survive. */
  function ReconcileLive<V>(h: map<string, V>, listed: seq<string>, live: map<string, V>): map<string, V>
    requires Storage.Lists(listed, h)
  {
    if |live| == 0 then h
    else
      var kept := RemoveUnavailable(h, listed, live);
      var added := NewEvents(listed, live);
      if |added| < 1 then kept else kept + added
  }

  /** Pre-match reconcile: delete ids the snapshot lacks, then write every snapshot entry. */
  function ReconcilePreMatch<V>(h: map<string, V>, listed: seq<string>, preMatch: map<string, V>): map<string, V>
    requires Storage.Lists(listed, h)
  {
    if |preMatch| == 0 then h
    else RemoveUnavailable(h, listed, preMatch) + preMatch
  }

  lemma RemoveUnavailableKeeps<V>(h: map<string, V>, listed: seq<string>, events: map<string, V>)
    requires Storage.Lists(listed, h)
    ensures RemoveUnavailable(h, listed, events).Keys == h.Keys * events.Keys
    ensures forall k :: k in RemoveUnavailable(h, listed, events) ==> RemoveUnavailable(h, listed, events)[k] == h[k]
  {
  }

  /**
   * After a live reconcile with a non-empty snapshot the hash holds exactly the
   * snapshot's ids; ids already stored keep their stored value, new ids take the
   * snapshot's. An empty snapshot leaves the hash alone.
   */
  lemma LiveReconcileIsAdditive<V>(h: map<string, V>, listed: seq<string>, live: map<string, V>)
    requires Storage.Lists(listed, h)
    ensures |live| == 0 ==> ReconcileLive(h, listed, live) == h
    ensures |live| > 0 ==>
      var r := ReconcileLive(h, listed, live);
      && r.Keys == live.Keys
      && (forall k :: k in r && k in h ==> r[k] == h[k])
      && (forall k :: k in r && k !in h ==> r[k] == live[k])
  {
    if |live| > 0 {
      var kept := RemoveUnavailable(h, listed, live);
      var added := NewEvents(listed, live);
      UnionUnlessEmpty(kept, added);
      RemoveUnavailableKeeps(h, listed, live);
      NewEventsOfListing(h, listed, live);
      UnionOfDisjoint(kept, added, h.Keys, live);
    }
  }

  /** Adding an empty map changes nothing, so the guard on `|added|` is only a shortcut. */
  lemma UnionUnlessEmpty<V>(a: map<string, V>, b: map<string, V>)
    ensures (if |b| < 1 then a else a + b) == a + b
  {
    if |b| < 1 {
      assert b.Keys == {};
    }
  }

  /** Joining the stored part of the snapshot with its unstored part restores the snapshot's ids. */
  lemma UnionOfDisjoint<V>(kept: map<string, V>, added: map<string, V>, stored: set<string>, live: map<string, V>)
    requires kept.Keys == stored * live.Keys && added.Keys == live.Keys - stored
    requires forall k :: k in added ==> added[k] == live[k]
    ensures (kept + added).Keys == live.Keys
    ensures forall k :: k in kept ==> (kept + added)[k] == kept[k]
    ensures forall k :: k in live && k !in stored ==> (kept + added)[k] == live[k]
  {
  }

  /** With `listed` enumerating the hash, the new events are the snapshot entries not in the hash. */
  lemma NewEventsOfListing<V>(h: map<string, V>, listed: seq<string>, live: map<string, V>)
    requires Storage.Lists(listed, h)
    ensures NewEvents(listed, live).Keys == live.Keys - h.Keys
    ensures forall k :: k in NewEvents(listed, live) ==> NewEvents(listed, live)[k] == live[k]
  {
    NewEventsAreUnlisted(listed, live);
    var listedSet := set i | 0 <= i < |listed| :: listed[i];
    assert listedSet == h.Keys by {
      forall k | k in h
        ensures k in listedSet
      {
        var i :| 0 <= i < |listed| && listed[i] == k;
      }
    }
  }

  /** After a pre-match reconcile with a non-empty snapshot the hash equals the snapshot; an empty one leaves it alone. */
  lemma PreMatchReconcileOverwrites<V>(h: map<string, V>, listed: seq<string>, preMatch: map<string, V>)
    requires Storage.Lists(listed, h)
    ensures |preMatch| == 0 ==> ReconcilePreMatch(h, listed, preMatch) == h
    ensures |preMatch| > 0 ==> ReconcilePreMatch(h, listed, preMatch) == preMatch
  {
    if |preMatch| > 0 {
      RemoveUnavailableKeeps(h, listed, preMatch);
    }
  }

  /** Reconciling a live hash with the snapshot it already holds changes nothing. */
  lemma LiveReconcileIdempotent<V>(h: map<string, V>, listed: seq<string>, live: map<string, V>, relisted: seq<string>)
    requires Storage.Lists(listed, h) && |live| > 0
    requires Storage.Lists(relisted, ReconcileLive(h, listed, live))
    ensures ReconcileLive(ReconcileLive(h, listed, live), relisted, live) == ReconcileLive(h, listed, live)
  {
    var once := ReconcileLive(h, listed, live);
    LiveReconcileIsAdditive(h, listed, live);
    LiveReconcileIsAdditive(once, relisted, live);
  }

  /**
   * One polling round: the snapshot is split and each non-empty part merged into
   * its hash. A failed split leaves both hashes as they were.
   */
  function ReconcileRound<V>(liveHash: map<string, V>, liveListed: seq<string>, preHash: map<string, V>, preListed: seq<string>, evs: seq<Event>, marshal: Event -> Option<V>): (r: (map<string, V>, map<string, V>))
    requires Storage.Lists(liveListed, liveHash) && Storage.Lists(preListed, preHash)
  {
    match DivideEvents(evs, marshal)
    case None => (liveHash, preHash)
    case Some((li, pm)) => (ReconcileLive(liveHash, liveListed, li), ReconcilePreMatch(preHash, preListed, pm))
  }

  /** When the snapshot has live and pre-match events with distinct ids, a round leaves each hash holding exactly its part, so no event is in both. */
  lemma RoundSeparatesPhases<V>(liveHash: map<string, V>, liveListed: seq<string>, preHash: map<string, V>, preListed: seq<string>, evs: seq<Event>, marshal: Event -> Option<V>)
    requires Storage.Lists(liveListed, liveHash) && Storage.Lists(preListed, preHash)
    requires forall i, j :: 0 <= i < j < |evs| ==> evs[i].externalId != evs[j].externalId
    requires forall i :: 0 <= i < |evs| ==> marshal(evs[i]).Some?
    requires IdsWhere(evs, true) != {} && IdsWhere(evs, false) != {}
    ensures ReconcileRound(liveHash, liveListed, preHash, preListed, evs, marshal).0.Keys == IdsWhere(evs, true)
    ensures ReconcileRound(liveHash, liveListed, preHash, preListed, evs, marshal).1.Keys == IdsWhere(evs, false)
    ensures IdsWhere(evs, true) !! IdsWhere(evs, false)
  {
    DivideEventsPartitions(evs, marshal);
    var split := DivideEvents(evs, marshal).value;
    assert |split.0| > 0 by { assert split.0.Keys != {}; }
    assert |split.1| > 0 by { assert split.1.Keys != {}; }
    LiveReconcileIsAdditive(liveHash, liveListed, split.0);
    PreMatchReconcileOverwrites(preHash, preListed, split.1);
    PhasesAreDisjoint(evs);
  }

  /** With distinct ids, no id belongs to both a live and a pre-match event. */
  lemma PhasesAreDisjoint(evs: seq<Event>)
    requires forall i, j :: 0 <= i < j < |evs| ==> evs[i].externalId != evs[j].externalId
    ensures IdsWhere(evs, true) !! IdsWhere(evs, false)
  {
    forall k | k in IdsWhere(evs, true)
      ensures k !in IdsWhere(evs, false)
    {
      var i :| 0 <= i < |evs| && evs[i].isLive && evs[i].externalId == k;
      forall j | 0 <= j < |evs| && evs[j].externalId == k
        ensures evs[j].isLive
      {
        assert j == i;
      }
    }
  }
}
