/**
 * The event store: one hash per sport and phase, mapping an event's external id
 * to the event. The backing key-value service is modelled as a map; its key
 * listing (`GetEventsIds`) is passed in as a sequence that enumerates the keys.
 */
module Storage {
  import opened Wrappers
  import opened Domain

  type Hash = map<string, Event>

  /** The ids of a list of events. */
  function IdsOf(evs: seq<Event>): set<string> {
    set i | 0 <= i < |evs| :: evs[i].externalId
  }

  /** `keys` enumerates exactly the ids stored in `h` (the store's key listing). */
  ghost predicate Lists<V>(keys: seq<string>, h: map<string, V>) {
    forall k :: k in keys <==> k in h
  }

  /** `StoreEvent`: the event under its id, replacing any previous one. */
  function StoreEvent(h: Hash, e: Event): (r: Hash)
    ensures r.Keys == h.Keys + {e.externalId}
    ensures r[e.externalId] == e
    ensures forall k :: k in h && k != e.externalId ==> r[k] == h[k]
  {
    h[e.externalId := e]
  }

  /** `StoreEvents`: every event under its id, in order, so a later event with the same id wins. */
  function StoreEvents(h: Hash, evs: seq<Event>): (r: Hash)
    decreases |evs|
  {
    if |evs| == 0 then h else StoreEvents(StoreEvent(h, evs[0]), evs[1..])
  }

  /** The last event of the list with the given id. */
  function LastWithId(evs: seq<Event>, id: string): (r: Option<Event>)
    ensures r.Some? ==> r.value in evs && r.value.externalId == id
    ensures r.None? <==> id !in IdsOf(evs)
  {
    if |evs| == 0 then None
    else if evs[|evs| - 1].externalId == id then Some(evs[|evs| - 1])
    else
      var r := LastWithId(evs[..|evs| - 1], id);
      assert forall i :: 0 <= i < |evs| - 1 ==> evs[..|evs| - 1][i] == evs[i];
      assert IdsOf(evs) == IdsOf(evs[..|evs| - 1]) + {evs[|evs| - 1].externalId};
      r
  }

  lemma IdsOfSnoc(evs: seq<Event>)
    requires |evs| > 0
    ensures IdsOf(evs) == IdsOf(evs[..|evs| - 1]) + {evs[|evs| - 1].externalId}
  {
    assert forall i :: 0 <= i < |evs| - 1 ==> evs[..|evs| - 1][i] == evs[i];
  }

  /** Storing a list adds exactly its ids and leaves entries with other ids untouched. */
  lemma {:induction false} StoreEventsKeys(h: Hash, evs: seq<Event>)
    ensures StoreEvents(h, evs).Keys == h.Keys + IdsOf(evs)
    ensures forall k :: k in h && k !in IdsOf(evs) ==> StoreEvents(h, evs)[k] == h[k]
    decreases |evs|
  {
    if |evs| == 0 {
      assert IdsOf(evs) == {};
    } else {
      var n := |evs|;
      var init := evs[..n - 1];
      StoreEventsKeys(h, init);
      assert evs == init + [evs[n - 1]];
      StoreEventsAppend(h, init, evs[n - 1]);
      IdsOfSnoc(evs);
    }
  }

  /** After storing a list, each of its ids holds the last event with that id. */
  lemma {:induction false} StoreEventsLastWins(h: Hash, evs: seq<Event>, k: string)
    requires k in IdsOf(evs)
    ensures k in StoreEvents(h, evs) && StoreEvents(h, evs)[k] == LastWithId(evs, k).value
    decreases |evs|
  {
    var n := |evs|;
    var init := evs[..n - 1];
    var e := evs[n - 1];
    assert evs == init + [e];
    StoreEventsAppend(h, init, e);
    IdsOfSnoc(evs);
    if k != e.externalId {
      StoreEventsLastWins(h, init, k);
    }
  }

  lemma {:induction false} StoreEventsAppend(h: Hash, evs: seq<Event>, e: Event)
    ensures StoreEvents(h, evs + [e]) == StoreEvent(StoreEvents(h, evs), e)
    decreases |evs|
  {
    if |evs| == 0 {
      assert (evs + [e])[1..] == [];
    } else {
      assert (evs + [e])[1..] == evs[1..] + [e];
      StoreEventsAppend(StoreEvent(h, evs[0]), evs[1..], e);
    }
  }

  /** `getNewEvents`: the events whose id is not among the current ids, in their original order. */
  function NewEvents(evs: seq<Event>, currentIds: seq<string>): (r: seq<Event>)
    ensures forall e :: e in r <==> e in evs && e.externalId !in currentIds
    ensures |r| <= |evs|
  {
    if |evs| == 0 then []
    else (if evs[0].externalId in currentIds then [] else [evs[0]]) + NewEvents(evs[1..], currentIds)
  }

  /** Filtering a concatenation filters each part: the kept events stay in input order. */
  lemma {:induction false} NewEventsAppend(a: seq<Event>, b: seq<Event>, currentIds: seq<string>)
    ensures NewEvents(a + b, currentIds) == NewEvents(a, currentIds) + NewEvents(b, currentIds)
    decreases |a|
  {
    if |a| > 0 {
      assert (a + b)[1..] == a[1..] + b;
      NewEventsAppend(a[1..], b, currentIds);
    } else {
      assert a + b == b;
    }
  }

  /** `getMissingEventsIds`: the current ids not carried by any event, in their original order. */
  function MissingIds(evs: seq<Event>, currentIds: seq<string>): (r: seq<string>)
    ensures forall k :: k in r <==> k in currentIds && k !in IdsOf(evs)
    ensures |r| <= |currentIds|
  {
    if |currentIds| == 0 then []
    else (if currentIds[0] in IdsOf(evs) then [] else [currentIds[0]]) + MissingIds(evs, currentIds[1..])
  }

  lemma {:induction false} MissingIdsAppend(evs: seq<Event>, a: seq<string>, b: seq<string>)
    ensures MissingIds(evs, a + b) == MissingIds(evs, a) + MissingIds(evs, b)
    decreases |a|
  {
    if |a| > 0 {
      assert (a + b)[0] == a[0];
      assert (a + b)[1..] == a[1..] + b;
      MissingIdsAppend(evs, a[1..], b);
      var h := if a[0] in IdsOf(evs) then [] else [a[0]];
      assert MissingIds(evs, a + b) == h + MissingIds(evs, a[1..] + b);
      assert MissingIds(evs, a) == h + MissingIds(evs, a[1..]);
      assert h + (MissingIds(evs, a[1..]) + MissingIds(evs, b)) == (h + MissingIds(evs, a[1..])) + MissingIds(evs, b);
    } else {
      assert a + b == b;
    }
  }

  /** `DeleteEvents`: the listed ids removed. */
  function DeleteEvents(h: Hash, ids: seq<string>): (r: Hash)
    ensures forall k :: k in r <==> k in h && k !in ids
    ensures forall k :: k in r ==> r[k] == h[k]
  {
    map k | k in h && k !in ids :: h[k]
  }

  /** `StoreNewEvents`: only events whose id is not yet stored are written, and nothing at all when none is new. */
  function StoreNewEvents(h: Hash, listed: seq<string>, evs: seq<Event>): (r: Hash)
    requires Lists(listed, h)
  {
    var added := NewEvents(evs, listed);
    if |added| == 0 then h else StoreEvents(h, added)
  }

  /** `RemoveMissingEvents`: stored ids not carried by the snapshot are deleted; nothing happens when none is missing. */
  function RemoveMissingEvents(h: Hash, listed: seq<string>, evs: seq<Event>): (r: Hash)
    requires Lists(listed, h)
  {
    var missing := MissingIds(evs, listed);
    if |missing| == 0 then h else DeleteEvents(h, missing)
  }

  /** Storing new events never overwrites a stored event and adds every new id. */
  lemma StoreNewEventsKeepsExisting(h: Hash, listed: seq<string>, evs: seq<Event>)
    requires Lists(listed, h)
    ensures var r := StoreNewEvents(h, listed, evs);
      && r.Keys == h.Keys + IdsOf(evs)
      && (forall k :: k in h ==> r[k] == h[k])
      && (forall k :: k in r && k !in h ==> r[k] == LastWithId(evs, k).value)
  {
    var added := NewEvents(evs, listed);
    StoreEventsKeys(h, added);
    assert IdsOf(added) == IdsOf(evs) - h.Keys by {
      forall k | k in IdsOf(evs) - h.Keys
        ensures k in IdsOf(added)
      {
        var i :| 0 <= i < |evs| && evs[i].externalId == k;
        assert evs[i] in added;
        var j :| 0 <= j < |added| && added[j] == evs[i];
      }
    }
    forall k | k in IdsOf(evs) && k !in h
      ensures StoreEvents(h, added)[k] == LastWithId(evs, k).value
    {
      LastWithIdOfNew(evs, listed, k);
      StoreEventsLastWins(h, added, k);
    }
  }

  lemma {:induction false} LastWithIdOfNew(evs: seq<Event>, listed: seq<string>, k: string)
    requires k !in listed
    ensures LastWithId(NewEvents(evs, listed), k) == LastWithId(evs, k)
    decreases |evs|
  {
    if |evs| > 0 {
      var n := |evs|;
      var init := evs[..n - 1];
      assert evs == init + [evs[n - 1]];
      NewEventsAppend(init, [evs[n - 1]], listed);
      LastWithIdOfNew(init, listed, k);
      var added := NewEvents(evs, listed);
      var last := NewEvents([evs[n - 1]], listed);
      assert NewEvents([evs[n - 1]][1..], listed) == [];
      if evs[n - 1].externalId in listed {
        assert added == NewEvents(init, listed);
      } else {
        assert added == NewEvents(init, listed) + [evs[n - 1]];
        assert added[..|added| - 1] == NewEvents(init, listed);
      }
    }
  }

  /** After removing missing events, every stored id is carried by the snapshot, and surviving entries are untouched. */
  lemma RemoveMissingKeepsSnapshotIds(h: Hash, listed: seq<string>, evs: seq<Event>)
    requires Lists(listed, h)
    ensures var r := RemoveMissingEvents(h, listed, evs);
      && r.Keys == h.Keys * IdsOf(evs)
      && (forall k :: k in r ==> r[k] == h[k])
  {
  }

  /** Removing missing events and then storing the snapshot leaves exactly the snapshot's ids, each with its last event. */
  lemma ReplaceWithSnapshot(h: Hash, listed: seq<string>, evs: seq<Event>)
    requires Lists(listed, h)
    ensures var r := StoreEvents(RemoveMissingEvents(h, listed, evs), evs);
      && r.Keys == IdsOf(evs)
      && forall k :: k in r ==> r[k] == LastWithId(evs, k).value
  {
    var removed := RemoveMissingEvents(h, listed, evs);
    RemoveMissingKeepsSnapshotIds(h, listed, evs);
    StoreEventsKeys(removed, evs);
    forall k | k in IdsOf(evs)
      ensures StoreEvents(removed, evs)[k] == LastWithId(evs, k).value
    {
      StoreEventsLastWins(removed, evs, k);
    }
  }
}
