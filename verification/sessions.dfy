/**
 * The per-id polling sessions of the live update loop, as a sequential state
 * machine. Each stored live event id has an entry saying whether a long poll
 * for it is in flight and which request body the next poll sends. Threads,
 * the lock and the channels are abstracted away: a transition is one call.
 */
module Sessions {
  import opened Wrappers
  import opened Strings
  import opened Domain
  import opened UpdateTypes
  import opened Wire
  import opened UpdateBatch
  import opened Storage

  /** `pollingInfo`: `body` is `None` until a response has been applied (a nil byte slice). */
  datatype Session = Session(polling: bool, body: Option<string>)

  type Table = map<string, Session>

  /** The request body for an id's first poll. */
  function DefaultRequestBody(id: string): string {
    "CL0000S0002sEVENT0" + id + "SEVENT0" + id + "!!!!!!!!!0"
  }

  /** `getRequestBody`: the continuation request built from the two fragments of the last response. */
  function RequestBodyFor(id: string, parts: (string, string)): string {
    "CL0000S0001sEVENT0" + id + "!!!!" + parts.0 + "S0001SEVENT0" + id + "!!!!" + parts.1
  }

  /**
   * Dispatching an id: it starts a poll when it has no entry or its entry is
   * idle, marking it polling and keeping its body; a poll already in flight is
   * not started again.
   */
  function Dispatch(t: Table, id: string): (r: (Table, bool))
    ensures r.1 <==> id !in t || !t[id].polling
    ensures id in r.0 && r.0[id].polling
    ensures r.0.Keys == t.Keys + {id}
    ensures forall k :: k in t && k != id ==> r.0[k] == t[k]
    ensures id in t ==> r.0[id].body == t[id].body
    ensures id !in t ==> r.0[id].body == None
  {
    if id !in t then (t[id := Session(true, None)], true)
    else if !t[id].polling then (t[id := t[id].(polling := true)], true)
    else (t, false)
  }

  /** The body the poll for `id` sends: the stored one, or the default before any response was applied. */
  function RequestBody(t: Table, id: string): (r: string)
    requires id in t
    ensures t[id].body.None? ==> r == DefaultRequestBody(id)
    ensures t[id].body.Some? ==> r == t[id].body.value
  {
    match t[id].body
    case None => DefaultRequestBody(id)
    case Some(b) => b
  }

  /** Why the loop stops: every one of these ends `pollUpdates` with an error. */
  datatype Fault = TransportFailed | Undecodable(wireError: WireError) | UpdateFailed(updateError: UpdateError)

  /** After a completed poll either the loop goes on with the new table and store, or it stops, leaving the store as it is then. */
  datatype Step = Continue(table: Table, hash: Hash) | Fatal(fault: Fault, hash: Hash)

  /** The entry for `id` idle again, its body replaced when a new one is given. */
  function Idle(t: Table, id: string, body: Option<string>): (r: Table)
    requires id in t
    ensures r.Keys == t.Keys && !r[id].polling
    ensures forall k :: k in t && k != id ==> r[k] == t[k]
    ensures body.None? ==> r[id].body == t[id].body
    ensures body.Some? ==> r[id].body == body
  {
    t[id := Session(false, if body.Some? then body else t[id].body)]
  }

  /**
   * The part of a poll that follows decoding: a response for an id that is no
   * longer stored is dropped; otherwise the batch is applied to the stored
   * event, finished ids are deleted, and the edited event is stored back —
   * also when an event update reported it finished, which re-stores it — and
   * the next body is built from the response's fragments.
   */
  function ApplyResponse(t: Table, h: Hash, id: string, u: Update, order: seq<UpdateKind>, c: Codec): (r: Step)
    requires id in t && IsKindOrder(order)
    ensures id !in h ==> r == Continue(Idle(t, id, None), h)
    ensures id in h ==>
      var run := UpdateEvent(u, order, h[id], c);
      && (r.Fatal? <==> run.1.Some?)
      && (r.Fatal? ==> r.fault == UpdateFailed(run.1.value) && r.hash == DeleteEvents(h, run.0.finished))
      && (r.Continue? ==> r.hash == StoreEvent(DeleteEvents(h, run.0.finished), run.0.event))
      && (r.Continue? ==> r.table == Idle(t, id, Some(RequestBodyFor(id, u.requestBodyParts))))
  {
    if id !in h then Continue(Idle(t, id, None), h)
    else
      var (p, err) := UpdateEvent(u, order, h[id], c);
      var h' := DeleteEvents(h, p.finished);
      if err.Some? then Fatal(UpdateFailed(err.value), h')
      else Continue(Idle(t, id, Some(RequestBodyFor(id, u.requestBodyParts))), h'[p.event.externalId := p.event])
  }

  /**
   * One completed poll for `id`. `response` is the response body, or `None` when
   * the request failed or the status was not 200. A body that decodes to no
   * records leaves the store alone and makes the id idle with its body kept.
   */
  function Complete(t: Table, h: Hash, id: string, response: Option<string>, order: seq<UpdateKind>, c: Codec): (r: Step)
    requires id in t && IsKindOrder(order)
  {
    match response
    case None => Fatal(TransportFailed, h)
    case Some(body) =>
      match Decode(body)
      case Err(e) => Fatal(Undecodable(e), h)
      case Ok(None) => Continue(Idle(t, id, None), h)
      case Ok(Some(u)) => ApplyResponse(t, h, id, u, order, c)
  }

  // ---- properties of the session table ----

  /** A poll in flight is never started twice: dispatching the same id again does nothing. */
  lemma NoDoubleDispatch(t: Table, id: string)
    ensures var (t1, _) := Dispatch(t, id);
      Dispatch(t1, id) == (t1, false)
  {
  }

  /** The first poll for a new id sends the default body with that id. */
  lemma FirstPollUsesDefault(t: Table, id: string)
    requires id !in t
    ensures Dispatch(t, id).1 && RequestBody(Dispatch(t, id).0, id) == DefaultRequestBody(id)
  {
  }

  /** A continuation body carries the id and the two fragments at fixed positions, and differs from the first-poll body. */
  lemma RequestBodyLayout(id: string, parts: (string, string))
    requires |parts.0| == 6
    ensures var b := RequestBodyFor(id, parts);
      var n := |id|;
      && |b| == 18 + n + 4 + 6 + 12 + n + 4 + |parts.1|
      && b[..18] == "CL0000S0001sEVENT0"
      && b[18..18 + n] == id
      && b[22 + n..28 + n] == parts.0
      && b[40 + n..40 + 2 * n] == id
      && b[44 + 2 * n..] == parts.1
      && b != DefaultRequestBody(id)
  {
    var b := RequestBodyFor(id, parts);
    var n := |id|;
    assert b == "CL0000S0001sEVENT0" + id + ("!!!!" + parts.0) + ("S0001SEVENT0" + id) + ("!!!!" + parts.1);
    assert b[10] == '1' && DefaultRequestBody(id)[10] == '2';
  }

  /** Distinct fragments give distinct continuation requests: the body determines the fragments. */
  lemma RequestBodyInjective(id: string, a: (string, string), b: (string, string))
    requires |a.0| == 6 && |b.0| == 6
    requires RequestBodyFor(id, a) == RequestBodyFor(id, b)
    ensures a == b
  {
    RequestBodyLayout(id, a);
    RequestBodyLayout(id, b);
  }

  /** A completed poll that continues leaves the id idle and every other entry untouched. */
  lemma CompleteIdles(t: Table, h: Hash, id: string, response: Option<string>, order: seq<UpdateKind>, c: Codec)
    requires id in t && IsKindOrder(order)
    requires Complete(t, h, id, response, order, c).Continue?
    ensures var t' := Complete(t, h, id, response, order, c).table;
      && t'.Keys == t.Keys && !t'[id].polling
      && forall k :: k in t && k != id ==> t'[k] == t[k]
  {
  }

  /**
   * With no update, or with the event gone from the store, the id goes idle and
   * keeps its body; only an applied response changes the body, to the
   * continuation built from that response's fragments.
   */
  lemma CompleteBody(t: Table, h: Hash, id: string, body: string, order: seq<UpdateKind>, c: Codec)
    requires id in t && IsKindOrder(order)
    requires Decode(body).Ok?
    ensures var r := Complete(t, h, id, Some(body), order, c);
      && (Decode(body).value.None? || id !in h ==> r == Continue(Idle(t, id, None), h))
      && (r.Continue? && Decode(body).value.Some? && id in h ==>
            r.table[id].body == Some(RequestBodyFor(id, Decode(body).value.value.requestBodyParts)))
  {
  }

  /**
   * A decoded response changes the store only under the polled id: no other
   * stored event is deleted or rewritten, and the polled one is kept (the
   * decoder never yields the event updates that could delete it). The poll
   * continues exactly when the run succeeds; the polled id then holds the event
   * the run produced, which differs from the old one in the markets alone, and a
   * failed run leaves the store as it was.
   */
  lemma CompleteTouchesOnlyPolledEvent(t: Table, h: Hash, id: string, body: string, order: seq<UpdateKind>, c: Codec)
    requires id in t && IsKindOrder(order)
    requires id in h && h[id].externalId == id
    requires Decode(body).Ok? && Decode(body).value.Some?
    ensures var r := Complete(t, h, id, Some(body), order, c);
      && r.hash.Keys == h.Keys
      && (forall k :: k in h && k != id ==> r.hash[k] == h[k])
      && r.hash[id].(markets := h[id].markets) == h[id]
    ensures var r := Complete(t, h, id, Some(body), order, c);
      var run := UpdateEvent(Decode(body).value.value, order, h[id], c);
      && (r.Continue? <==> run.1.None?)
      && (r.Continue? ==> r.hash[id] == run.0.event)
      && (r.Fatal? ==> r.hash == h)
  {
    var u := Decode(body).value.value;
    DecodedUpdateFinishesNothing(body, order, h[id], c);
    RunTouchesOnlyMarkets(Batch(u.data, order), Progress(h[id], []), c);
  }

  /**
   * As written, an event that an event update reports finished is deleted and
   * then stored again by the same poll, although the code's own comment says a
   * finished event should not be stored. The decoder never produces event
   * updates, so this path is not reached from a decoded body.
   */
  lemma FinishedEventIsStoredAgain(t: Table, h: Hash, id: string, d: UpdateData, order: seq<UpdateKind>, c: Codec)
    requires id in t && IsKindOrder(order)
    requires id in h && h[id].externalId == id && d.id == id
    requires c.eventUpdate(d.rawData).Some? && IsEventFinished(c.eventUpdate(d.rawData).value)
    ensures var r := ApplyResponse(t, h, id, Update(map[EventKind := [d]], ("", "")), order, c);
      r.Continue? && id in r.hash && r.hash[id] == h[id]
  {
    var data := map[EventKind := [d]];
    var b := Batch(data, order);
    SingleRecordBatch(data, order, EventKind, d);
    var p0 := Progress(h[id], []);
    var (p1, e1) := ApplyOne(EventKind, d, p0, c);
    assert p1 == Progress(h[id], [id]) && e1.None?;
    assert b[1..] == [];
    assert Run(b, p0, c) == Run(b[1..], p1, c);
  }

  /** A grouping with one record of one kind flattens to that record alone, whatever the order. */
  lemma {:induction false} SingleRecordBatch(data: map<UpdateKind, seq<UpdateData>>, order: seq<UpdateKind>, k: UpdateKind, d: UpdateData)
    requires data == map[k := [d]]
    requires k in order && forall i, j :: 0 <= i < j < |order| ==> order[i] != order[j]
    ensures Batch(data, order) == [(k, d)]
    decreases |order|
  {
    var rest := order[1..];
    assert forall i :: 0 <= i < |rest| ==> rest[i] == order[i + 1];
    if order[0] == k {
      NoKindNoRecords(data, rest);
      assert Tagged(k, [d]) == [(k, d)];
    } else {
      SingleRecordBatch(data, rest, k, d);
    }
  }

  lemma {:induction false} NoKindNoRecords(data: map<UpdateKind, seq<UpdateData>>, order: seq<UpdateKind>)
    requires forall i :: 0 <= i < |order| ==> order[i] !in data
    ensures Batch(data, order) == []
    decreases |order|
  {
    if |order| > 0 {
      NoKindNoRecords(data, order[1..]);
    }
  }
}
