/**
 * Applying one decoded push response to a stored event (`updateEvent`). The
 * response groups its records by kind in a map, which Go iterates in an
 * unspecified order; here the caller names that order. Records are applied
 * one after another and the first failure ends the batch.
 */
module UpdateBatch {
  import opened Wrappers
  import opened Domain
  import opened UpdateTypes
  import opened Wire
  import opened OddsForms
  import opened LiveUpdates
  import Feed

  /** The JSON decoders for the four payload kinds and the float parser, all outside the model. */
  datatype Codec = Codec(
    eventUpdate: string -> Option<Feed.EventUpdate>,
    marketUpdate: string -> Option<Feed.MarketUpdate>,
    selectionUpdate: string -> Option<Feed.SelectionUpdate>,
    priceUpdate: string -> Option<Feed.PriceUpdate>,
    parseFloat: string -> Option<real>)

  datatype UpdateError = UnmarshalFailed(kind: UpdateKind) | OddsRejected(kind: UpdateKind, cause: OddsError)

  /**
   * The event as edited so far, and the ids that event updates reported
   * finished. Those ids are deleted from the store at once, so they stay
   * deleted even when a later record fails.
   */
  datatype Progress = Progress(event: Event, finished: seq<string>)

  /** A handler's outcome: an odds error turns into a batch error, otherwise the edited event is kept. */
  function Land(p: Progress, kind: UpdateKind, handled: (Event, Option<OddsError>)): (r: (Progress, Option<UpdateError>)) {
    match handled.1
    case Some(e) => (p, Some(OddsRejected(kind, e)))
    case None => (p.(event := handled.0), None)
  }

  /**
   * One record of the given kind: its payload is decoded by that kind's decoder
   * (a failure is an unmarshal error) and handed to that kind's handler; a
   * handler's odds error ends the batch with the progress as it was, since the
   * event is then never stored. An event record only notes a finished event.
   */
  function ApplyOne(kind: UpdateKind, d: UpdateData, p: Progress, c: Codec): (r: (Progress, Option<UpdateError>))
    ensures r.0.event.(markets := p.event.markets) == p.event
    ensures r.1.Some? ==> r.0 == p
    ensures kind != EventKind ==> r.0.finished == p.finished
    ensures kind == EventKind ==> r.0.event == p.event
    ensures kind == UnknownKind ==> r == (p, None)
    ensures kind == EventKind && c.eventUpdate(d.rawData).None? ==> r == (p, Some(UnmarshalFailed(EventKind)))
    ensures kind == MarketKind && c.marketUpdate(d.rawData).None? ==> r == (p, Some(UnmarshalFailed(MarketKind)))
    ensures kind == SelectionKind && c.selectionUpdate(d.rawData).None? ==> r == (p, Some(UnmarshalFailed(SelectionKind)))
    ensures kind == PriceKind && c.priceUpdate(d.rawData).None? ==> r == (p, Some(UnmarshalFailed(PriceKind)))
    ensures kind == EventKind && c.eventUpdate(d.rawData).Some? ==>
      r.1.None? && (r.0.finished == p.finished + [d.id] <==> IsEventFinished(c.eventUpdate(d.rawData).value))
      && (!IsEventFinished(c.eventUpdate(d.rawData).value) ==> r.0 == p)
    ensures kind == MarketKind && c.marketUpdate(d.rawData).Some? ==>
      r == (p.(event := HandleMarketUpdate(c.marketUpdate(d.rawData).value, d.id, p.event)), None)
    ensures kind == SelectionKind && c.selectionUpdate(d.rawData).Some? ==>
      var handled := HandleSelectionUpdate(c.selectionUpdate(d.rawData).value, d.id, p.event, c.parseFloat);
      && (handled.1.None? ==> r == (p.(event := handled.0), None))
      && (handled.1.Some? ==> r == (p, Some(OddsRejected(SelectionKind, handled.1.value))))
    ensures kind == PriceKind && c.priceUpdate(d.rawData).Some? ==>
      var handled := HandlePriceUpdate(c.priceUpdate(d.rawData).value, d.id, p.event, c.parseFloat);
      && (handled.1.None? ==> r == (p.(event := handled.0), None))
      && (handled.1.Some? ==> r == (p, Some(OddsRejected(PriceKind, handled.1.value))))
  {
    match kind
    case EventKind =>
      (match c.eventUpdate(d.rawData)
       case None => (p, Some(UnmarshalFailed(kind)))
       case Some(u) => (if IsEventFinished(u) then p.(finished := p.finished + [d.id]) else p, None))
    case MarketKind =>
      (match c.marketUpdate(d.rawData)
       case None => (p, Some(UnmarshalFailed(kind)))
       case Some(u) => (p.(event := HandleMarketUpdate(u, d.id, p.event)), None))
    case SelectionKind =>
      (match c.selectionUpdate(d.rawData)
       case None => (p, Some(UnmarshalFailed(kind)))
       case Some(u) => Land(p, kind, HandleSelectionUpdate(u, d.id, p.event, c.parseFloat)))
    case PriceKind =>
      (match c.priceUpdate(d.rawData)
       case None => (p, Some(UnmarshalFailed(kind)))
       case Some(u) => Land(p, kind, HandlePriceUpdate(u, d.id, p.event, c.parseFloat)))
    case UnknownKind => (p, None)
  }

  /** The records in order; the first error stops the run and is returned with the progress made before it. */
  function Run(items: seq<(UpdateKind, UpdateData)>, p: Progress, c: Codec): (r: (Progress, Option<UpdateError>))
    decreases |items|
  {
    if |items| == 0 then (p, None)
    else
      var (q, err) := ApplyOne(items[0].0, items[0].1, p, c);
      if err.Some? then (q, err) else Run(items[1..], q, c)
  }

  /** A visiting order of the kinds: every kind exactly once. */
  predicate IsKindOrder(order: seq<UpdateKind>) {
    && (forall k: UpdateKind :: k in order)
    && (forall i, j :: 0 <= i < j < |order| ==> order[i] != order[j])
  }

  /** The grouped records flattened kind by kind in the given order, each kind's records in arrival order. */
  function Batch(data: map<UpdateKind, seq<UpdateData>>, order: seq<UpdateKind>): seq<(UpdateKind, UpdateData)>
    decreases |order|
  {
    if |order| == 0 then []
    else Tagged(order[0], if order[0] in data then data[order[0]] else []) + Batch(data, order[1..])
  }

  function Tagged(k: UpdateKind, ds: seq<UpdateData>): (r: seq<(UpdateKind, UpdateData)>)
    ensures |r| == |ds| && forall i :: 0 <= i < |ds| ==> r[i] == (k, ds[i])
  {
    seq(|ds|, i requires 0 <= i < |ds| => (k, ds[i]))
  }

  /** `updateEvent`: the batch of a decoded response applied to the event, kinds visited in `order`. */
  function UpdateEvent(u: Update, order: seq<UpdateKind>, ev: Event, c: Codec): (r: (Progress, Option<UpdateError>))
    requires IsKindOrder(order)
  {
    Run(Batch(u.data, order), Progress(ev, []), c)
  }

  // ---- what a run does ----

  /**
   * A single record runs as `ApplyOne`, and running a concatenation runs the
   * first part, then (unless it failed) the second from where the first left
   * off: a run is the left fold of `ApplyOne` that stops at the first error.
   */
  lemma {:induction false} RunAppend(a: seq<(UpdateKind, UpdateData)>, b: seq<(UpdateKind, UpdateData)>, p: Progress, c: Codec)
    ensures |a| == 1 ==> Run(a, p, c) == ApplyOne(a[0].0, a[0].1, p, c)
    ensures var (q, err) := Run(a, p, c);
      Run(a + b, p, c) == if err.Some? then (q, err) else Run(b, q, c)
    decreases |a|
  {
    if |a| == 0 {
      assert a + b == b;
    } else {
      assert (a + b)[0] == a[0];
      assert (a + b)[1..] == a[1..] + b;
      var (q, err) := ApplyOne(a[0].0, a[0].1, p, c);
      if err.None? {
        RunAppend(a[1..], b, q, c);
      }
    }
  }

  /** Once a record fails, nothing after it is applied: the result is the same whatever follows. */
  lemma FailureIgnoresRest(a: seq<(UpdateKind, UpdateData)>, b: seq<(UpdateKind, UpdateData)>, p: Progress, c: Codec)
    requires Run(a, p, c).1.Some?
    ensures Run(a + b, p, c) == Run(a, p, c)
  {
    RunAppend(a, b, p, c);
  }

  /** A run edits only the event's markets, and the finished ids only grow. */
  lemma {:induction false} RunTouchesOnlyMarkets(items: seq<(UpdateKind, UpdateData)>, p: Progress, c: Codec)
    ensures var r := Run(items, p, c).0;
      && r.event.(markets := p.event.markets) == p.event
      && |p.finished| <= |r.finished| && r.finished[..|p.finished|] == p.finished
    decreases |items|
  {
    if |items| > 0 {
      var (q, err) := ApplyOne(items[0].0, items[0].1, p, c);
      if err.None? {
        RunTouchesOnlyMarkets(items[1..], q, c);
        var r := Run(items[1..], q, c).0;
        assert r.finished[..|q.finished|] == q.finished;
        assert r.finished[..|p.finished|] == r.finished[..|q.finished|][..|p.finished|];
      }
    }
  }

  /** A batch without event-kind records finishes nothing. */
  lemma {:induction false} RunWithoutEventKind(items: seq<(UpdateKind, UpdateData)>, p: Progress, c: Codec)
    requires forall i :: 0 <= i < |items| ==> items[i].0 != EventKind
    ensures Run(items, p, c).0.finished == p.finished
    decreases |items|
  {
    if |items| > 0 {
      var (q, err) := ApplyOne(items[0].0, items[0].1, p, c);
      if err.None? {
        assert forall i :: 0 <= i < |items[1..]| ==> items[1..][i] == items[i + 1];
        RunWithoutEventKind(items[1..], q, c);
      }
    }
  }

  /** The flattened batch holds only kinds present in the grouping, each with one of its records. */
  lemma {:induction false} BatchDrawsFromData(data: map<UpdateKind, seq<UpdateData>>, order: seq<UpdateKind>)
    ensures forall i :: 0 <= i < |Batch(data, order)| ==>
      Batch(data, order)[i].0 in data && Batch(data, order)[i].1 in data[Batch(data, order)[i].0]
    decreases |order|
  {
    if |order| > 0 {
      BatchDrawsFromData(data, order[1..]);
      var head := Tagged(order[0], if order[0] in data then data[order[0]] else []);
      var b := Batch(data, order);
      forall i | 0 <= i < |b|
        ensures b[i].0 in data && b[i].1 in data[b[i].0]
      {
        if i >= |head| {
          assert b[i] == Batch(data, order[1..])[i - |head|];
        }
      }
    }
  }

  /** Applying a decoded response never finishes an event: the decoder produces no event-kind records. */
  lemma DecodedUpdateFinishesNothing(body: string, order: seq<UpdateKind>, ev: Event, c: Codec)
    requires IsKindOrder(order)
    requires Decode(body).Ok? && Decode(body).value.Some?
    ensures UpdateEvent(Decode(body).value.value, order, ev, c).0.finished == []
  {
    var u := Decode(body).value.value;
    NoEventKindIsDecoded(body);
    BatchDrawsFromData(u.data, order);
    RunWithoutEventKind(Batch(u.data, order), Progress(ev, []), c);
  }

  /** A response whose every record is a market update always applies, edits only markets, and follows the market handler record by record. */
  lemma {:induction false} MarketOnlyRun(items: seq<(UpdateKind, UpdateData)>, p: Progress, c: Codec)
    requires forall i :: 0 <= i < |items| ==> items[i].0 == MarketKind && c.marketUpdate(items[i].1.rawData).Some?
    ensures Run(items, p, c) == (p.(event := MarketFold(items, p.event, c)), None)
    decreases |items|
  {
    if |items| > 0 {
      assert forall i :: 0 <= i < |items[1..]| ==> items[1..][i] == items[i + 1];
      var q := p.(event := HandleMarketUpdate(c.marketUpdate(items[0].1.rawData).value, items[0].1.id, p.event));
      MarketOnlyRun(items[1..], q, c);
    }
  }

  /** The market handler folded over records, the reference for a batch of market updates. */
  function MarketFold(items: seq<(UpdateKind, UpdateData)>, ev: Event, c: Codec): Event
    requires forall i :: 0 <= i < |items| ==> c.marketUpdate(items[i].1.rawData).Some?
    decreases |items|
  {
    if |items| == 0 then ev
    else
      assert c.marketUpdate(items[0].1.rawData).Some?;
      MarketFold(items[1..], HandleMarketUpdate(c.marketUpdate(items[0].1.rawData).value, items[0].1.id, ev), c)
  }
}
