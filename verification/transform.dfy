/**
 * The catalog normaliser's entry points: active class ids from the class
 * listing, and canonical events from the event listing.
 */
module Transform {
  import opened Wrappers
  import opened Strings
  import opened Domain
  import opened Catalog
  import opened Participants
  import opened Markets
  import opened EventFields
  import OutcomeTypes
  import Feed

  /** `isClassValid`: a class counts only when its active flag reads as true. */
  predicate IsClassValid(c: Feed.Class) {
    c.isActive != "" && ParseBool(c.isActive) == Some(true)
  }

  /** `transformClasses`: the ids of the valid classes, in listing order. */
  function TransformClasses(cs: seq<Feed.Class>): (r: seq<string>)
    ensures |r| <= |cs|
    ensures forall id :: id in r <==> exists i :: 0 <= i < |cs| && IsClassValid(cs[i]) && cs[i].id == id
    decreases |cs|
  {
    if |cs| == 0 then []
    else
      var rest := TransformClasses(cs[1..]);
      assert forall i :: 1 <= i < |cs| ==> cs[i] == cs[1..][i - 1];
      (if IsClassValid(cs[0]) then [cs[0].id] else []) + rest
  }

  /** `isEventValid`: an event needs an id and a name. */
  predicate IsEventValid(e: Feed.Event) {
    e.id != "" && e.name != ""
  }

  /** The single-entry sport table: basketball, or the zero value for any other category code. */
  function SportOf(categoryCode: string): SportType {
    if categoryCode == "BASKETBALL" then Basketball else SportUnspecified
  }

  /**
   * `transformEvent`: start time, live flag, participants and markets in that
   * order, each failure ending the conversion; then the name, which crashes for
   * a match with a single participant.
   */
  function TransformEvent(e: Feed.Event, codes: Codes, parsers: Parsers): (r: Result<(Event, set<string>), TransformError>)
  {
    var start :- StartTime(e.startTime, parsers.parseTime);
    var live :- IsLive(e.isStarted);
    var pts :- GetParticipants(e, codes);
    var (mks, unhandled) :- GetMarkets(e.markets, OutcomeTypes.MapParticipants(pts), codes, parsers.parseFloat);
    if IsMatch(pts) && |pts| < 2 then Err(Panic)
    else Ok((Event(e.id, SportOf(e.categoryCode), GetName(e.name, pts), e.typeName, start, live, pts, mks, Link(e)), unhandled))
  }

  /** `transformEvents`: invalid events are skipped, the first failing event aborts everything, the rest keep listing order. */
  function TransformEvents(es: seq<Feed.Event>, codes: Codes, parsers: Parsers): (r: Result<seq<Event>, TransformError>)
    decreases |es|
  {
    if |es| == 0 then Ok([])
    else if !IsEventValid(es[0]) then TransformEvents(es[1..], codes, parsers)
    else
      var head :- TransformEvent(es[0], codes, parsers);
      var tail :- TransformEvents(es[1..], codes, parsers);
      Ok([head.0] + tail)
  }

  // ---- what the normaliser promises ----

  /** Class filtering distributes over concatenation, so the kept ids stay in listing order. */
  lemma {:induction false} TransformClassesAppend(a: seq<Feed.Class>, b: seq<Feed.Class>)
    ensures TransformClasses(a + b) == TransformClasses(a) + TransformClasses(b)
    decreases |a|
  {
    if |a| == 0 {
      assert a + b == b;
    } else {
      assert (a + b)[0] == a[0];
      assert (a + b)[1..] == a[1..] + b;
      TransformClassesAppend(a[1..], b);
      var h := if IsClassValid(a[0]) then [a[0].id] else [];
      assert TransformClasses(a + b) == h + TransformClasses(a[1..] + b);
      assert TransformClasses(a) == h + TransformClasses(a[1..]);
      assert h + (TransformClasses(a[1..]) + TransformClasses(b)) == (h + TransformClasses(a[1..])) + TransformClasses(b);
    }
  }

  /** A class is valid exactly when its flag parses as true; empty and unparsable flags reject it. */
  lemma ClassValidity(c: Feed.Class)
    ensures IsClassValid(c) <==> c.isActive in {"1", "t", "T", "TRUE", "true", "True"}
    ensures c.isActive == "" ==> !IsClassValid(c)
  {
  }

  /** Event conversion distributes over concatenation: results in listing order, the first error wins. */
  lemma {:induction false} TransformEventsAppend(a: seq<Feed.Event>, b: seq<Feed.Event>, codes: Codes, parsers: Parsers)
    ensures |a| == 1 ==> (TransformEvents(a, codes, parsers) ==
      if !IsEventValid(a[0]) then Ok([])
      else match TransformEvent(a[0], codes, parsers)
        case Err(e) => Err(e)
        case Ok(h) => Ok([h.0]))
    ensures TransformEvents(a + b, codes, parsers) ==
      match TransformEvents(a, codes, parsers)
      case Err(e) => Err(e)
      case Ok(ra) =>
        match TransformEvents(b, codes, parsers)
        case Err(e) => Err(e)
        case Ok(rb) => Ok(ra + rb)
    decreases |a|
  {
    var rb := TransformEvents(b, codes, parsers);
    if |a| == 0 {
      assert a + b == b;
      if rb.Ok? {
        assert [] + rb.value == rb.value;
      }
    } else {
      assert (a + b)[0] == a[0];
      assert (a + b)[1..] == a[1..] + b;
      TransformEventsAppend(a[1..], b, codes, parsers);
      var rest := TransformEvents(a[1..], codes, parsers);
      if |a| == 1 {
        assert a[1..] == [];
        if IsEventValid(a[0]) && TransformEvent(a[0], codes, parsers).Ok? {
          var h := TransformEvent(a[0], codes, parsers).value.0;
          assert [h] + [] == [h];
        }
      }
      if IsEventValid(a[0]) {
        var head := TransformEvent(a[0], codes, parsers);
        if head.Ok? && rest.Ok? && rb.Ok? {
          assert [head.value.0] + (rest.value + rb.value) == ([head.value.0] + rest.value) + rb.value;
        }
      }
    }
  }

  /** An event without id or name is skipped without effect on the others. */
  lemma InvalidEventIsSkipped(e: Feed.Event, rest: seq<Feed.Event>, codes: Codes, parsers: Parsers)
    requires !IsEventValid(e)
    ensures TransformEvents([e] + rest, codes, parsers) == TransformEvents(rest, codes, parsers)
  {
    assert ([e] + rest)[0] == e;
    assert ([e] + rest)[1..] == rest;
  }

  /** One failing valid event makes the whole listing fail, wherever it sits. */
  lemma {:induction false} FailingEventAborts(es: seq<Feed.Event>, k: int, codes: Codes, parsers: Parsers)
    requires 0 <= k < |es| && IsEventValid(es[k]) && TransformEvent(es[k], codes, parsers).Err?
    ensures TransformEvents(es, codes, parsers).Err?
    decreases |es|
  {
    if k > 0 {
      assert es[1..][k - 1] == es[k];
      FailingEventAborts(es[1..], k - 1, codes, parsers);
    }
  }

  /**
   * A converted event carries the feed id, the league from the type name, the
   * live flag, the parsed start time, the participants from its money-line or
   * outright markets, "home vs away" as the name of a match, and its link; its
   * markets are the feed's markets converted against those participants' outcome
   * types, and the unknown templates met on the way are returned beside it.
   */
  lemma TransformEventFields(e: Feed.Event, codes: Codes, parsers: Parsers)
    requires TransformEvent(e, codes, parsers).Ok?
    ensures var ev := TransformEvent(e, codes, parsers).value.0;
      && ev.externalId == e.id
      && ev.league == e.typeName
      && ev.sport == SportOf(e.categoryCode)
      && Ok(ev.isLive) == IsLive(e.isStarted)
      && Ok(ev.startTime) == StartTime(e.startTime, parsers.parseTime)
      && ev.participants == Collect(e.markets, codes)
      && ev.link == Link(e)
      && (IsMatch(ev.participants) ==> ev.name == ev.participants[0].name + " vs " + ev.participants[1].name)
      && (!IsMatch(ev.participants) ==> ev.name == e.name)
    ensures var (ev, unhandled) := TransformEvent(e, codes, parsers).value;
      var converted := GetMarkets(e.markets, OutcomeTypes.MapParticipants(ev.participants), codes, parsers.parseFloat);
      converted.Ok? && ev.markets == converted.value.0 && unhandled == converted.value.1
  {
  }

  /**
   * The steps run in the code's order and the first failure is the event's
   * error: start time, live flag, participants, markets, then the name, which
   * crashes for a match with a single participant. An event converts exactly
   * when every step succeeds.
   */
  lemma TransformEventSteps(e: Feed.Event, codes: Codes, parsers: Parsers)
    ensures var r := TransformEvent(e, codes, parsers);
      var start := StartTime(e.startTime, parsers.parseTime);
      var live := IsLive(e.isStarted);
      var pts := GetParticipants(e, codes);
      && (start.Err? ==> r == Err(start.error))
      && (start.Ok? && live.Err? ==> r == Err(live.error))
      && (start.Ok? && live.Ok? && pts.Err? ==> r == Err(pts.error))
      && (start.Ok? && live.Ok? && pts.Ok? ==>
        var converted := GetMarkets(e.markets, OutcomeTypes.MapParticipants(pts.value), codes, parsers.parseFloat);
        && (converted.Err? ==> r == Err(converted.error))
        && (converted.Ok? ==> (r.Ok? <==> !(IsMatch(pts.value) && |pts.value| < 2)))
        && (converted.Ok? && r.Err? ==> r.error == Panic))
    ensures TransformEvent(e, codes, parsers).Ok? <==>
      && StartTime(e.startTime, parsers.parseTime).Ok?
      && IsLive(e.isStarted).Ok?
      && GetParticipants(e, codes).Ok?
      && GetMarkets(e.markets, OutcomeTypes.MapParticipants(GetParticipants(e, codes).value), codes, parsers.parseFloat).Ok?
      && !(IsMatch(GetParticipants(e, codes).value) && |GetParticipants(e, codes).value| < 2)
  {
  }

  /** A blank start time fails the event before anything else is read. */
  lemma BlankStartTimeFails(e: Feed.Event, codes: Codes, parsers: Parsers)
    requires IsBlank(e.startTime)
    ensures TransformEvent(e, codes, parsers) == Err(ParseTime)
  {
  }

  /** A match whose money line lists a single outcome crashes the conversion once its markets convert. */
  lemma SingleSidedMatchPanics(e: Feed.Event, codes: Codes, parsers: Parsers)
    requires StartTime(e.startTime, parsers.parseTime).Ok? && IsLive(e.isStarted).Ok?
    requires |Collect(e.markets, codes)| == 1 && Collect(e.markets, codes)[0].kind != Competitor
    requires GetMarkets(e.markets, OutcomeTypes.MapParticipants(Collect(e.markets, codes)), codes, parsers.parseFloat).Ok?
    ensures TransformEvent(e, codes, parsers) == Err(Panic)
  {
  }
}
