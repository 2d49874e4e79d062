/**
 * Catalog outcomes: the outcomes of one feed market turned into canonical
 * outcomes, with points, availability, fixed-odds flag and type.
 */
module Outcomes {
  import opened Wrappers
  import opened Strings
  import opened Domain
  import opened Catalog
  import MarketTypes
  import OutcomeTypes
  import Feed

  /** `normalizePoints`: spread points may carry one trailing comma, which is dropped. */
  function NormalizePoints(points: string): (r: string)
    requires |points| > 0
    ensures points[|points| - 1] == ',' ==> r + "," == points
    ensures points[|points| - 1] != ',' ==> r == points
  {
    if points[|points| - 1] == ',' then points[..|points| - 1] else points
  }

  /** `getPointsFromMarket`: no points when the handicap is empty, otherwise the parsed handicap. */
  function PointsFromMarket(m: Feed.Market, parseFloat: string -> Option<real>): (r: Result<Option<real>, TransformError>)
    ensures m.rawHandicapValue == "" ==> r == Ok(None)
    ensures m.rawHandicapValue != "" ==>
      (r.Ok? <==> parseFloat(m.rawHandicapValue).Some?)
      && (r.Ok? ==> r.value == parseFloat(m.rawHandicapValue))
      && (r.Err? ==> r.error == ParsePoints)
  {
    if m.rawHandicapValue == "" then Ok(None)
    else match parseFloat(m.rawHandicapValue)
      case None => Err(ParsePoints)
      case Some(p) => Ok(Some(p))
  }

  /** The handicap text of a price: the decimal one when present, else the raw one, else none. */
  function HandicapText(p: Feed.Price): (r: Option<string>)
    ensures r.Some? ==> r.value != ""
    ensures r.None? <==> p.handicapValueDec == "" && p.rawHandicapValue == ""
    ensures p.handicapValueDec != "" ==> r == Some(p.handicapValueDec)
    ensures p.handicapValueDec == "" && p.rawHandicapValue != "" ==> r == Some(p.rawHandicapValue)
  {
    if p.handicapValueDec != "" then Some(p.handicapValueDec)
    else if p.rawHandicapValue != "" then Some(p.rawHandicapValue)
    else None
  }

  /** `getPointsFromPrice`: the preferred handicap text, trailing comma dropped, parsed. */
  function PointsFromPrice(p: Feed.Price, parseFloat: string -> Option<real>): (r: Result<Option<real>, TransformError>)
    ensures HandicapText(p).None? ==> r == Ok(None)
    ensures HandicapText(p).Some? ==>
      var text := NormalizePoints(HandicapText(p).value);
      (r.Ok? <==> parseFloat(text).Some?) && (r.Ok? ==> r.value == parseFloat(text))
      && (r.Err? ==> r.error == ParsePoints)
  {
    match HandicapText(p)
    case None => Ok(None)
    case Some(v) =>
      match parseFloat(NormalizePoints(v))
      case None => Err(ParsePoints)
      case Some(x) => Ok(Some(x))
  }

  /**
   * `getOutcomeAvailability`: an explicit availability flag decides; without
   * one, an outcome is available when it is displayed and not suspended; with
   * neither flag readable there is no answer.
   */
  function Availability(o: Feed.Outcome, codes: Codes): (r: Option<bool>)
  {
    match ParseBool(o.isAvailable)
    case Some(a) => Some(a)
    case None =>
      match ParseBool(o.isDisplayed)
      case None => None
      case Some(d) => Some(d && o.statusCode != codes.suspended)
  }

  /** `getOutcomeType`: the fixed outcome names first, then the event's participants; otherwise untyped. */
  function TypeOf(name: string, participants: map<string, OutcomeType>): (r: Option<OutcomeType>)
    ensures r.Some? <==> name in OutcomeTypes.Table || name in participants
    ensures name in OutcomeTypes.Table ==> r == Some(OutcomeTypes.Table[name])
    ensures name !in OutcomeTypes.Table && name in participants ==> r == Some(participants[name])
  {
    if name in OutcomeTypes.Table then Some(OutcomeTypes.Table[name])
    else if name in participants then Some(participants[name])
    else None
  }

  /** The two spread templates take their points per outcome from its price. */
  predicate IsSpread(m: Feed.Market) {
    m.templateName == MarketTypes.Spread1stHalfName || m.templateName == MarketTypes.Spread1stQuarterName
  }

  /** What converting one outcome needs from its market and event. */
  datatype Context = Context(
    spread: bool,
    marketPoints: Option<real>,
    participants: map<string, OutcomeType>,
    codes: Codes,
    parseFloat: string -> Option<real>)

  /** The checks an outcome with a price must pass: a readable decimal price, for a spread a readable handicap, and a readable fixed-odds flag. */
  predicate Readable(o: Feed.Outcome, ctx: Context)
    requires |o.prices| > 0
  {
    && ctx.parseFloat(o.prices[0].dec).Some?
    && (ctx.spread ==> PointsFromPrice(o.prices[0], ctx.parseFloat).Ok?)
    && ParseBool(o.fixedOddsAvail).Some?
  }

  /**
   * One outcome, in the order the code checks it: a missing price crashes, an
   * unparsable decimal price or spread handicap or fixed-odds flag is an error,
   * an unreadable availability is logged and taken as unavailable, and an
   * outcome with no type is skipped (`Ok(None)`).
   */
  function Convert(o: Feed.Outcome, ctx: Context): (r: Result<Option<Outcome>, TransformError>)
    ensures |o.prices| == 0 ==> r == Err(Panic)
    ensures r.Ok? <==> |o.prices| > 0 && Readable(o, ctx)
    ensures |o.prices| > 0 && ctx.parseFloat(o.prices[0].dec).None? ==> r == Err(ParsePrice)
    ensures |o.prices| > 0 && ctx.parseFloat(o.prices[0].dec).Some? && ctx.spread && PointsFromPrice(o.prices[0], ctx.parseFloat).Err? ==>
      r == Err(PointsFromPrice(o.prices[0], ctx.parseFloat).error)
    ensures |o.prices| > 0 && ctx.parseFloat(o.prices[0].dec).Some? && ParseBool(o.fixedOddsAvail).None? ==>
      r == Err(if ctx.spread && PointsFromPrice(o.prices[0], ctx.parseFloat).Err? then PointsFromPrice(o.prices[0], ctx.parseFloat).error
               else ParseFixedOddsAvailability)
    ensures r == Ok(None) <==> r.Ok? && TypeOf(o.name, ctx.participants).None?
    ensures r.Ok? && r.value.Some? ==>
      var x := r.value.value;
      && x.externalId == o.id
      && Some(x.kind) == TypeOf(o.name, ctx.participants)
      && (x.name.Some? <==> x.kind == CompetitorOutcome)
      && (x.name.Some? ==> x.name.value == o.name)
      && x.odds == Odds(o.prices[0].num, o.prices[0].den, ctx.parseFloat(o.prices[0].dec).value, o.prices[0].american, ParseBool(o.fixedOddsAvail).value)
      && x.isAvailable == Availability(o, ctx.codes).GetOr(false)
      && (!ctx.spread ==> x.points == ctx.marketPoints)
      && (ctx.spread ==> Ok(x.points) == PointsFromPrice(o.prices[0], ctx.parseFloat))
  {
    if |o.prices| == 0 then Err(Panic)
    else
      var price := o.prices[0];
      match ctx.parseFloat(price.dec)
      case None => Err(ParsePrice)
      case Some(dec) =>
        var pts :- if ctx.spread then PointsFromPrice(price, ctx.parseFloat) else Ok(ctx.marketPoints);
        var available := Availability(o, ctx.codes).GetOr(false);
        match ParseBool(o.fixedOddsAvail)
        case None => Err(ParseFixedOddsAvailability)
        case Some(fixed) =>
          match TypeOf(o.name, ctx.participants)
          case None => Ok(None)
          case Some(kind) =>
            var odds := Odds(price.num, price.den, dec, price.american, fixed);
            Ok(Some(Outcome(kind, o.id, if kind == CompetitorOutcome then Some(o.name) else None, pts, odds, available)))
  }

  /** The outcomes converted in order; the first error aborts, skipped outcomes are left out. */
  function ConvertAll(os: seq<Feed.Outcome>, ctx: Context): (r: Result<seq<Outcome>, TransformError>)
    decreases |os|
  {
    if |os| == 0 then Ok([])
    else
      var head :- Convert(os[0], ctx);
      var tail :- ConvertAll(os[1..], ctx);
      Ok((if head.Some? then [head.value] else []) + tail)
  }

  /**
   * `getOutcomes`: market-level points are read first (not for spreads), and an
   * unreadable handicap fails the market; then each outcome, every kept one of
   * a non-spread market sharing the market's points.
   */
  function GetOutcomes(m: Feed.Market, participants: map<string, OutcomeType>, codes: Codes, parseFloat: string -> Option<real>): (r: Result<seq<Outcome>, TransformError>)
    ensures !IsSpread(m) && PointsFromMarket(m, parseFloat).Err? ==> r == Err(PointsFromMarket(m, parseFloat).error)
    ensures !IsSpread(m) && r.Ok? ==>
      && PointsFromMarket(m, parseFloat).Ok?
      && r == ConvertAll(m.outcomes, Context(false, PointsFromMarket(m, parseFloat).value, participants, codes, parseFloat))
      && forall x :: x in r.value ==> x.points == PointsFromMarket(m, parseFloat).value
    ensures IsSpread(m) ==> r == ConvertAll(m.outcomes, Context(true, None, participants, codes, parseFloat))
  {
    var spread := IsSpread(m);
    var points :- if spread then Ok(None) else PointsFromMarket(m, parseFloat);
    var ctx := Context(spread, points, participants, codes, parseFloat);
    SharedPoints(m.outcomes, ctx);
    ConvertAll(m.outcomes, ctx)
  }

  // ---- what the conversion means ----

  /** Converting a concatenation converts each part: results are in input order, and the first part's error wins. */
  lemma {:induction false} ConvertAllAppend(a: seq<Feed.Outcome>, b: seq<Feed.Outcome>, ctx: Context)
    ensures |a| == 1 ==> (ConvertAll(a, ctx) ==
      match Convert(a[0], ctx)
      case Err(e) => Err(e)
      case Ok(h) => Ok(if h.Some? then [h.value] else []))
    ensures ConvertAll(a + b, ctx) ==
      match ConvertAll(a, ctx)
      case Err(e) => Err(e)
      case Ok(ra) =>
        match ConvertAll(b, ctx)
        case Err(e) => Err(e)
        case Ok(rb) => Ok(ra + rb)
    decreases |a|
  {
    if |a| == 0 {
      assert a + b == b;
      if ConvertAll(b, ctx).Ok? {
        assert [] + ConvertAll(b, ctx).value == ConvertAll(b, ctx).value;
      }
    } else {
      assert (a + b)[0] == a[0];
      assert (a + b)[1..] == a[1..] + b;
      ConvertAllAppend(a[1..], b, ctx);
      var head := Convert(a[0], ctx);
      if |a| == 1 && head.Ok? {
        assert a[1..] == [];
        var h := if head.value.Some? then [head.value.value] else [];
        assert h + [] == h;
      }
      if head.Ok? && ConvertAll(a[1..], ctx).Ok? && ConvertAll(b, ctx).Ok? {
        var h := if head.value.Some? then [head.value.value] else [];
        var ra := ConvertAll(a[1..], ctx).value;
        var rb := ConvertAll(b, ctx).value;
        assert h + (ra + rb) == (h + ra) + rb;
      }
    }
  }

  /**
   * The outcomes of a market convert without error exactly when each one does;
   * then the kept outcomes are exactly the conversions of the typed ones, and
   * each is named iff it is a competitor.
   */
  lemma {:induction false} ConvertAllSucceeds(os: seq<Feed.Outcome>, ctx: Context)
    ensures ConvertAll(os, ctx).Ok? <==> forall i :: 0 <= i < |os| ==> Convert(os[i], ctx).Ok?
    ensures ConvertAll(os, ctx).Ok? ==>
      && |ConvertAll(os, ctx).value| <= |os|
      && (forall x :: x in ConvertAll(os, ctx).value <==> exists i :: 0 <= i < |os| && Convert(os[i], ctx) == Ok(Some(x)))
      && forall x :: x in ConvertAll(os, ctx).value ==> (x.name.Some? <==> x.kind == CompetitorOutcome)
    decreases |os|
  {
    if |os| > 0 {
      ConvertAllSucceeds(os[1..], ctx);
      assert forall i :: 1 <= i < |os| ==> os[i] == os[1..][i - 1];
      var r := ConvertAll(os, ctx);
      if r.Ok? {
        var head := Convert(os[0], ctx).value;
        var tail := ConvertAll(os[1..], ctx).value;
        assert r.value == (if head.Some? then [head.value] else []) + tail;
        forall x | x in r.value
          ensures exists i :: 0 <= i < |os| && Convert(os[i], ctx) == Ok(Some(x))
        {
          if x !in tail {
            assert Convert(os[0], ctx) == Ok(Some(x));
          } else {
            var i :| 0 <= i < |os[1..]| && Convert(os[1..][i], ctx) == Ok(Some(x));
            assert Convert(os[i + 1], ctx) == Ok(Some(x));
          }
        }
        forall x, i | 0 <= i < |os| && Convert(os[i], ctx) == Ok(Some(x))
          ensures x in r.value
        {
          if i > 0 {
            assert Convert(os[1..][i - 1], ctx) == Ok(Some(x));
          }
        }
      }
    }
  }

  /**
   * A readable outcome whose name is not typed is skipped, not an error: the
   * others still convert around it. Its availability flags play no part: an
   * unreadable availability is only logged.
   */
  lemma SkipsUntyped(o: Feed.Outcome, rest: seq<Feed.Outcome>, ctx: Context)
    requires |o.prices| > 0 && Readable(o, ctx) && TypeOf(o.name, ctx.participants).None?
    ensures ConvertAll([o] + rest, ctx) == ConvertAll(rest, ctx)
  {
    assert ([o] + rest)[0] == o;
    assert ([o] + rest)[1..] == rest;
    if ConvertAll(rest, ctx).Ok? {
      assert [] + ConvertAll(rest, ctx).value == ConvertAll(rest, ctx).value;
    }
  }

  /** Outside spreads every kept outcome carries the market's points; a spread outcome carries its own price's. */
  lemma {:induction false} SharedPoints(os: seq<Feed.Outcome>, ctx: Context)
    ensures !ctx.spread && ConvertAll(os, ctx).Ok? ==> forall x :: x in ConvertAll(os, ctx).value ==> x.points == ctx.marketPoints
    ensures ctx.spread && ConvertAll(os, ctx).Ok? ==> forall x :: x in ConvertAll(os, ctx).value ==>
      exists i :: 0 <= i < |os| && |os[i].prices| > 0 && x.externalId == os[i].id && Ok(x.points) == PointsFromPrice(os[i].prices[0], ctx.parseFloat)
    decreases |os|
  {
    if |os| > 0 {
      SharedPoints(os[1..], ctx);
    }
    if ctx.spread && ConvertAll(os, ctx).Ok? {
      ConvertAllSucceeds(os, ctx);
      forall x | x in ConvertAll(os, ctx).value
        ensures exists i :: 0 <= i < |os| && |os[i].prices| > 0 && x.externalId == os[i].id && Ok(x.points) == PointsFromPrice(os[i].prices[0], ctx.parseFloat)
      {
        var i :| 0 <= i < |os| && Convert(os[i], ctx) == Ok(Some(x));
      }
    }
  }

  /** The fixed outcome names win over a participant of the same name. */
  lemma TablePrecedesParticipants(participants: map<string, OutcomeType>)
    ensures TypeOf("Draw", participants) == Some(DrawOutcome)
    ensures forall n :: n in OutcomeTypes.Table ==> TypeOf(n, participants) == Some(OutcomeTypes.Table[n])
  {
    OutcomeTypes.TableShape();
  }

  /**
   * An explicit availability flag overrides display and status; without one, a
   * suspended or hidden outcome is unavailable and a displayed, unsuspended one
   * is available; an unreadable pair of flags leaves the outcome unavailable.
   */
  lemma AvailabilityPrecedence(o: Feed.Outcome, codes: Codes)
    ensures ParseBool(o.isAvailable).Some? ==> Availability(o, codes) == ParseBool(o.isAvailable)
    ensures ParseBool(o.isAvailable).None? ==>
      (Availability(o, codes) == Some(true) <==> ParseBool(o.isDisplayed) == Some(true) && o.statusCode != codes.suspended)
    ensures Availability(o, codes).None? <==> ParseBool(o.isAvailable).None? && ParseBool(o.isDisplayed).None?
    ensures ParseBool(o.isAvailable).None? && o.statusCode == codes.suspended ==> Availability(o, codes).GetOr(false) == false
  {
  }

  /** A trailing comma is dropped once: adding one and normalising restores the text, and a text without one is left alone. */
  lemma NormalizePointsInverts(s: string)
    ensures NormalizePoints(s + ",") == s
    ensures |s| > 0 && s[|s| - 1] != ',' ==> NormalizePoints(s) == s
  {
    assert (s + ",")[..|s|] == s;
  }
}
