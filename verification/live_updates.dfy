/**
 * Applying decoded push updates to a stored live event: market updates open,
 * suspend or remove markets; selection updates add or reprice an outcome of a
 * market named by its id; price updates reprice the first outcome with the id;
 * event updates ask for the event's removal once it has finished.
 */
module LiveUpdates {
  import opened Wrappers
  import opened Strings
  import opened Domain
  import opened UpdateTypes
  import opened Wire
  import opened MarketTypes
  import opened OddsForms
  import Feed

  // ---- locating markets and outcomes ----

  /** Index of the first element whose key is the given id. */
  function FirstWithId<T>(xs: seq<T>, id: string, key: T -> string): (r: Option<nat>)
    ensures r.Some? ==> r.value < |xs| && key(xs[r.value]) == id
    ensures r.Some? ==> forall k :: 0 <= k < r.value ==> key(xs[k]) != id
    ensures r.None? ==> forall k :: 0 <= k < |xs| ==> key(xs[k]) != id
  {
    if |xs| == 0 then None
    else if key(xs[0]) == id then Some(0)
    else match FirstWithId(xs[1..], id, key)
      case None => None
      case Some(k) => Some(k + 1)
  }

  /** Index of the first market with the given id. */
  function FirstMarket(ms: seq<Market>, id: string): Option<nat> {
    FirstWithId(ms, id, (m: Market) => m.externalId)
  }

  /** Index of the first outcome with the given id. */
  function FirstOutcome(os: seq<Outcome>, id: string): Option<nat> {
    FirstWithId(os, id, (o: Outcome) => o.externalId)
  }

  // ---- market updates ----

  /**
   * The template name used while scanning matching markets: Money Line when the
   * update has no group names at all, the English name when present, and nothing
   * (skip) when the names lack an English entry.
   */
  function ScanTemplate(u: Feed.MarketUpdate): Option<string> {
    match u.groupNames
    case None => Some(MoneyLineName)
    case Some(g) => if "en" in g then Some(g["en"]) else None
  }

  /** Matching markets are acted on only when the scan template is a known market type. */
  predicate Applies(u: Feed.MarketUpdate) {
    ScanTemplate(u).Some? && ScanTemplate(u).value in Table
  }

  /** Every outcome of `m` made available or not. */
  function WithAvailability(m: Market, available: bool): (r: Market)
    ensures r.kind == m.kind && r.externalId == m.externalId && r.name == m.name
    ensures |r.outcomes| == |m.outcomes|
    ensures forall k :: 0 <= k < |r.outcomes| ==> r.outcomes[k] == m.outcomes[k].(isAvailable := available)
  {
    m.(outcomes := seq(|m.outcomes|, k requires 0 <= k < |m.outcomes| => m.outcomes[k].(isAvailable := available)))
  }

  /**
   * The scan over the markets: each market with the update's id is removed (and
   * the scan stops) or has its availability set. Returns the markets, whether a
   * market was found, and whether the scan stopped on a removal.
   */
  function MarketScan(u: Feed.MarketUpdate, id: string, ms: seq<Market>): (r: (seq<Market>, bool, bool))
  {
    if |ms| == 0 then ([], false, false)
    else if ms[0].externalId != id || !Applies(u) then
      var (rest, found, stopped) := MarketScan(u, id, ms[1..]);
      ([ms[0]] + rest, found, stopped)
    else if IsMarketRemoved(u) then (ms[1..], false, true)
    else
      var (rest, _, stopped) := MarketScan(u, id, ms[1..]);
      ([WithAvailability(ms[0], !IsMarketSuspended(u))] + rest, true, stopped)
  }

  /**
   * The market a market update opens when no existing market took it: one is
   * opened exactly when the English group name is a known template; it is typed
   * by that template, and player markets are named after the player, the English
   * name up to the first " (", when that is not empty.
   */
  function NewMarket(u: Feed.MarketUpdate, id: string): (r: Option<Market>)
    ensures r.Some? <==> u.groupNames.Some? && Feed.Lookup(u.groupNames.value, "en") in Table
    ensures r.Some? ==> r.value.externalId == id && r.value.outcomes == []
    ensures r.Some? ==> r.value.kind == Table[Feed.Lookup(u.groupNames.value, "en")]
    ensures r.Some? ==>
      var player := Before(Feed.Lookup(u.names, "en"), " (");
      r.value.name == if IsPlayerType(r.value.kind) && player != "" then Some(player) else None
  {
    EmptyNameIsUnknown();
    var template := Feed.Lookup(u.groupNames.GetOr(map[]), "en");
    if template !in Table then None
    else
      var kind := Table[template];
      var name := if IsPlayerType(kind) then Before(Feed.Lookup(u.names, "en"), " (") else "";
      Some(Market(kind, id, if name != "" then Some(name) else None, []))
  }

  /** `handleMarketUpdate`. */
  function HandleMarketUpdate(u: Feed.MarketUpdate, id: string, ev: Event): (r: Event)
    ensures r.(markets := ev.markets) == ev
  {
    var (ms, found, stopped) := MarketScan(u, id, ev.markets);
    if stopped || found then ev.(markets := ms)
    else match NewMarket(u, id)
      case None => ev.(markets := ms)
      case Some(m) => ev.(markets := ms + [m])
  }

  lemma {:induction false} ScanUntouched(u: Feed.MarketUpdate, id: string, ms: seq<Market>)
    requires !Applies(u) || FirstMarket(ms, id).None?
    ensures MarketScan(u, id, ms) == (ms, false, false)
  {
    if |ms| > 0 {
      ScanUntouched(u, id, ms[1..]);
      assert [ms[0]] + ms[1..] == ms;
    }
  }

  /** Dropping position `i` of a sequence is keeping its head and dropping position `i - 1` of its tail. */
  lemma SpliceCons<T>(s: seq<T>, i: int)
    requires 1 <= i < |s|
    ensures [s[0]] + (s[1..][..i - 1] + s[1..][i..]) == s[..i] + s[i + 1..]
  {
    assert s[1..][..i - 1] == s[1..i];
    assert s[1..][i..] == s[i + 1..];
    assert [s[0]] + s[1..i] == s[..i];
  }

  lemma {:induction false} ScanRemoves(u: Feed.MarketUpdate, id: string, ms: seq<Market>)
    requires Applies(u) && IsMarketRemoved(u) && FirstMarket(ms, id).Some?
    ensures var i := FirstMarket(ms, id).value;
      MarketScan(u, id, ms) == (ms[..i] + ms[i + 1..], false, true)
  {
    if ms[0].externalId != id {
      ScanRemoves(u, id, ms[1..]);
      var i := FirstMarket(ms, id).value;
      assert FirstMarket(ms[1..], id) == Some(i - 1);
      assert MarketScan(u, id, ms).0 == [ms[0]] + MarketScan(u, id, ms[1..]).0;
      SpliceCons(ms, i);
    } else {
      assert ms[..0] + ms[1..] == ms[1..];
    }
  }

  lemma {:induction false} ScanSetsAvailability(u: Feed.MarketUpdate, id: string, ms: seq<Market>)
    requires Applies(u) && !IsMarketRemoved(u)
    ensures var (r, found, stopped) := MarketScan(u, id, ms);
      && !stopped
      && (found <==> FirstMarket(ms, id).Some?)
      && |r| == |ms|
      && forall k :: 0 <= k < |ms| ==>
        r[k] == (if ms[k].externalId == id then WithAvailability(ms[k], !IsMarketSuspended(u)) else ms[k])
  {
    if |ms| > 0 {
      ScanSetsAvailability(u, id, ms[1..]);
      var r := MarketScan(u, id, ms).0;
      var rest := MarketScan(u, id, ms[1..]).0;
      assert forall k :: 1 <= k < |ms| ==> r[k] == rest[k - 1] && ms[k] == ms[1..][k - 1];
    }
  }

  /** An update whose template is unknown (or has no English group name) leaves the markets alone. */
  lemma MarketUpdateIgnored(u: Feed.MarketUpdate, id: string, ev: Event)
    requires !Applies(u)
    ensures HandleMarketUpdate(u, id, ev) == ev
  {
    ScanUntouched(u, id, ev.markets);
    match u.groupNames
    case None =>
    case Some(g) =>
      if "en" !in g {
        assert Feed.Lookup(g, "en") == "";
        EmptyNameIsUnknown();
      }
  }

  lemma EmptyNameIsUnknown()
    ensures "" !in Table
  {
  }

  /** A removal deletes the first market with the id and nothing else. */
  lemma MarketUpdateRemoves(u: Feed.MarketUpdate, id: string, ev: Event)
    requires Applies(u) && IsMarketRemoved(u) && FirstMarket(ev.markets, id).Some?
    ensures var i := FirstMarket(ev.markets, id).value;
      HandleMarketUpdate(u, id, ev).markets == ev.markets[..i] + ev.markets[i + 1..]
  {
    ScanRemoves(u, id, ev.markets);
  }

  /** Otherwise every market with the id gets the update's availability on all its outcomes; other markets are untouched. */
  lemma MarketUpdateSetsAvailability(u: Feed.MarketUpdate, id: string, ev: Event)
    requires Applies(u) && !IsMarketRemoved(u) && FirstMarket(ev.markets, id).Some?
    ensures var r := HandleMarketUpdate(u, id, ev).markets;
      && |r| == |ev.markets|
      && forall k :: 0 <= k < |r| ==>
        r[k] == (if ev.markets[k].externalId == id then WithAvailability(ev.markets[k], !IsMarketSuspended(u)) else ev.markets[k])
  {
    ScanSetsAvailability(u, id, ev.markets);
  }

  /**
   * An update for an id no market has appends a new market exactly when its
   * English group name is a known template, and otherwise leaves the markets alone.
   */
  lemma MarketUpdateOpens(u: Feed.MarketUpdate, id: string, ev: Event)
    requires FirstMarket(ev.markets, id).None?
    ensures var r := HandleMarketUpdate(u, id, ev).markets;
      && (|r| == |ev.markets| || |r| == |ev.markets| + 1)
      && r[..|ev.markets|] == ev.markets
      && (|r| == |ev.markets| + 1 <==> u.groupNames.Some? && Feed.Lookup(u.groupNames.value, "en") in Table)
      && (|r| > |ev.markets| ==> Some(r[|ev.markets|]) == NewMarket(u, id))
  {
    ScanUntouched(u, id, ev.markets);
  }

  /** A market update never adds a second market with an id already present. */
  lemma MarketUpdateNeverDuplicates(u: Feed.MarketUpdate, id: string, ev: Event)
    requires FirstMarket(ev.markets, id).Some?
    ensures |HandleMarketUpdate(u, id, ev).markets| <= |ev.markets|
  {
    if !Applies(u) {
      MarketUpdateIgnored(u, id, ev);
    } else if IsMarketRemoved(u) {
      MarketUpdateRemoves(u, id, ev);
    } else {
      MarketUpdateSetsAvailability(u, id, ev);
    }
  }

  // ---- selection updates ----

  /** The outcome a selection update creates in a market that has none: a named competitor with empty odds. */
  function NewSelection(u: Feed.SelectionUpdate, id: string): (o: Outcome)
    ensures o.kind == CompetitorOutcome && o.externalId == id && o.odds == EmptyOdds && o.points.None?
    ensures o.name == Some(Feed.Lookup(u.names, "en")) && o.isAvailable == !IsSelectionSuspended(u)
  {
    Outcome(CompetitorOutcome, id, Some(Feed.Lookup(u.names, "en")), None, EmptyOdds, !IsSelectionSuspended(u))
  }

  /** Availability from the selection status, then the received fraction. */
  function ApplySelection(o: Outcome, u: Feed.SelectionUpdate, parseFloat: string -> Option<real>): (r: (Outcome, Option<OddsError>))
    ensures r.0.(odds := o.odds, isAvailable := o.isAvailable) == o
    ensures r.0.isAvailable == !IsSelectionSuspended(u)
    ensures r.0.odds == UpdateOdds(o.odds, u.lpNum, u.lpDen, parseFloat).0
    ensures r.0.odds.numerator == u.lpNum && r.0.odds.denominator == u.lpDen
    ensures r.1.Some? <==> FractionalOdds(u.lpNum, u.lpDen, parseFloat).Err?
  {
    var (odds, err) := UpdateOdds(o.odds, u.lpNum, u.lpDen, parseFloat);
    (o.(isAvailable := !IsSelectionSuspended(u), odds := odds), err)
  }

  /** The outcomes a selection update looks through in a market: the market's own, or the new competitor if it has none. */
  function SelectionCandidates(m: Market, u: Feed.SelectionUpdate, id: string): seq<Outcome> {
    if |m.outcomes| == 0 then [NewSelection(u, id)] else m.outcomes
  }

  /** A market the selection update lands in: it carries the update's market id and (after seeding) an outcome with the id. */
  predicate SelectionTarget(m: Market, u: Feed.SelectionUpdate, id: string) {
    m.externalId == IntToString(u.evMktId) && FirstOutcome(SelectionCandidates(m, u, id), id).Some?
  }

  function FirstSelectionTarget(ms: seq<Market>, u: Feed.SelectionUpdate, id: string): (r: Option<nat>)
    ensures r.Some? ==> r.value < |ms| && SelectionTarget(ms[r.value], u, id)
    ensures r.Some? ==> forall k :: 0 <= k < r.value ==> !SelectionTarget(ms[k], u, id)
    ensures r.None? ==> forall k :: 0 <= k < |ms| ==> !SelectionTarget(ms[k], u, id)
  {
    if |ms| == 0 then None
    else if SelectionTarget(ms[0], u, id) then Some(0)
    else match FirstSelectionTarget(ms[1..], u, id)
      case None => None
      case Some(k) => Some(k + 1)
  }

  /** The selection update applied to a target market: its first outcome with the id is updated. */
  function LandSelection(m: Market, u: Feed.SelectionUpdate, id: string, parseFloat: string -> Option<real>): (r: (Market, Option<OddsError>))
    requires SelectionTarget(m, u, id)
  {
    var os := SelectionCandidates(m, u, id);
    var j := FirstOutcome(os, id).value;
    var (o, err) := ApplySelection(os[j], u, parseFloat);
    (m.(outcomes := os[j := o]), err)
  }

  function SelectionScan(u: Feed.SelectionUpdate, id: string, ms: seq<Market>, parseFloat: string -> Option<real>): (r: (seq<Market>, Option<OddsError>))
  {
    if |ms| == 0 then ([], None)
    else if ms[0].externalId != IntToString(u.evMktId) then
      var (rest, err) := SelectionScan(u, id, ms[1..], parseFloat);
      ([ms[0]] + rest, err)
    else
      var os := SelectionCandidates(ms[0], u, id);
      match FirstOutcome(os, id)
      case None =>
        var (rest, err) := SelectionScan(u, id, ms[1..], parseFloat);
        ([ms[0].(outcomes := os)] + rest, err)
      case Some(j) =>
        var (o, err) := ApplySelection(os[j], u, parseFloat);
        ([ms[0].(outcomes := os[j := o])] + ms[1..], err)
  }

  /** `handleSelectionUpdate`; the error is the odds parser's. */
  function HandleSelectionUpdate(u: Feed.SelectionUpdate, id: string, ev: Event, parseFloat: string -> Option<real>): (r: (Event, Option<OddsError>))
    ensures r.0.(markets := ev.markets) == ev
  {
    var (ms, err) := SelectionScan(u, id, ev.markets, parseFloat);
    (ev.(markets := ms), err)
  }

  lemma {:induction false} SelectionScanEffect(u: Feed.SelectionUpdate, id: string, ms: seq<Market>, parseFloat: string -> Option<real>)
    ensures var (r, err) := SelectionScan(u, id, ms, parseFloat);
      match FirstSelectionTarget(ms, u, id)
      case None => r == ms && err.None?
      case Some(i) => r == ms[i := LandSelection(ms[i], u, id, parseFloat).0] && err == LandSelection(ms[i], u, id, parseFloat).1
  {
    if |ms| > 0 {
      SelectionScanEffect(u, id, ms[1..], parseFloat);
      if !SelectionTarget(ms[0], u, id) {
        if ms[0].externalId == IntToString(u.evMktId) {
          assert |ms[0].outcomes| > 0;
          assert ms[0].(outcomes := SelectionCandidates(ms[0], u, id)) == ms[0];
        }
        match FirstSelectionTarget(ms[1..], u, id)
        case None =>
        case Some(i) =>
          assert ms[i + 1 := LandSelection(ms[i + 1], u, id, parseFloat).0]
            == [ms[0]] + ms[1..][i := LandSelection(ms[1..][i], u, id, parseFloat).0];
      }
    }
  }

  /**
   * A selection update changes exactly one outcome: the first with the id in the
   * first market with the update's market id that has one (an empty market with
   * that id is first seeded with a named competitor). That outcome takes the
   * update's availability and fraction; nothing else changes. With no such
   * market the event is unchanged.
   */
  lemma SelectionUpdateEffect(u: Feed.SelectionUpdate, id: string, ev: Event, parseFloat: string -> Option<real>)
    ensures var (r, err) := HandleSelectionUpdate(u, id, ev, parseFloat);
      match FirstSelectionTarget(ev.markets, u, id)
      case None => r == ev && err.None?
      case Some(i) =>
        var m := ev.markets[i];
        var os := SelectionCandidates(m, u, id);
        var j := FirstOutcome(os, id).value;
        && |r.markets| == |ev.markets|
        && (forall k :: 0 <= k < |ev.markets| && k != i ==> r.markets[k] == ev.markets[k])
        && r.markets[i].(outcomes := m.outcomes) == m
        && |r.markets[i].outcomes| == |os|
        && (forall k :: 0 <= k < |os| && k != j ==> r.markets[i].outcomes[k] == os[k])
        && r.markets[i].outcomes[j] == ApplySelection(os[j], u, parseFloat).0
        && r.markets[i].outcomes[j].externalId == id
        && r.markets[i].outcomes[j].isAvailable == !IsSelectionSuspended(u)
        && r.markets[i].outcomes[j].odds.numerator == u.lpNum
        && r.markets[i].outcomes[j].odds.denominator == u.lpDen
        && (err.Some? <==> FractionalOdds(u.lpNum, u.lpDen, parseFloat).Err?)
  {
    SelectionScanEffect(u, id, ev.markets, parseFloat);
  }

  /** In an empty market with the update's id, the update creates exactly one outcome: the named competitor, repriced. */
  lemma SelectionSeedsEmptyMarket(u: Feed.SelectionUpdate, id: string, ev: Event, parseFloat: string -> Option<real>)
    requires FirstSelectionTarget(ev.markets, u, id).Some?
    requires |ev.markets[FirstSelectionTarget(ev.markets, u, id).value].outcomes| == 0
    ensures var i := FirstSelectionTarget(ev.markets, u, id).value;
      var r := HandleSelectionUpdate(u, id, ev, parseFloat).0;
      |r.markets| == |ev.markets| && r.markets[i].outcomes == [ApplySelection(NewSelection(u, id), u, parseFloat).0]
  {
    SelectionScanEffect(u, id, ev.markets, parseFloat);
  }

  // ---- price updates ----

  predicate HasOutcome(m: Market, id: string) {
    FirstOutcome(m.outcomes, id).Some?
  }

  function FirstPriceTarget(ms: seq<Market>, id: string): (r: Option<nat>)
    ensures r.Some? ==> r.value < |ms| && HasOutcome(ms[r.value], id)
    ensures r.Some? ==> forall k :: 0 <= k < r.value ==> !HasOutcome(ms[k], id)
    ensures r.None? ==> forall k :: 0 <= k < |ms| ==> !HasOutcome(ms[k], id)
  {
    if |ms| == 0 then None
    else if HasOutcome(ms[0], id) then Some(0)
    else match FirstPriceTarget(ms[1..], id)
      case None => None
      case Some(k) => Some(k + 1)
  }

  /** The fraction applied to the market's first outcome with the id. */
  function LandPrice(m: Market, u: Feed.PriceUpdate, id: string, parseFloat: string -> Option<real>): (r: (Market, Option<OddsError>))
    requires HasOutcome(m, id)
  {
    var j := FirstOutcome(m.outcomes, id).value;
    var (odds, err) := UpdateOdds(m.outcomes[j].odds, u.lpNum, u.lpDen, parseFloat);
    (m.(outcomes := m.outcomes[j := m.outcomes[j].(odds := odds)]), err)
  }

  function PriceScan(u: Feed.PriceUpdate, id: string, ms: seq<Market>, parseFloat: string -> Option<real>): (r: (seq<Market>, Option<OddsError>))
  {
    if |ms| == 0 then ([], None)
    else match FirstOutcome(ms[0].outcomes, id)
      case None =>
        var (rest, err) := PriceScan(u, id, ms[1..], parseFloat);
        ([ms[0]] + rest, err)
      case Some(j) =>
        var (odds, err) := UpdateOdds(ms[0].outcomes[j].odds, u.lpNum, u.lpDen, parseFloat);
        ([ms[0].(outcomes := ms[0].outcomes[j := ms[0].outcomes[j].(odds := odds)])] + ms[1..], err)
  }

  /** `handlePriceUpdate`. */
  function HandlePriceUpdate(u: Feed.PriceUpdate, id: string, ev: Event, parseFloat: string -> Option<real>): (r: (Event, Option<OddsError>))
    ensures r.0.(markets := ev.markets) == ev
  {
    var (ms, err) := PriceScan(u, id, ev.markets, parseFloat);
    (ev.(markets := ms), err)
  }

  lemma {:induction false} PriceScanEffect(u: Feed.PriceUpdate, id: string, ms: seq<Market>, parseFloat: string -> Option<real>)
    ensures var (r, err) := PriceScan(u, id, ms, parseFloat);
      match FirstPriceTarget(ms, id)
      case None => r == ms && err.None?
      case Some(i) => r == ms[i := LandPrice(ms[i], u, id, parseFloat).0] && err == LandPrice(ms[i], u, id, parseFloat).1
  {
    if |ms| > 0 {
      PriceScanEffect(u, id, ms[1..], parseFloat);
      if !HasOutcome(ms[0], id) {
        match FirstPriceTarget(ms[1..], id)
        case None =>
        case Some(i) =>
          assert ms[i + 1 := LandPrice(ms[i + 1], u, id, parseFloat).0]
            == [ms[0]] + ms[1..][i := LandPrice(ms[1..][i], u, id, parseFloat).0];
      }
    }
  }

  /** A price update reprices only the first outcome with the id across all markets, in order; with no such outcome nothing changes. */
  lemma PriceUpdateEffect(u: Feed.PriceUpdate, id: string, ev: Event, parseFloat: string -> Option<real>)
    ensures var (r, err) := HandlePriceUpdate(u, id, ev, parseFloat);
      match FirstPriceTarget(ev.markets, id)
      case None => r == ev && err.None?
      case Some(i) =>
        var m := ev.markets[i];
        var j := FirstOutcome(m.outcomes, id).value;
        && |r.markets| == |ev.markets|
        && (forall k :: 0 <= k < |ev.markets| && k != i ==> r.markets[k] == ev.markets[k])
        && r.markets[i].(outcomes := m.outcomes) == m
        && |r.markets[i].outcomes| == |m.outcomes|
        && (forall k :: 0 <= k < |m.outcomes| && k != j ==> r.markets[i].outcomes[k] == m.outcomes[k])
        && r.markets[i].outcomes[j].(odds := m.outcomes[j].odds) == m.outcomes[j]
        && r.markets[i].outcomes[j].odds == UpdateOdds(m.outcomes[j].odds, u.lpNum, u.lpDen, parseFloat).0
        && r.markets[i].outcomes[j].odds.numerator == u.lpNum
        && r.markets[i].outcomes[j].odds.denominator == u.lpDen
        && (err.Some? <==> FractionalOdds(u.lpNum, u.lpDen, parseFloat).Err?)
  {
    PriceScanEffect(u, id, ev.markets, parseFloat);
  }

  /** Repricing a market's first outcome with the id keeps it the first with the id, and repricing again changes nothing. */
  lemma LandPriceIdempotent(m: Market, u: Feed.PriceUpdate, id: string, parseFloat: string -> Option<real>)
    requires HasOutcome(m, id)
    ensures var once := LandPrice(m, u, id, parseFloat);
      HasOutcome(once.0, id) && LandPrice(once.0, u, id, parseFloat) == once
  {
    var j := FirstOutcome(m.outcomes, id).value;
    var once := UpdateOdds(m.outcomes[j].odds, u.lpNum, u.lpDen, parseFloat);
    var o1 := m.outcomes[j].(odds := once.0);
    var m1 := m.(outcomes := m.outcomes[j := o1]);
    assert LandPrice(m, u, id, parseFloat) == (m1, once.1);
    assert forall k :: 0 <= k < j ==> m1.outcomes[k] == m.outcomes[k];
    FirstOutcomeIsFirst(m1.outcomes, id, j);
    UpdateOddsIdempotent(m.outcomes[j].odds, u.lpNum, u.lpDen, parseFloat);
    assert UpdateOdds(m1.outcomes[j].odds, u.lpNum, u.lpDen, parseFloat) == once;
    assert m1.outcomes[j := m1.outcomes[j].(odds := once.0)] == m1.outcomes;
  }

  /** Receiving the same price update twice leaves the event as receiving it once. */
  lemma PriceUpdateIdempotent(u: Feed.PriceUpdate, id: string, ev: Event, parseFloat: string -> Option<real>)
    ensures var once := HandlePriceUpdate(u, id, ev, parseFloat);
      HandlePriceUpdate(u, id, once.0, parseFloat) == once
  {
    var once := HandlePriceUpdate(u, id, ev, parseFloat);
    PriceScanEffect(u, id, ev.markets, parseFloat);
    PriceScanEffect(u, id, once.0.markets, parseFloat);
    match FirstPriceTarget(ev.markets, id)
    case None =>
    case Some(i) =>
      LandPriceIdempotent(ev.markets[i], u, id, parseFloat);
      FirstPriceTargetIsFirst(once.0.markets, id, i);
      assert once.0.markets[i := LandPrice(once.0.markets[i], u, id, parseFloat).0] == once.0.markets;
  }

  lemma FirstOutcomeIsFirst(os: seq<Outcome>, id: string, j: nat)
    requires j < |os| && os[j].externalId == id
    requires forall k :: 0 <= k < j ==> os[k].externalId != id
    ensures FirstOutcome(os, id) == Some(j)
  {
    var r := FirstOutcome(os, id);
    assert r.Some?;
  }

  lemma FirstPriceTargetIsFirst(ms: seq<Market>, id: string, i: nat)
    requires i < |ms| && HasOutcome(ms[i], id)
    requires forall k :: 0 <= k < i ==> !HasOutcome(ms[k], id)
    ensures FirstPriceTarget(ms, id) == Some(i)
  {
    var r := FirstPriceTarget(ms, id);
    assert r.Some?;
  }
}
