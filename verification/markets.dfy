/** Catalog markets: the feed markets of known templates, each with its converted outcomes. */
module Markets {
  import opened Wrappers
  import opened Strings
  import opened Domain
  import opened Catalog
  import opened Outcomes
  import MarketTypes
  import Feed

  /** `isPlayerMarket`: one of the four player-proposition templates. */
  predicate IsPlayerMarket(m: Feed.Market) {
    MarketTypes.IsPlayerTemplate(m.templateName)
  }

  /** `getPlayerName`: the market name up to the first ` (`, or all of it. */
  function PlayerName(name: string): (r: string)
    ensures r <= name && !Contains(r, " (")
    ensures !Contains(name, " (") ==> r == name
    ensures Contains(name, " (") ==> OccursAt(name, " (", |r|)
  {
    Before(name, " (")
  }

  /**
   * One market: an unknown template is skipped (reported by name), a known one
   * takes the mapped type, the market id, its outcomes and, for player
   * markets only, the player's name.
   */
  function ConvertMarket(m: Feed.Market, participants: map<string, OutcomeType>, codes: Codes, parseFloat: string -> Option<real>): (r: Result<Option<Market>, TransformError>)
    ensures m.templateName !in MarketTypes.Table ==> r == Ok(None)
    ensures m.templateName in MarketTypes.Table ==>
      match GetOutcomes(m, participants, codes, parseFloat)
      case Err(e) => r == Err(e)
      case Ok(os) => r == Ok(Some(Market(MarketTypes.Table[m.templateName], m.id,
        if IsPlayerMarket(m) then Some(PlayerName(m.name)) else None, os)))
  {
    if m.templateName !in MarketTypes.Table then Ok(None)
    else
      var os :- GetOutcomes(m, participants, codes, parseFloat);
      var name := if IsPlayerMarket(m) then Some(PlayerName(m.name)) else None;
      Ok(Some(Market(MarketTypes.Table[m.templateName], m.id, name, os)))
  }

  /** The template names among `ms` that have no market type. */
  function Unhandled(ms: seq<Feed.Market>): set<string> {
    set i | 0 <= i < |ms| && ms[i].templateName !in MarketTypes.Table :: ms[i].templateName
  }

  /** `getMarkets`: the known markets in order with the unknown template names; the first outcome error aborts. */
  function GetMarkets(ms: seq<Feed.Market>, participants: map<string, OutcomeType>, codes: Codes, parseFloat: string -> Option<real>): (r: Result<(seq<Market>, set<string>), TransformError>)
    decreases |ms|
  {
    if |ms| == 0 then Ok(([], {}))
    else
      var head :- ConvertMarket(ms[0], participants, codes, parseFloat);
      var tail :- GetMarkets(ms[1..], participants, codes, parseFloat);
      var skipped := if ms[0].templateName in MarketTypes.Table then {} else {ms[0].templateName};
      Ok(((if head.Some? then [head.value] else []) + tail.0, skipped + tail.1))
  }

  // ---- what the conversion means ----

  /** What a single market converts to: itself when its template is known, otherwise its template name as unhandled. */
  function GetOneMarket(m: Feed.Market, participants: map<string, OutcomeType>, codes: Codes, parseFloat: string -> Option<real>): Result<(seq<Market>, set<string>), TransformError> {
    match ConvertMarket(m, participants, codes, parseFloat)
    case Err(e) => Err(e)
    case Ok(h) => Ok((if h.Some? then [h.value] else [], if m.templateName in MarketTypes.Table then {} else {m.templateName}))
  }

  lemma SingleMarket(m: Feed.Market, participants: map<string, OutcomeType>, codes: Codes, parseFloat: string -> Option<real>)
    ensures GetMarkets([m], participants, codes, parseFloat) == GetOneMarket(m, participants, codes, parseFloat)
  {
    assert [m][1..] == [];
    var head := ConvertMarket(m, participants, codes, parseFloat);
    if head.Ok? {
      var h := if head.value.Some? then [head.value.value] else [];
      var s: set<string> := if m.templateName in MarketTypes.Table then {} else {m.templateName};
      assert h + [] == h && s + {} == s;
    }
  }

  /**
   * On success every market converted, a known one to a market and an unknown
   * one to nothing; the kept markets are exactly those conversions.
   */
  lemma {:induction false} GetMarketsKeepsKnown(ms: seq<Feed.Market>, participants: map<string, OutcomeType>, codes: Codes, parseFloat: string -> Option<real>)
    requires GetMarkets(ms, participants, codes, parseFloat).Ok?
    ensures forall i :: 0 <= i < |ms| ==>
      ConvertMarket(ms[i], participants, codes, parseFloat).Ok? &&
      (ConvertMarket(ms[i], participants, codes, parseFloat).value.Some? <==> ms[i].templateName in MarketTypes.Table)
    ensures forall x :: x in GetMarkets(ms, participants, codes, parseFloat).value.0 <==>
      exists i :: 0 <= i < |ms| && ConvertMarket(ms[i], participants, codes, parseFloat) == Ok(Some(x))
    decreases |ms|
  {
    if |ms| > 0 {
      GetMarketsKeepsKnown(ms[1..], participants, codes, parseFloat);
      assert forall i :: 1 <= i < |ms| ==> ms[i] == ms[1..][i - 1];
      var kept := GetMarkets(ms, participants, codes, parseFloat).value.0;
      var head := ConvertMarket(ms[0], participants, codes, parseFloat).value;
      var tail := GetMarkets(ms[1..], participants, codes, parseFloat).value.0;
      assert kept == (if head.Some? then [head.value] else []) + tail;
      forall x | x in kept
        ensures exists i :: 0 <= i < |ms| && ConvertMarket(ms[i], participants, codes, parseFloat) == Ok(Some(x))
      {
        if x !in tail {
          assert ConvertMarket(ms[0], participants, codes, parseFloat) == Ok(Some(x));
        } else {
          var i :| 0 <= i < |ms[1..]| && ConvertMarket(ms[1..][i], participants, codes, parseFloat) == Ok(Some(x));
          assert ConvertMarket(ms[i + 1], participants, codes, parseFloat) == Ok(Some(x));
        }
      }
      forall x, i | 0 <= i < |ms| && ConvertMarket(ms[i], participants, codes, parseFloat) == Ok(Some(x))
        ensures x in kept
      {
        if i > 0 {
          assert ConvertMarket(ms[1..][i - 1], participants, codes, parseFloat) == Ok(Some(x));
        }
      }
    }
  }

  /**
   * On success the unknown templates are reported exactly, every market of a
   * known template is kept and nothing else is, every kept market has a known
   * type, and only player markets carry a name.
   */
  lemma {:induction false} GetMarketsShape(ms: seq<Feed.Market>, participants: map<string, OutcomeType>, codes: Codes, parseFloat: string -> Option<real>)
    requires GetMarkets(ms, participants, codes, parseFloat).Ok?
    ensures var (kept, skipped) := GetMarkets(ms, participants, codes, parseFloat).value;
      && skipped == Unhandled(ms)
      && |kept| <= |ms|
      && (forall i :: 0 <= i < |ms| && ms[i].templateName in MarketTypes.Table ==>
            ConvertMarket(ms[i], participants, codes, parseFloat).Ok? &&
            ConvertMarket(ms[i], participants, codes, parseFloat).value.Some? &&
            ConvertMarket(ms[i], participants, codes, parseFloat).value.value in kept)
      && (forall x :: x in kept <==> exists i :: 0 <= i < |ms| && ConvertMarket(ms[i], participants, codes, parseFloat) == Ok(Some(x)))
      && forall x :: x in kept ==> x.kind in MarketTypes.Table.Values && (x.name.Some? <==> IsPlayerType(x.kind))
  {
    GetMarketsKeepsKnown(ms, participants, codes, parseFloat);
    GetMarketsReportsUnknown(ms, participants, codes, parseFloat);
  }

  /** On success the unhandled names are the unknown templates, and each kept market is typed and named as its kind says. */
  lemma {:induction false} GetMarketsReportsUnknown(ms: seq<Feed.Market>, participants: map<string, OutcomeType>, codes: Codes, parseFloat: string -> Option<real>)
    requires GetMarkets(ms, participants, codes, parseFloat).Ok?
    ensures var (kept, skipped) := GetMarkets(ms, participants, codes, parseFloat).value;
      && skipped == Unhandled(ms)
      && |kept| <= |ms|
      && forall x :: x in kept ==> x.kind in MarketTypes.Table.Values && (x.name.Some? <==> IsPlayerType(x.kind))
    decreases |ms|
  {
    if |ms| > 0 {
      GetMarketsReportsUnknown(ms[1..], participants, codes, parseFloat);
      assert Unhandled(ms) == (if ms[0].templateName in MarketTypes.Table then {} else {ms[0].templateName}) + Unhandled(ms[1..]) by {
        forall n | n in Unhandled(ms)
          ensures n in (if ms[0].templateName in MarketTypes.Table then {} else {ms[0].templateName}) + Unhandled(ms[1..])
        {
          var i :| 0 <= i < |ms| && ms[i].templateName !in MarketTypes.Table && ms[i].templateName == n;
          if i > 0 {
            assert ms[1..][i - 1] == ms[i];
          }
        }
        forall n | n in Unhandled(ms[1..])
          ensures n in Unhandled(ms)
        {
          var i :| 0 <= i < |ms[1..]| && ms[1..][i].templateName !in MarketTypes.Table && ms[1..][i].templateName == n;
          assert ms[i + 1] == ms[1..][i];
        }
      }
      var head := ConvertMarket(ms[0], participants, codes, parseFloat).value;
      if head.Some? {
        MarketTypes.PlayerTemplatesArePlayerTypes(ms[0].templateName);
        MarketTypes.TableIsBijective();
      }
    }
  }

  /**
   * A single market converts as `GetOneMarket`, and converting a concatenation
   * converts each part: kept markets stay in input order and unknown names are
   * pooled. Together these fix `GetMarkets` as a fold over the markets.
   */
  lemma GetMarketsAppend(a: seq<Feed.Market>, b: seq<Feed.Market>, participants: map<string, OutcomeType>, codes: Codes, parseFloat: string -> Option<real>)
    ensures |a| == 1 ==> GetMarkets(a, participants, codes, parseFloat) == GetOneMarket(a[0], participants, codes, parseFloat)
    ensures GetMarkets(a + b, participants, codes, parseFloat) ==
      match GetMarkets(a, participants, codes, parseFloat)
      case Err(e) => Err(e)
      case Ok(ra) =>
        match GetMarkets(b, participants, codes, parseFloat)
        case Err(e) => Err(e)
        case Ok(rb) => Ok((ra.0 + rb.0, ra.1 + rb.1))
  {
    if |a| == 1 {
      SingleMarket(a[0], participants, codes, parseFloat);
      assert a == [a[0]];
    }
    GetMarketsConcat(a, b, participants, codes, parseFloat);
  }

  lemma {:induction false} GetMarketsConcat(a: seq<Feed.Market>, b: seq<Feed.Market>, participants: map<string, OutcomeType>, codes: Codes, parseFloat: string -> Option<real>)
    ensures GetMarkets(a + b, participants, codes, parseFloat) ==
      match GetMarkets(a, participants, codes, parseFloat)
      case Err(e) => Err(e)
      case Ok(ra) =>
        match GetMarkets(b, participants, codes, parseFloat)
        case Err(e) => Err(e)
        case Ok(rb) => Ok((ra.0 + rb.0, ra.1 + rb.1))
    decreases |a|
  {
    var rb := GetMarkets(b, participants, codes, parseFloat);
    if |a| == 0 {
      assert a + b == b;
      if rb.Ok? {
        assert [] + rb.value.0 == rb.value.0;
        assert {} + rb.value.1 == rb.value.1;
      }
    } else {
      assert (a + b)[0] == a[0];
      assert (a + b)[1..] == a[1..] + b;
      GetMarketsConcat(a[1..], b, participants, codes, parseFloat);
      var head := ConvertMarket(a[0], participants, codes, parseFloat);
      var rest := GetMarkets(a[1..], participants, codes, parseFloat);
      if head.Ok? && rest.Ok? && rb.Ok? {
        var h := if head.value.Some? then [head.value.value] else [];
        var s: set<string> := if a[0].templateName in MarketTypes.Table then {} else {a[0].templateName};
        assert h + (rest.value.0 + rb.value.0) == (h + rest.value.0) + rb.value.0;
        assert s + (rest.value.1 + rb.value.1) == (s + rest.value.1) + rb.value.1;
      }
    }
  }

  /** A market of an unknown template is reported and dropped without affecting the others. */
  lemma UnknownTemplateIsDropped(m: Feed.Market, rest: seq<Feed.Market>, participants: map<string, OutcomeType>, codes: Codes, parseFloat: string -> Option<real>)
    requires m.templateName !in MarketTypes.Table
    requires GetMarkets(rest, participants, codes, parseFloat).Ok?
    ensures var r := GetMarkets([m] + rest, participants, codes, parseFloat);
      var t := GetMarkets(rest, participants, codes, parseFloat).value;
      r == Ok((t.0, {m.templateName} + t.1))
  {
    assert ([m] + rest)[0] == m;
    assert ([m] + rest)[1..] == rest;
    var t := GetMarkets(rest, participants, codes, parseFloat).value;
    assert [] + t.0 == t.0;
  }

  /** The player name is the text before ` (` when the market name carries one. */
  lemma PlayerNameBeforeParenthesis(player: string, rest: string)
    requires !Contains(player, " (")
    ensures PlayerName(player + " (" + rest) == player
  {
    assert UniqueLead(" (");
    SplitAfterClean(player, rest, " (");
  }
}
