/** Participants of a catalog event, read from the outcomes of its money-line and outright markets. */
module Participants {
  import opened Wrappers
  import opened Domain
  import opened Catalog
  import MarketTypes
  import Feed

  /** `getParticipantType`: the home code, the away code, and everyone else a competitor. */
  function TypeOfCode(code: string, codes: Codes): (r: ParticipantType)
    ensures r != ParticipantUnspecified
    ensures r == Home <==> code == codes.home
    ensures r == Away <==> code != codes.home && code == codes.away
  {
    if code == codes.home then Home
    else if code == codes.away then Away
    else Competitor
  }

  /** `isMarketName`: exact equality with the market's template name. */
  predicate IsMarketName(m: Feed.Market, name: string) {
    m.templateName == name
  }

  /** The markets whose outcomes are the event's participants. */
  predicate NamesParticipants(m: Feed.Market) {
    IsMarketName(m, MarketTypes.MoneyLineName) || IsMarketName(m, MarketTypes.OutrightName)
  }

  function FromOutcome(o: Feed.Outcome, codes: Codes): Participant {
    Participant(TypeOfCode(o.minorCode, codes), o.name)
  }

  /** One participant per outcome, in order. */
  function FromOutcomes(os: seq<Feed.Outcome>, codes: Codes): (r: seq<Participant>)
    ensures |r| == |os| && forall i :: 0 <= i < |os| ==> r[i] == FromOutcome(os[i], codes)
  {
    seq(|os|, i requires 0 <= i < |os| => FromOutcome(os[i], codes))
  }

  /** The participants of the qualifying markets, market by market and outcome by outcome. */
  function Collect(ms: seq<Feed.Market>, codes: Codes): (r: seq<Participant>)
    decreases |ms|
  {
    if |ms| == 0 then []
    else (if NamesParticipants(ms[0]) then FromOutcomes(ms[0].outcomes, codes) else []) + Collect(ms[1..], codes)
  }

  /** `getParticipants`: more than two participants are refused unless the first is a competitor (a field, not a match). */
  function GetParticipants(ev: Feed.Event, codes: Codes): (r: Result<seq<Participant>, TransformError>)
    ensures r.Err? <==> |Collect(ev.markets, codes)| > 2 && Collect(ev.markets, codes)[0].kind != Competitor
    ensures r.Err? ==> r.error == TooManyParticipants
    ensures r.Ok? ==> r.value == Collect(ev.markets, codes)
    ensures r.Ok? && |r.value| > 0 && r.value[0].kind != Competitor ==> |r.value| <= 2
  {
    var pts := Collect(ev.markets, codes);
    if |pts| > 2 && pts[0].kind != Competitor then Err(TooManyParticipants) else Ok(pts)
  }

  // ---- what the collection means ----

  /** A single market contributes its outcomes exactly when it names participants, and collecting over a concatenation collects each part in turn. */
  lemma {:induction false} CollectAppend(a: seq<Feed.Market>, b: seq<Feed.Market>, codes: Codes)
    ensures |a| == 1 ==> Collect(a, codes) == if NamesParticipants(a[0]) then FromOutcomes(a[0].outcomes, codes) else []
    ensures Collect(a + b, codes) == Collect(a, codes) + Collect(b, codes)
    decreases |a|
  {
    if |a| == 0 {
      assert a + b == b;
    } else {
      assert (a + b)[0] == a[0];
      assert (a + b)[1..] == a[1..] + b;
      CollectAppend(a[1..], b, codes);
    }
  }

  /**
   * The participants are exactly those of the outcomes of money-line and
   * outright markets: each one comes from such an outcome, named after it and
   * typed by its code, and every such outcome gives one.
   */
  lemma CollectComesFromQualifyingMarkets(ms: seq<Feed.Market>, codes: Codes)
    ensures forall x :: x in Collect(ms, codes) <==>
      exists i, j :: 0 <= i < |ms| && NamesParticipants(ms[i]) && 0 <= j < |ms[i].outcomes| && x == FromOutcome(ms[i].outcomes[j], codes)
  {
    forall x | x in Collect(ms, codes)
      ensures exists i, j :: 0 <= i < |ms| && NamesParticipants(ms[i]) && 0 <= j < |ms[i].outcomes| && x == FromOutcome(ms[i].outcomes[j], codes)
    {
      var k :| 0 <= k < |Collect(ms, codes)| && Collect(ms, codes)[k] == x;
      CollectEntrySource(ms, codes, k);
    }
    forall i, j | 0 <= i < |ms| && NamesParticipants(ms[i]) && 0 <= j < |ms[i].outcomes|
      ensures FromOutcome(ms[i].outcomes[j], codes) in Collect(ms, codes)
    {
      CollectEntryCovered(ms, codes, i, j);
    }
  }

  /** Every outcome of a money-line or outright market gives a participant. */
  lemma {:induction false} CollectEntryCovered(ms: seq<Feed.Market>, codes: Codes, i: int, j: int)
    requires 0 <= i < |ms| && NamesParticipants(ms[i]) && 0 <= j < |ms[i].outcomes|
    ensures FromOutcome(ms[i].outcomes[j], codes) in Collect(ms, codes)
    decreases i
  {
    var head := if NamesParticipants(ms[0]) then FromOutcomes(ms[0].outcomes, codes) else [];
    assert Collect(ms, codes) == head + Collect(ms[1..], codes);
    if i == 0 {
      assert head[j] == FromOutcome(ms[0].outcomes[j], codes);
    } else {
      assert ms[1..][i - 1] == ms[i];
      CollectEntryCovered(ms[1..], codes, i - 1, j);
    }
  }

  /** The participant at position `k` comes from an outcome of a money-line or outright market. */
  lemma {:induction false} CollectEntrySource(ms: seq<Feed.Market>, codes: Codes, k: int)
    requires 0 <= k < |Collect(ms, codes)|
    ensures exists i, j ::
      && 0 <= i < |ms| && NamesParticipants(ms[i]) && 0 <= j < |ms[i].outcomes|
      && Collect(ms, codes)[k] == FromOutcome(ms[i].outcomes[j], codes)
    decreases |ms|
  {
    var head := if NamesParticipants(ms[0]) then FromOutcomes(ms[0].outcomes, codes) else [];
    if k < |head| {
      assert Collect(ms, codes)[k] == FromOutcome(ms[0].outcomes[k], codes);
    } else {
      CollectEntrySource(ms[1..], codes, k - |head|);
      var i, j :|
        && 0 <= i < |ms[1..]| && NamesParticipants(ms[1..][i]) && 0 <= j < |ms[1..][i].outcomes|
        && Collect(ms[1..], codes)[k - |head|] == FromOutcome(ms[1..][i].outcomes[j], codes);
      assert ms[1..][i] == ms[i + 1];
    }
  }

  /** Markets other than money line and outright contribute no participants. */
  lemma {:induction false} OtherMarketsContributeNothing(ms: seq<Feed.Market>, codes: Codes)
    requires forall i :: 0 <= i < |ms| ==> !NamesParticipants(ms[i])
    ensures Collect(ms, codes) == []
    decreases |ms|
  {
    if |ms| > 0 {
      assert forall i :: 0 <= i < |ms[1..]| ==> ms[1..][i] == ms[i + 1];
      OtherMarketsContributeNothing(ms[1..], codes);
    }
  }

  /** A head-to-head money line gives a home and an away participant, named after its outcomes. */
  lemma HeadToHead(m: Feed.Market, codes: Codes)
    requires ValidCodes(codes)
    requires m.templateName == MarketTypes.MoneyLineName && |m.outcomes| == 2
    requires m.outcomes[0].minorCode == codes.home && m.outcomes[1].minorCode == codes.away
    ensures Collect([m], codes) == [Participant(Home, m.outcomes[0].name), Participant(Away, m.outcomes[1].name)]
  {
    assert [m][1..] == [];
  }
}
