/**
 * The canonical records the feed is normalised into and the store holds:
 * events with ordered participants and ordered markets, markets with ordered
 * outcomes, outcomes with odds. Enumerations list the values the code uses;
 * each starts with the protobuf zero value where the code can produce it.
 */
module Domain {
  import opened Wrappers

  datatype SportType = SportUnspecified | Basketball

  datatype MarketType =
    | MatchBetting
    | Moneyline | Moneyline1stQuarter | Moneyline1stHalf
    | RaceToXPoints
    | Outright
    | TotalPoints | TotalPointsOddEven
    | TotalPoints1stQuarter | TotalPoints1stQuarterOddEven
    | TotalPoints1stHalf | TotalPoints1stHalfOddEven
    | TotalPointsHomeTeam | TotalPointsHomeTeam1stQuarter | TotalPointsHomeTeam1stHalf
    | TotalPointsAwayTeam | TotalPointsAwayTeam1stQuarter | TotalPointsAwayTeam1stHalf
    | Spread1stQuarter | Spread1stHalf
    | PlayerTotalPoints | PlayerTotalAssists | PlayerTotalRebounds | PlayerTotal3Pointers

  datatype OutcomeType =
    | OutcomeUnspecified
    | HomeOutcome | AwayOutcome | CompetitorOutcome
    | DrawOutcome | OverOutcome | UnderOutcome | OddOutcome | EvenOutcome

  datatype ParticipantType = ParticipantUnspecified | Home | Away | Competitor

  /** Fractional odds as received, with the derived decimal and American forms. */
  datatype Odds = Odds(numerator: string, denominator: string, decimal: real, american: string, isFixed: bool)

  /** The zero `Odds` value (`&pb.Odds{}`). */
  const EmptyOdds := Odds("", "", 0.0, "", false)

  datatype Outcome = Outcome(
    kind: OutcomeType,
    externalId: string,
    name: Option<string>,
    points: Option<real>,
    odds: Odds,
    isAvailable: bool)

  datatype Market = Market(kind: MarketType, externalId: string, name: Option<string>, outcomes: seq<Outcome>)

  datatype Participant = Participant(kind: ParticipantType, name: string)

  /** `startTime` is the instant the time parser produced, kept abstract as an integer. */
  datatype Event = Event(
    externalId: string,
    sport: SportType,
    name: string,
    league: string,
    startTime: int,
    isLive: bool,
    participants: seq<Participant>,
    markets: seq<Market>,
    link: string)

  /** The four player-proposition market types, the only ones that carry a player name. */
  predicate IsPlayerType(t: MarketType) {
    t == PlayerTotalPoints || t == PlayerTotalAssists || t == PlayerTotalRebounds || t == PlayerTotal3Pointers
  }
}
