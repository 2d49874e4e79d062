/** The template market names the normaliser and the update handlers recognise. */
module MarketTypes {
  import opened Domain

  const MatchBettingName := "Match Betting"
  const MoneyLineName := "Money Line"
  const MoneyLine1stQuarterName := "Quarter Money Line"
  const MoneyLine1stHalfName := "Half Money Line"
  const RaceToXPointsName := "Race to X points"
  const OutrightName := "Outright"
  const TotalPointsName := "Total Points"
  const TotalPointsOddEvenName := "Total points - odd/even"
  const TotalPoints1stQuarterName := "Quarter Total Points"
  const TotalPoints1stQuarterOddEvenName := "Quarter Total Points Odd/Even"
  const TotalPoints1stHalfName := "Half Total Points"
  const TotalPoints1stHalfOddEvenName := "Half Total Points Odd/Even"
  const TotalPointsHomeTeamName := "Home team total points"
  const TotalPointsHomeTeam1stQuarterName := "Quarter Home Team Total Points"
  const TotalPointsHomeTeam1stHalfName := "Half Home Team Total Points"
  const TotalPointsAwayTeamName := "Away team total points"
  const TotalPointsAwayTeam1stQuarterName := "Quarter Away Team Total Points"
  const TotalPointsAwayTeam1stHalfName := "Half Away Team Total Points"
  const Spread1stQuarterName := "Quarter Spread"
  const Spread1stHalfName := "Half Spread"
  const PlayerTotalPointsName := "Player - Total Points"
  const PlayerTotalAssistsName := "Player - Total Assists"
  const PlayerTotalReboundsName := "Player - Total Rebounds"
  const PlayerTotal3PointersName := "Player - Total 3 Pointers"

  const Table: map<string, MarketType> := map[
    MatchBettingName := MatchBetting,
    MoneyLineName := Moneyline,
    MoneyLine1stQuarterName := Moneyline1stQuarter,
    MoneyLine1stHalfName := Moneyline1stHalf,
    RaceToXPointsName := RaceToXPoints,
    OutrightName := Outright,
    TotalPointsName := TotalPoints,
    TotalPointsOddEvenName := TotalPointsOddEven,
    TotalPoints1stQuarterName := TotalPoints1stQuarter,
    TotalPoints1stQuarterOddEvenName := TotalPoints1stQuarterOddEven,
    TotalPoints1stHalfName := TotalPoints1stHalf,
    TotalPoints1stHalfOddEvenName := TotalPoints1stHalfOddEven,
    TotalPointsHomeTeamName := TotalPointsHomeTeam,
    TotalPointsHomeTeam1stQuarterName := TotalPointsHomeTeam1stQuarter,
    TotalPointsHomeTeam1stHalfName := TotalPointsHomeTeam1stHalf,
    TotalPointsAwayTeamName := TotalPointsAwayTeam,
    TotalPointsAwayTeam1stQuarterName := TotalPointsAwayTeam1stQuarter,
    TotalPointsAwayTeam1stHalfName := TotalPointsAwayTeam1stHalf,
    Spread1stQuarterName := Spread1stQuarter,
    Spread1stHalfName := Spread1stHalf,
    PlayerTotalPointsName := PlayerTotalPoints,
    PlayerTotalAssistsName := PlayerTotalAssists,
    PlayerTotalReboundsName := PlayerTotalRebounds,
    PlayerTotal3PointersName := PlayerTotal3Pointers
  ]

  /** The names of the four player-proposition templates. */
  predicate IsPlayerTemplate(name: string) {
    name == PlayerTotalPointsName || name == PlayerTotalAssistsName
    || name == PlayerTotalReboundsName || name == PlayerTotal3PointersName
  }

  /** The template name of each market type: the inverse of `Table`. */
  function NameOf(t: MarketType): (n: string)
    ensures n in Table && Table[n] == t
  {
    match t
    case MatchBetting => MatchBettingName
    case Moneyline => MoneyLineName
    case Moneyline1stQuarter => MoneyLine1stQuarterName
    case Moneyline1stHalf => MoneyLine1stHalfName
    case RaceToXPoints => RaceToXPointsName
    case Outright => OutrightName
    case TotalPoints => TotalPointsName
    case TotalPointsOddEven => TotalPointsOddEvenName
    case TotalPoints1stQuarter => TotalPoints1stQuarterName
    case TotalPoints1stQuarterOddEven => TotalPoints1stQuarterOddEvenName
    case TotalPoints1stHalf => TotalPoints1stHalfName
    case TotalPoints1stHalfOddEven => TotalPoints1stHalfOddEvenName
    case TotalPointsHomeTeam => TotalPointsHomeTeamName
    case TotalPointsHomeTeam1stQuarter => TotalPointsHomeTeam1stQuarterName
    case TotalPointsHomeTeam1stHalf => TotalPointsHomeTeam1stHalfName
    case TotalPointsAwayTeam => TotalPointsAwayTeamName
    case TotalPointsAwayTeam1stQuarter => TotalPointsAwayTeam1stQuarterName
    case TotalPointsAwayTeam1stHalf => TotalPointsAwayTeam1stHalfName
    case Spread1stQuarter => Spread1stQuarterName
    case Spread1stHalf => Spread1stHalfName
    case PlayerTotalPoints => PlayerTotalPointsName
    case PlayerTotalAssists => PlayerTotalAssistsName
    case PlayerTotalRebounds => PlayerTotalReboundsName
    case PlayerTotal3Pointers => PlayerTotal3PointersName
  }

  /** Looking a name up and taking the name of the result gives the name back. */
  lemma NameOfInvertsTable(n: string)
    requires n in Table
    ensures NameOf(Table[n]) == n
  {
    if n == MatchBettingName || n == MoneyLineName || n == MoneyLine1stQuarterName || n == MoneyLine1stHalfName || n == RaceToXPointsName || n == OutrightName {
      NameOfInvertsGroup1(n);
    } else if n == TotalPointsName || n == TotalPointsOddEvenName || n == TotalPoints1stQuarterName || n == TotalPoints1stQuarterOddEvenName || n == TotalPoints1stHalfName || n == TotalPoints1stHalfOddEvenName {
      NameOfInvertsGroup2(n);
    } else if n == TotalPointsHomeTeamName || n == TotalPointsHomeTeam1stQuarterName || n == TotalPointsHomeTeam1stHalfName || n == TotalPointsAwayTeamName || n == TotalPointsAwayTeam1stQuarterName || n == TotalPointsAwayTeam1stHalfName {
      NameOfInvertsGroup3(n);
    } else if n == Spread1stQuarterName || n == Spread1stHalfName || n == PlayerTotalPointsName || n == PlayerTotalAssistsName || n == PlayerTotalReboundsName || n == PlayerTotal3PointersName {
      NameOfInvertsGroup4(n);
    } else {
      assert false;
    }
  }

  lemma NameOfInvertsGroup1(n: string)
    requires n == MatchBettingName || n == MoneyLineName || n == MoneyLine1stQuarterName || n == MoneyLine1stHalfName || n == RaceToXPointsName || n == OutrightName
    ensures n in Table && NameOf(Table[n]) == n
  {
    if n == MatchBettingName {
      assert NameOf(MatchBetting) == n;
    } else if n == MoneyLineName {
      assert NameOf(Moneyline) == n;
    } else if n == MoneyLine1stQuarterName {
      assert NameOf(Moneyline1stQuarter) == n;
    } else if n == MoneyLine1stHalfName {
      assert NameOf(Moneyline1stHalf) == n;
    } else if n == RaceToXPointsName {
      assert NameOf(RaceToXPoints) == n;
    } else {
      assert NameOf(Outright) == n;
    }
  }

  lemma NameOfInvertsGroup2(n: string)
    requires n == TotalPointsName || n == TotalPointsOddEvenName || n == TotalPoints1stQuarterName || n == TotalPoints1stQuarterOddEvenName || n == TotalPoints1stHalfName || n == TotalPoints1stHalfOddEvenName
    ensures n in Table && NameOf(Table[n]) == n
  {
    if n == TotalPointsName {
      assert NameOf(TotalPoints) == n;
    } else if n == TotalPointsOddEvenName {
      assert NameOf(TotalPointsOddEven) == n;
    } else if n == TotalPoints1stQuarterName {
      assert NameOf(TotalPoints1stQuarter) == n;
    } else if n == TotalPoints1stQuarterOddEvenName {
      assert NameOf(TotalPoints1stQuarterOddEven) == n;
    } else if n == TotalPoints1stHalfName {
      assert NameOf(TotalPoints1stHalf) == n;
    } else {
      assert NameOf(TotalPoints1stHalfOddEven) == n;
    }
  }

  lemma NameOfInvertsGroup3(n: string)
    requires n == TotalPointsHomeTeamName || n == TotalPointsHomeTeam1stQuarterName || n == TotalPointsHomeTeam1stHalfName || n == TotalPointsAwayTeamName || n == TotalPointsAwayTeam1stQuarterName || n == TotalPointsAwayTeam1stHalfName
    ensures n in Table && NameOf(Table[n]) == n
  {
    if n == TotalPointsHomeTeamName {
      assert NameOf(TotalPointsHomeTeam) == n;
    } else if n == TotalPointsHomeTeam1stQuarterName {
      assert NameOf(TotalPointsHomeTeam1stQuarter) == n;
    } else if n == TotalPointsHomeTeam1stHalfName {
      assert NameOf(TotalPointsHomeTeam1stHalf) == n;
    } else if n == TotalPointsAwayTeamName {
      assert NameOf(TotalPointsAwayTeam) == n;
    } else if n == TotalPointsAwayTeam1stQuarterName {
      assert NameOf(TotalPointsAwayTeam1stQuarter) == n;
    } else {
      assert NameOf(TotalPointsAwayTeam1stHalf) == n;
    }
  }

  lemma NameOfInvertsGroup4(n: string)
    requires n == Spread1stQuarterName || n == Spread1stHalfName || n == PlayerTotalPointsName || n == PlayerTotalAssistsName || n == PlayerTotalReboundsName || n == PlayerTotal3PointersName
    ensures n in Table && NameOf(Table[n]) == n
  {
    if n == Spread1stQuarterName {
      assert NameOf(Spread1stQuarter) == n;
    } else if n == Spread1stHalfName {
      assert NameOf(Spread1stHalf) == n;
    } else if n == PlayerTotalPointsName {
      assert NameOf(PlayerTotalPoints) == n;
    } else if n == PlayerTotalAssistsName {
      assert NameOf(PlayerTotalAssists) == n;
    } else if n == PlayerTotalReboundsName {
      assert NameOf(PlayerTotalRebounds) == n;
    } else {
      assert NameOf(PlayerTotal3Pointers) == n;
    }
  }

  /** The table is a bijection between its 24 names and the 24 market types. */
  lemma TableIsBijective()
    ensures forall a, b :: a in Table && b in Table && Table[a] == Table[b] ==> a == b
    ensures forall t: MarketType :: t in Table.Values
  {
    forall a, b | a in Table && b in Table && Table[a] == Table[b]
      ensures a == b
    {
      NameOfInvertsTable(a);
      NameOfInvertsTable(b);
    }
    forall t: MarketType
      ensures t in Table.Values
    {
      assert Table[NameOf(t)] == t;
    }
  }

  /** Player templates are exactly the names mapped to player market types. */
  lemma PlayerTemplatesArePlayerTypes(name: string)
    requires name in Table
    ensures IsPlayerTemplate(name) <==> IsPlayerType(Table[name])
  {
  }

  lemma NamedEntries()
    ensures Table[MoneyLineName] == Moneyline && Table[OutrightName] == Outright
    ensures Table[Spread1stQuarterName] == Spread1stQuarter && Table[Spread1stHalfName] == Spread1stHalf
    ensures Table[PlayerTotalPointsName] == PlayerTotalPoints && Table[PlayerTotalAssistsName] == PlayerTotalAssists
    ensures Table[PlayerTotalReboundsName] == PlayerTotalRebounds && Table[PlayerTotal3PointersName] == PlayerTotal3Pointers
  {
  }
}
