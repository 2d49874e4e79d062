/**
 * What the catalog normaliser shares: its errors, the feed's outcome codes and
 * the parsers it calls. The codes are constants of the feed's record package
 * whose values are not part of this model; only their distinctness matters.
 */
module Catalog {
  import opened Wrappers

  /**
   * The normaliser's errors. `Panic` stands for the places where the Go code
   * indexes past the end of a slice (an outcome without prices, a named event
   * with a single home or away participant) and would crash instead.
   */
  datatype TransformError =
    | ParseTime
    | ParseBoolFailed
    | TooManyParticipants
    | ParsePrice
    | ParsePoints
    | ParseFixedOddsAvailability
    | Panic

  /** The participant and status codes the feed uses for home, away and a suspended outcome. */
  datatype Codes = Codes(home: string, away: string, suspended: string)

  predicate ValidCodes(codes: Codes) {
    codes.home != codes.away
  }

  /** `strconv.ParseFloat` and RFC 3339 time parsing (an instant as an integer), both outside the model. */
  datatype Parsers = Parsers(parseFloat: string -> Option<real>, parseTime: string -> Option<int>)
}
