/**
 * The upstream feed's records, reduced to the fields the normaliser and the
 * update handlers read. All scalar fields arrive as text; JSON decoding that
 * produces these records is outside the model.
 */
module Feed {
  import opened Wrappers

  datatype Price = Price(
    num: string,
    den: string,
    dec: string,
    american: string,
    handicapValueDec: string,
    rawHandicapValue: string)

  datatype Outcome = Outcome(
    id: string,
    name: string,
    minorCode: string,
    statusCode: string,
    isDisplayed: string,
    isAvailable: string,
    fixedOddsAvail: string,
    prices: seq<Price>)

  datatype Market = Market(
    id: string,
    templateName: string,
    name: string,
    rawHandicapValue: string,
    outcomes: seq<Outcome>)

  /** `isStarted` is read by the normaliser although the catalog record type lacks it; it is added here. */
  datatype Event = Event(
    id: string,
    name: string,
    startTime: string,
    isStarted: string,
    categoryCode: string,
    categoryName: string,
    className: string,
    typeName: string,
    markets: seq<Market>)

  datatype Class = Class(id: string, isActive: string)

  /** Payloads of the four push-update kinds. A Go nil map is `None` where the code tells it apart from an empty one. */
  datatype EventUpdate = EventUpdate(status: string, displayed: string)

  datatype MarketUpdate = MarketUpdate(
    names: map<string, string>,
    groupNames: Option<map<string, string>>,
    status: string,
    displayed: string)

  datatype SelectionUpdate = SelectionUpdate(
    names: map<string, string>,
    status: string,
    lpNum: string,
    lpDen: string,
    evMktId: int)

  datatype PriceUpdate = PriceUpdate(lpNum: string, lpDen: string)

  /** `m[k]` on a Go map: the empty string when the key is absent. */
  function Lookup(m: map<string, string>, k: string): string {
    if k in m then m[k] else ""
  }
}
