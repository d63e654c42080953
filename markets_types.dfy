/** The market records the markets modules share (instruments, price points,
 *  positions, hedge links, news events and scenario runs), with the fields
 *  the modules read or write. */
module MarketTypes {
  import opened Wrappers

  datatype Instrument = Instrument(id: string, symbol: string, name: string)

  datatype PricePoint = PricePoint(
    instrumentId: string, ts: string, price: real, unit: string, currency: string, source: string,
    qualityFlags: seq<string>)

  datatype Position = Position(
    id: string, book: string, strategy: string, instrumentId: string, kind: string, qty: real,
    unit: string, avgPrice: real, currency: string, start: string, end: string, tags: seq<string>)

  datatype HedgeLink = HedgeLink(
    id: string, physicalPositionId: string, hedgePositionId: string, hedgeRatio: real,
    rationale: string, createdBy: string, createdAt: string)

  /** `confidence` is in hundredths: `50` stands for 0.5. */
  datatype Impact = Impact(instrumentIds: seq<string>, description: string, confidence: int)

  datatype MarketEvent = MarketEvent(
    id: string, ts: string, title: string, summary: string, regions: seq<string>,
    commodities: seq<string>, severity: string, tags: seq<string>, source: string,
    impact: Option<Impact>)

  datatype CurvePoint = CurvePoint(period: string, price: real)

  datatype ForwardCurve = ForwardCurve(instrumentId: string, asOf: string, points: seq<CurvePoint>)

  datatype ScenarioRun = ScenarioRun(id: string, name: string)

  datatype EmissionFactor = EmissionFactor(unit: string, factor: real)
}
