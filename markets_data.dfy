/** The in-memory market data service (apps/web/lib/markets/data.ts): the
 *  instrument, price, curve, position, hedge, event and scenario stores, the
 *  one-time seeding from the market data provider, and the accessors. The
 *  provider's answers and the clock are parameters. */
module MarketsData {
  import opened Wrappers
  import opened Strings
  import opened Seqs
  import opened OMaps
  import opened MarketTypes

  /** The instrument store after the seeding loop: each provider instrument
   *  under its id, a new id last. */
  function SeededInstruments(insts: seq<Instrument>, i0: OMap<string, Instrument>): (r: OMap<string, Instrument>)
    requires i0.Valid()
    ensures r.Valid()
    decreases |insts|
  {
    if |insts| == 0 then i0
    else
      var n := |insts| - 1;
      SeededInstruments(insts[..n], i0).Set(insts[n].id, insts[n])
  }

  /** The price store after the seeding loop: each instrument's 30-day series. */
  function SeededPrices(insts: seq<Instrument>, seriesOf: string -> seq<PricePoint>,
                        p0: map<string, seq<PricePoint>>): map<string, seq<PricePoint>>
    decreases |insts|
  {
    if |insts| == 0 then p0
    else
      var n := |insts| - 1;
      SeededPrices(insts[..n], seriesOf, p0)[insts[n].id := seriesOf(insts[n].id)]
  }

  /** The curve store after the seeding loop: each instrument's forward curve. */
  function SeededCurves(insts: seq<Instrument>, curveOf: string -> ForwardCurve,
                        c0: map<string, ForwardCurve>): map<string, ForwardCurve>
    decreases |insts|
  {
    if |insts| == 0 then c0
    else
      var n := |insts| - 1;
      SeededCurves(insts[..n], curveOf, c0)[insts[n].id := curveOf(insts[n].id)]
  }

  /** One more provider instrument stores it, its series and its curve under
   *  its id. */
  lemma SeededStep(insts: seq<Instrument>, k: nat, seriesOf: string -> seq<PricePoint>,
                   curveOf: string -> ForwardCurve, i0: OMap<string, Instrument>, p0: map<string, seq<PricePoint>>,
                   c0: map<string, ForwardCurve>)
    requires k < |insts| && i0.Valid()
    ensures SeededInstruments(insts[..k + 1], i0) == SeededInstruments(insts[..k], i0).Set(insts[k].id, insts[k])
    ensures SeededPrices(insts[..k + 1], seriesOf, p0) == SeededPrices(insts[..k], seriesOf, p0)[insts[k].id := seriesOf(insts[k].id)]
    ensures SeededCurves(insts[..k + 1], curveOf, c0) == SeededCurves(insts[..k], curveOf, c0)[insts[k].id := curveOf(insts[k].id)]
  {
    assert insts[..k + 1][..k] == insts[..k];
  }

  /** The two seeded crude positions: a physical long and its financial
   *  short. */
  function PhysicalSeed(now: string, end: string): Position {
    Position("pos-phys-1", "Crude Trading", "Physical Arb", "cl-fut", "PHYSICAL", 10000.0, "bbl", 74.50,
             "USD", now, end, ["WTI", "Permian"])
  }

  function FinancialSeed(now: string, end: string): Position {
    Position("pos-fin-1", "Crude Trading", "Physical Arb", "cl-fut", "FINANCIAL", -10000.0, "bbl", 75.10,
             "USD", now, end, ["Hedge", "Short"])
  }

  function SeedLink(now: string): HedgeLink {
    HedgeLink("link-1", "pos-phys-1", "pos-fin-1", 1.0, "Perfect hedge for physical delivery", "system", now)
  }

  /** The stored point `getLatestPrice` builds from a live quote. */
  function LivePoint(id: string, price: real, asOf: string): PricePoint {
    PricePoint(id, asOf, price, "USD", "USD", "LiveProvider", ["REALTIME"])
  }

  /** A symbol or name containing the lowercased query. */
  function NameMatches(lowerQ: string): Instrument -> bool {
    (i: Instrument) => Contains(ToLower(i.symbol), lowerQ) || Contains(ToLower(i.name), lowerQ)
  }

  class MarketStore {
    var instruments: OMap<string, Instrument>
    var prices: map<string, seq<PricePoint>>
    var curves: map<string, ForwardCurve>
    var positions: OMap<string, Position>
    var hedges: map<string, seq<HedgeLink>>
    var events: seq<MarketEvent>
    var scenarios: OMap<string, ScenarioRun>

    ghost predicate Valid()
      reads this
    {
      instruments.Valid() && positions.Valid() && scenarios.Valid()
    }

    /** The stores the seeding loop leaves alone. */
    ghost function Trading(): (OMap<string, Position>, map<string, seq<HedgeLink>>, seq<MarketEvent>, OMap<string, ScenarioRun>)
      reads this
    {
      (positions, hedges, events, scenarios)
    }

    /** The empty stores at module load. */
    constructor()
      ensures Valid()
      ensures instruments == Empty() && prices == map[] && curves == map[]
      ensures positions == Empty() && hedges == map[] && events == [] && scenarios == Empty()
    {
      instruments, prices, curves := Empty(), map[], map[];
      positions, hedges, events, scenarios := Empty(), map[], [], Empty();
    }

    /** The provider loop of `initializeMarketData`: each instrument is
     *  stored with its 30-day series and its curve, in the provider's order. */
    method SeedInstruments(insts: seq<Instrument>, seriesOf: string -> seq<PricePoint>,
                           curveOf: string -> ForwardCurve)
      modifies this
      requires Valid()
      ensures Valid()
      ensures instruments == SeededInstruments(insts, old(instruments))
      ensures prices == SeededPrices(insts, seriesOf, old(prices))
      ensures curves == SeededCurves(insts, curveOf, old(curves))
      ensures Trading() == old(Trading())
    {
      var i0, p0, c0 := instruments, prices, curves;
      var k := 0;
      while k < |insts|
        invariant 0 <= k <= |insts|
        invariant instruments == SeededInstruments(insts[..k], i0)
        invariant prices == SeededPrices(insts[..k], seriesOf, p0)
        invariant curves == SeededCurves(insts[..k], curveOf, c0)
        invariant Trading() == old(Trading())
      {
        SeededStep(insts, k, seriesOf, curveOf, i0, p0, c0);
        var inst := insts[k];
        instruments := instruments.Set(inst.id, inst);
        prices := prices[inst.id := seriesOf(inst.id)];
        curves := curves[inst.id := curveOf(inst.id)];
        k := k + 1;
      }
      assert insts[..|insts|] == insts;
    }

    /** `initializeMarketData`: nothing once an instrument is stored;
     *  otherwise every provider instrument with its 30-day series and curve,
     *  then the two seed positions and their hedge link. */
    method Initialize(insts: seq<Instrument>, seriesOf: string -> seq<PricePoint>, curveOf: string -> ForwardCurve,
                      now: string, end: string)
      modifies this
      requires Valid()
      ensures Valid()
      ensures old(instruments.Size()) > 0 ==>
        && instruments == old(instruments) && prices == old(prices) && curves == old(curves)
        && positions == old(positions) && hedges == old(hedges)
      ensures old(instruments.Size()) == 0 ==>
        && instruments == SeededInstruments(insts, old(instruments))
        && prices == SeededPrices(insts, seriesOf, old(prices))
        && curves == SeededCurves(insts, curveOf, old(curves))
        && positions == old(positions).Set("pos-phys-1", PhysicalSeed(now, end)).Set("pos-fin-1", FinancialSeed(now, end))
        && hedges == old(hedges)["pos-phys-1" := [SeedLink(now)]]
      ensures events == old(events) && scenarios == old(scenarios)
    {
      if instruments.Size() > 0 {
        return;
      }
      SeedInstruments(insts, seriesOf, curveOf);
      positions := positions.Set("pos-phys-1", PhysicalSeed(now, end));
      positions := positions.Set("pos-fin-1", FinancialSeed(now, end));
      hedges := hedges["pos-phys-1" := [SeedLink(now)]];
    }

    /** `getInstruments`: all instruments in insertion order, or those whose
     *  symbol or name contains the query, ignoring case. */
    function GetInstruments(query: Option<string>): (r: seq<Instrument>)
      reads this
      requires Valid()
      ensures query.None? || query.value == "" ==> r == instruments.Values()
      ensures query.Some? && query.value != "" ==>
        forall x :: x in r <==> x in instruments.Values() && NameMatches(ToLower(query.value))(x)
    {
      if query.None? || query.value == "" then instruments.Values()
      else Filter(instruments.Values(), NameMatches(ToLower(query.value)))
    }

    function GetInstrument(id: string): (r: Option<Instrument>)
      reads this
      ensures r.Some? <==> id in instruments.entries
      ensures r.Some? ==> r.value == instruments.entries[id]
    {
      instruments.Get(id)
    }

    /** `getLatestPrice`: the live quote when the provider answers (`live`);
     *  otherwise the last stored point, and nothing when none is stored. */
    function GetLatestPrice(id: string, live: Option<(real, string)>): (r: Option<PricePoint>)
      reads this
      ensures live.Some? ==> r == Some(LivePoint(id, live.value.0, live.value.1))
      ensures live.None? && id in prices && |prices[id]| > 0 ==> r == Some(prices[id][|prices[id]| - 1])
      ensures live.None? && (id !in prices || |prices[id]| == 0) ==> r.None?
    {
      if live.Some? then Some(LivePoint(id, live.value.0, live.value.1))
      else if id in prices && |prices[id]| > 0 then Some(prices[id][|prices[id]| - 1])
      else None
    }

    /** `getPriceSeries`: the stored series, or none. */
    function GetPriceSeries(id: string): (r: seq<PricePoint>)
      reads this
      ensures id in prices ==> r == prices[id]
      ensures id !in prices ==> r == []
    {
      if id in prices then prices[id] else []
    }

    function GetForwardCurve(id: string): (r: Option<ForwardCurve>)
      reads this
      ensures r.Some? <==> id in curves
      ensures r.Some? ==> r.value == curves[id]
    {
      if id in curves then Some(curves[id]) else None
    }

    function GetPositions(): (r: seq<Position>)
      reads this
      requires Valid()
      ensures forall p :: p in r <==> p in positions.entries.Values
    {
      var r := positions.Values();
      assert forall p :: p in positions.entries.Values ==> p in r by {
        forall p | p in positions.entries.Values ensures p in r {
          var k :| k in positions.entries && positions.entries[k] == p;
          var i :| 0 <= i < |positions.keys| && positions.keys[i] == k;
          assert r[i] == p;
        }
      }
      r
    }

    function GetPosition(id: string): (r: Option<Position>)
      reads this
      ensures r.Some? <==> id in positions.entries
      ensures r.Some? ==> r.value == positions.entries[id]
    {
      positions.Get(id)
    }

    /** `createPosition`: stores the position under its id, replacing any
     *  position with that id. */
    method CreatePosition(pos: Position) returns (r: Position)
      modifies this
      requires Valid()
      ensures Valid() && r == pos
      ensures positions == old(positions).Set(pos.id, pos)
      ensures instruments == old(instruments) && prices == old(prices) && curves == old(curves)
      ensures hedges == old(hedges) && events == old(events) && scenarios == old(scenarios)
    {
      positions := positions.Set(pos.id, pos);
      r := pos;
    }

    /** `getHedges`: the links of a physical position, or none. */
    function GetHedges(physicalPositionId: string): (r: seq<HedgeLink>)
      reads this
      ensures physicalPositionId in hedges ==> r == hedges[physicalPositionId]
      ensures physicalPositionId !in hedges ==> r == []
    {
      if physicalPositionId in hedges then hedges[physicalPositionId] else []
    }

    /** `linkHedge`: one more link at the end of the physical position's
     *  list. */
    method LinkHedge(link: HedgeLink) returns (r: HedgeLink)
      modifies this
      requires Valid()
      ensures Valid() && r == link
      ensures hedges == old(hedges)[link.physicalPositionId := old(GetHedges(link.physicalPositionId)) + [link]]
      ensures instruments == old(instruments) && prices == old(prices) && curves == old(curves)
      ensures positions == old(positions) && events == old(events) && scenarios == old(scenarios)
    {
      var existing := GetHedges(link.physicalPositionId);
      existing := existing + [link];
      hedges := hedges[link.physicalPositionId := existing];
      r := link;
    }

    function GetEvents(): seq<MarketEvent>
      reads this
    {
      events
    }

    /** `addEvent`: one more event at the end. */
    method AddEvent(event: MarketEvent)
      modifies this
      requires Valid()
      ensures Valid()
      ensures events == old(events) + [event]
      ensures instruments == old(instruments) && prices == old(prices) && curves == old(curves)
      ensures positions == old(positions) && hedges == old(hedges) && scenarios == old(scenarios)
    {
      events := events + [event];
    }

    /** `createScenarioRun`: stores the run under its id. */
    method CreateScenarioRun(run: ScenarioRun) returns (r: ScenarioRun)
      modifies this
      requires Valid()
      ensures Valid() && r == run
      ensures scenarios == old(scenarios).Set(run.id, run)
      ensures instruments == old(instruments) && prices == old(prices) && curves == old(curves)
      ensures positions == old(positions) && hedges == old(hedges) && events == old(events)
    {
      scenarios := scenarios.Set(run.id, run);
      r := run;
    }

    function GetScenarioRun(id: string): (r: Option<ScenarioRun>)
      reads this
      ensures r.Some? <==> id in scenarios.entries
      ensures r.Some? ==> r.value == scenarios.entries[id]
    {
      scenarios.Get(id)
    }

    function ListScenarioRuns(): (r: seq<ScenarioRun>)
      reads this
      requires Valid()
      ensures |r| == |scenarios.keys|
      ensures forall i :: 0 <= i < |r| ==> r[i] == scenarios.entries[scenarios.keys[i]]
    {
      scenarios.Values()
    }
  }

  // ---------------------------------------------------------------- lemmas

  /** After seeding, every provider instrument is stored with its series and
   *  curve under its id. */
  lemma {:induction false} SeededStoresInstrument(insts: seq<Instrument>, k: nat,
                                                 seriesOf: string -> seq<PricePoint>, curveOf: string -> ForwardCurve)
    requires k < |insts|
    ensures var id := insts[k].id;
      var prices := SeededPrices(insts, seriesOf, map[]);
      var curves := SeededCurves(insts, curveOf, map[]);
      id in SeededInstruments(insts, Empty()).entries
      && id in prices && prices[id] == seriesOf(id) && id in curves && curves[id] == curveOf(id)
  {
    SeededInstrumentsHas(insts, k);
    SeededPricesHas(insts, k, seriesOf);
    SeededCurvesHas(insts, k, curveOf);
  }

  lemma {:induction false} SeededInstrumentsHas(insts: seq<Instrument>, k: nat)
    requires k < |insts|
    ensures insts[k].id in SeededInstruments(insts, Empty()).entries
    decreases |insts|
  {
    var n := |insts| - 1;
    if k < n {
      SeededInstrumentsHas(insts[..n], k);
      assert insts[..n][k] == insts[k];
    }
  }

  lemma {:induction false} SeededPricesHas(insts: seq<Instrument>, k: nat, seriesOf: string -> seq<PricePoint>)
    requires k < |insts|
    ensures var prices := SeededPrices(insts, seriesOf, map[]);
      insts[k].id in prices && prices[insts[k].id] == seriesOf(insts[k].id)
    decreases |insts|
  {
    var n := |insts| - 1;
    if k < n {
      SeededPricesHas(insts[..n], k, seriesOf);
      assert insts[..n][k] == insts[k];
    }
  }

  lemma {:induction false} SeededCurvesHas(insts: seq<Instrument>, k: nat, curveOf: string -> ForwardCurve)
    requires k < |insts|
    ensures var curves := SeededCurves(insts, curveOf, map[]);
      insts[k].id in curves && curves[insts[k].id] == curveOf(insts[k].id)
    decreases |insts|
  {
    var n := |insts| - 1;
    if k < n {
      SeededCurvesHas(insts[..n], k, curveOf);
      assert insts[..n][k] == insts[k];
    }
  }

  /** Seeding leaves the instrument store empty only when the provider gave
   *  no instrument, so a later call returns at once. */
  lemma {:induction false} SeededIsEmptyOnlyForNoInstruments(insts: seq<Instrument>)
    ensures SeededInstruments(insts, Empty()).Size() == 0 <==> |insts| == 0
    decreases |insts|
  {
    if |insts| > 0 {
      var n := |insts| - 1;
      SeededIsEmptyOnlyForNoInstruments(insts[..n]);
    }
  }

  /** A second link for the same physical position keeps the first. */
  lemma LinksAccumulate(hedges: map<string, seq<HedgeLink>>, a: HedgeLink, b: HedgeLink)
    requires a.physicalPositionId == b.physicalPositionId
    ensures var pid := a.physicalPositionId;
      var h1 := hedges[pid := (if pid in hedges then hedges[pid] else []) + [a]];
      var h2 := h1[pid := h1[pid] + [b]];
      h2[pid] == (if pid in hedges then hedges[pid] else []) + [a, b]
  {
  }
}
