/** The asset service of the map module (apps/web/lib/gis/service.ts): the
 *  asset list narrowed by basin, operator and type, the lookup of one asset,
 *  and the AI summary of a context, where a pre-canned summary wins over one
 *  written from the asset. The simulated delays are left out; the generated
 *  asset list, the pre-canned summaries, number formatting and the clock are
 *  parameters. */
module GisService {
  import opened Wrappers
  import opened Seqs
  import opened Filters

  /** The `GISAsset` fields the service reads. */
  datatype Asset = Asset(
    id: string, name: string, kind: string, status: string, operatorId: string, basinId: string,
    currentProduction: Option<real>, breakevenPrice: real, riskLevel: string, riskScore: real)

  /** The optional filters of `getAssets`. */
  datatype AssetFilters = AssetFilters(basinId: Option<string>, operatorId: Option<string>, kind: Option<string>)

  datatype Summary = Summary(
    contextId: string, contextType: string, generatedAt: string, modelVersion: string,
    sources: seq<string>, confidence: real, markdown: string)

  /** An asset passes every filter that is given. */
  predicate Matches(a: Asset, filters: AssetFilters) {
    MatchesId(filters.basinId, a.basinId) && MatchesId(filters.operatorId, a.operatorId)
    && MatchesId(filters.kind, a.kind)
  }

  function BasinOf(a: Asset): string { a.basinId }
  function OperatorOf(a: Asset): string { a.operatorId }
  function KindOf(a: Asset): string { a.kind }

  /** `if (filter) assets = assets.filter(a => field(a) === filter)`. */
  function Narrow(assets: seq<Asset>, filter: Option<string>, field: Asset -> string): (r: seq<Asset>)
    ensures forall a :: a in r <==> a in assets && MatchesId(filter, field(a))
    ensures |r| <= |assets|
  {
    if Given(filter) then Filter(assets, (a: Asset) => field(a) == filter.value) else assets
  }

  /** `getAssets`: the basin, operator and type filters one after the other,
   *  each only when given. */
  function GetAssets(assets: seq<Asset>, filters: AssetFilters): (r: seq<Asset>)
    ensures forall a :: a in r <==> a in assets && Matches(a, filters)
    ensures |r| <= |assets|
  {
    var byBasin := Narrow(assets, filters.basinId, BasinOf);
    var byOperator := Narrow(byBasin, filters.operatorId, OperatorOf);
    Narrow(byOperator, filters.kind, KindOf)
  }

  /** `getAssetById`: the first asset with the id, or null. */
  function GetAssetById(assets: seq<Asset>, id: string): (r: Option<Asset>)
    ensures r.None? <==> forall i :: 0 <= i < |assets| ==> assets[i].id != id
    ensures r.Some? ==> r.value in assets && r.value.id == id
  {
    Find(assets, (a: Asset) => a.id == id)
  }

  /** The closing clause: `current_production && current_production > 1000`. */
  function Performance(a: Asset): (r: string)
    ensures r == "above" <==> a.currentProduction.Some? && a.currentProduction.value > 1000.0
  {
    if a.currentProduction.Some? && a.currentProduction.value != 0.0 && a.currentProduction.value > 1000.0
    then "above" else "within"
  }

  /** The placeholder summary written from an asset's fields. */
  function AssetSummary(a: Asset, numText: real -> string, now: string): (r: Summary)
    ensures r.contextId == a.id && r.contextType == "ASSET" && r.generatedAt == now
    ensures r.modelVersion == "PetroGPT-3.5-Fast" && r.sources == ["Well Files", "Production History"]
    ensures r.confidence == 0.85
  {
    Summary(a.id, "ASSET", now, "PetroGPT-3.5-Fast", ["Well Files", "Production History"], 0.85,
            "**Asset Summary for " + a.name + "**\n\n*   **Status**: " + a.status
            + "\n*   **Breakeven**: $" + numText(a.breakevenPrice) + "/bbl\n*   **Risk**: " + a.riskLevel
            + " (" + numText(a.riskScore) + "/100)\n\nThis asset is performing " + Performance(a)
            + " expectations.")
  }

  /** `getAISummary`: the pre-canned summary of the context if there is one,
   *  else a summary of the asset with that id, else null. */
  function GetAISummary(summaries: map<string, Summary>, assets: seq<Asset>, contextId: string,
                        numText: real -> string, now: string): (r: Option<Summary>)
    ensures contextId in summaries ==> r == Some(summaries[contextId])
    ensures contextId !in summaries ==>
      (r.None? <==> GetAssetById(assets, contextId).None?)
    ensures contextId !in summaries && r.Some? ==>
      r == Some(AssetSummary(GetAssetById(assets, contextId).value, numText, now))
  {
    if contextId in summaries then Some(summaries[contextId])
    else
      match GetAssetById(assets, contextId)
      case Some(a) => Some(AssetSummary(a, numText, now))
      case None => None
  }

  // ---------------------------------------------------------------- lemmas

  /** One narrowing step is a filter on "the filter is off or matches". */
  lemma {:induction false} NarrowIsFilter(assets: seq<Asset>, filter: Option<string>, field: Asset -> string,
                                          p: Asset -> bool)
    requires forall a :: p(a) == MatchesId(filter, field(a))
    ensures Narrow(assets, filter, field) == Filter(assets, p)
  {
    if Given(filter) {
      FilterSame(assets, (a: Asset) => field(a) == filter.value, p);
    } else {
      FilterAll(assets, p);
    }
  }

  /** The chain of filters is one filter on their conjunction: the answer keeps
   *  the store's order and repeats. */
  lemma {:induction false} GetAssetsIsOneFilter(assets: seq<Asset>, filters: AssetFilters)
    ensures GetAssets(assets, filters) == Filter(assets, (a: Asset) => Matches(a, filters))
  {
    var fb := (a: Asset) => MatchesId(filters.basinId, a.basinId);
    var fo := (a: Asset) => MatchesId(filters.operatorId, a.operatorId);
    var fk := (a: Asset) => MatchesId(filters.kind, a.kind);
    var byBasin := Narrow(assets, filters.basinId, BasinOf);
    var byOperator := Narrow(byBasin, filters.operatorId, OperatorOf);
    NarrowIsFilter(assets, filters.basinId, BasinOf, fb);
    NarrowIsFilter(byBasin, filters.operatorId, OperatorOf, fo);
    NarrowIsFilter(byOperator, filters.kind, KindOf, fk);
    var fbo := (a: Asset) => fb(a) && fo(a);
    FilterFilter(assets, fb, fo, fbo);
    FilterFilter(assets, fbo, fk, (a: Asset) => Matches(a, filters));
  }

  /** Without filters every asset is returned, in order. */
  lemma NoFiltersIsAllAssets(assets: seq<Asset>)
    ensures GetAssets(assets, AssetFilters(None, None, None)) == assets
  {
  }

  /** A pre-canned summary wins even when an asset has the same id. */
  lemma CannedSummaryWins(summaries: map<string, Summary>, assets: seq<Asset>, a: Asset,
                          numText: real -> string, now: string)
    requires a in assets && a.id in summaries
    ensures GetAISummary(summaries, assets, a.id, numText, now) == Some(summaries[a.id])
  {
  }

  /** An asset producing exactly 1000 is reported as within expectations. */
  lemma ThousandIsWithin(a: Asset)
    requires a.currentProduction == Some(1000.0)
    ensures Performance(a) == "within"
  {
  }
}
