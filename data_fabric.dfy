/** The data source registry (apps/web/lib/data-fabric/registry.ts): five
 *  known sources and the provenance record built from one of them, with the
 *  synthetic demo engine standing in for an unknown id. The clock is a
 *  parameter. */
module DataFabric {
  import opened Wrappers

  datatype DataSource = DataSource(
    id: string, name: string, url: string, updateFrequency: string, license: string, status: string)

  /** The provenance attached to an answer; every field but the first three
   *  may be absent. */
  datatype Provenance = Provenance(
    sourceName: string, sourceUrl: string, retrievedAt: string, notes: Option<string>,
    cachePolicy: Option<string>)

  const DemoSource := DataSource("petrosquare-demo", "PetroSquare Synthetic Data Engine",
                                 "internal://demo-generator", "realtime", "Proprietary", "beta")

  /** `DATA_SOURCES`. */
  function DataSources(): (r: map<string, DataSource>)
    ensures r.Keys == {"eia-api", "cer-open-data", "noaa-weather", "sec-edgar", "petrosquare-demo"}
    ensures forall k :: k in r ==> r[k].id == k
  {
    map[
      "eia-api" := DataSource("eia-api", "US Energy Information Administration (EIA)", "https://api.eia.gov/v2/",
                              "daily", "Public Domain", "active"),
      "cer-open-data" := DataSource("cer-open-data", "Canada Energy Regulator (CER)",
                                    "https://www.cer-rec.gc.ca/en/data-analysis/", "monthly",
                                    "Open Government Licence - Canada", "active"),
      "noaa-weather" := DataSource("noaa-weather", "NOAA National Weather Service", "https://api.weather.gov/",
                                   "realtime", "Public Domain", "active"),
      "sec-edgar" := DataSource("sec-edgar", "SEC EDGAR", "https://www.sec.gov/edgar/", "daily", "Public Domain",
                                "active"),
      "petrosquare-demo" := DemoSource]
  }

  /** `DATA_SOURCES[sourceId] || DATA_SOURCES['petrosquare-demo']`. */
  function Resolve(sourceId: string): (r: DataSource)
    ensures sourceId in DataSources() ==> r == DataSources()[sourceId]
    ensures sourceId !in DataSources() ==> r == DemoSource
  {
    if sourceId in DataSources() then DataSources()[sourceId] else DemoSource
  }

  /** `createProvenance`: the resolved source's name and address, the notes
   *  as given, and a one-hour cache policy. */
  function CreateProvenance(sourceId: string, notes: Option<string>, now: string): (r: Provenance)
    ensures r.sourceName == Resolve(sourceId).name && r.sourceUrl == Resolve(sourceId).url
    ensures r.retrievedAt == now && r.notes == notes && r.cachePolicy == Some("max-age=3600")
  {
    var source := Resolve(sourceId);
    Provenance(source.name, source.url, now, notes, Some("max-age=3600"))
  }

  // ---------------------------------------------------------------- lemmas

  /** The portfolio routes name sources the registry does not hold, so their
   *  answers are credited to the demo engine. */
  lemma PortfolioSourcesFallBack(notes: Option<string>, now: string)
    ensures CreateProvenance("petrosquare-ai-assistant", notes, now).sourceName == DemoSource.name
    ensures CreateProvenance("petrosquare-portfolio-engine", notes, now).sourceUrl == "internal://demo-generator"
  {
  }

  /** Naming the demo engine and naming an unknown source give the same
   *  record. */
  lemma UnknownIsDemo(sourceId: string, notes: Option<string>, now: string)
    requires sourceId !in DataSources()
    ensures CreateProvenance(sourceId, notes, now) == CreateProvenance("petrosquare-demo", notes, now)
  {
  }
}
