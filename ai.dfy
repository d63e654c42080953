/** The insight generator (apps/web/lib/ai.ts): a canned text chosen by the
 *  first topic word found in the lowercased context, behind a cache keyed by
 *  `${context}:${prompt}` whose entries last one hour. The clock readings and
 *  the simulated delay are parameters. */
module Ai {
  import opened Wrappers
  import opened Strings

  const Ttl: int := 1000 * 60 * 60

  const Production := "**Production Insight**\n\nCurrent output is stable with a slight upward trend (+2.4%). Basin activity remains high in the Permian, driven by efficiency gains in completions. Risk factors include potential midstream bottlenecks in the next quarter."
  const Markets := "**Market Pulse**\n\nCrude benchmarks are trading range-bound as supply constraints balance demand uncertainty. The WTI forward curve suggests backwardation, indicating tight short-term supply. Crack spreads remain healthy."
  const Gis := "**Geospatial Summary**\n\nAsset concentration is highest in the Permian basin. Recent satellite data indicates new pad construction in the Delaware sub-basin. Environmental sensitivity layers show overlap with critical habitat in the northern sector."
  const Economics := "**Economic Outlook**\n\nBreakeven prices have improved due to cost deflation in services. Project IRR remains robust at current strip prices. Capital efficiency is the primary driver for recent FID approvals."
  const Generic := "**Operational Summary**\n\nMetrics are within nominal ranges. No critical anomalies detected in the current reporting period. Trend analysis suggests stable performance."

  /** `generateMockInsight`: the text of the first of production, markets,
   *  gis and economics that the lowercased context contains, else the
   *  generic summary. */
  function MockInsight(context: string): (r: string)
    ensures Contains(ToLower(context), "production") ==> r == Production
    ensures !Contains(ToLower(context), "production") && Contains(ToLower(context), "markets") ==> r == Markets
    ensures (!Contains(ToLower(context), "production") && !Contains(ToLower(context), "markets")
             && Contains(ToLower(context), "gis")) ==> r == Gis
    ensures (!Contains(ToLower(context), "production") && !Contains(ToLower(context), "markets")
             && !Contains(ToLower(context), "gis") && Contains(ToLower(context), "economics")) ==> r == Economics
    ensures r == Generic <==>
      !Contains(ToLower(context), "production") && !Contains(ToLower(context), "markets")
      && !Contains(ToLower(context), "gis") && !Contains(ToLower(context), "economics")
  {
    var lower := ToLower(context);
    if Contains(lower, "production") then Production
    else if Contains(lower, "markets") then Markets
    else if Contains(lower, "gis") then Gis
    else if Contains(lower, "economics") then Economics
    else Generic
  }

  datatype Entry = Entry(text: string, timestamp: int)

  /** The cache key as written: the context and the prompt joined by a
   *  colon. */
  function CacheKey(context: string, prompt: string): string {
    context + ":" + prompt
  }

  /** An entry younger than an hour at `now` is served. */
  predicate Fresh(cache: map<string, Entry>, key: string, now: int) {
    key in cache && now - cache[key].timestamp < Ttl
  }

  /** The text `generateInsight` gives with the cache as it stands. */
  function Answer(cache: map<string, Entry>, context: string, prompt: string, now: int): string {
    var key := CacheKey(context, prompt);
    if Fresh(cache, key, now) then cache[key].text else MockInsight(context)
  }

  class InsightCache {
    var cache: map<string, Entry>

    constructor()
      ensures cache == map[]
    {
      cache := map[];
    }

    /** `generateInsight`: a fresh cached text as stored; otherwise the canned
     *  text, stored with the time read after the delay (`stored`). */
    method GenerateInsight(context: string, prompt: string, now: int, stored: int) returns (text: string)
      modifies this
      ensures text == Answer(old(cache), context, prompt, now)
      ensures Fresh(old(cache), CacheKey(context, prompt), now) ==> cache == old(cache)
      ensures !Fresh(old(cache), CacheKey(context, prompt), now) ==>
        cache == old(cache)[CacheKey(context, prompt) := Entry(text, stored)]
    {
      var cacheKey := CacheKey(context, prompt);
      if cacheKey in cache && now - cache[cacheKey].timestamp < Ttl {
        return cache[cacheKey].text;
      }
      text := MockInsight(context);
      cache := cache[cacheKey := Entry(text, stored)];
    }
  }

  // ---------------------------------------------------------------- lemmas

  /** A text stored at `t` is served until `t + 1 h` and regenerated from
   *  then on. */
  lemma EntryLastsOneHour(cache: map<string, Entry>, context: string, prompt: string, t: int, now: int)
    requires CacheKey(context, prompt) in cache && cache[CacheKey(context, prompt)].timestamp == t
    ensures now < t + 3600000 ==> Answer(cache, context, prompt, now) == cache[CacheKey(context, prompt)].text
    ensures now >= t + 3600000 ==> Answer(cache, context, prompt, now) == MockInsight(context)
  {
  }

  /** The colon also occurs inside contexts and prompts, so two different
   *  requests share a key: ("x", "gis:y") and ("x:gis", "y"). */
  lemma KeysCollide()
    ensures CacheKey("x", "gis:y") == CacheKey("x:gis", "y")
    ensures MockInsight("x") == Generic
  {
    assert ToLower("x") == "x";
    assert !Contains("x", "production") && !Contains("x", "markets");
    assert !Contains("x", "gis") && !Contains("x", "economics");
  }

  /** Through the shared key, the GIS request within the hour is served the
   *  generic text stored for the other one. */
  lemma CollisionServesOtherText()
    ensures var cache := map[CacheKey("x", "gis:y") := Entry(MockInsight("x"), 0)];
      Answer(cache, "x:gis", "y", 1) == Generic && MockInsight("x:gis") == Gis
  {
    KeysCollide();
    var lower := ToLower("x:gis");
    assert lower == "x:gis";
    assert OccursAt(lower, "gis", 2);
    assert !Contains(lower, "production") && !Contains(lower, "markets");
  }

  // ------------------------------------------------- the intended cache

  /** A cache keyed by the (context, prompt) pair itself. */
  function PairAnswer(cache: map<(string, string), Entry>, context: string, prompt: string, now: int): string {
    var key := (context, prompt);
    if key in cache && now - cache[key].timestamp < Ttl then cache[key].text else MockInsight(context)
  }

  /** Every stored text is the canned text of its own context. */
  predicate Coherent(cache: map<(string, string), Entry>) {
    forall k :: k in cache ==> cache[k].text == MockInsight(k.0)
  }

  /** Keyed by the pair, the cache never changes an answer: every request
   *  gets the canned text of its own context, and storing it keeps the cache
   *  coherent. */
  lemma PairCacheIsTransparent(cache: map<(string, string), Entry>, context: string, prompt: string,
                               now: int, stored: int)
    requires Coherent(cache)
    ensures PairAnswer(cache, context, prompt, now) == MockInsight(context)
    ensures Coherent(cache[(context, prompt) := Entry(MockInsight(context), stored)])
  {
  }
}
