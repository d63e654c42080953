/** The intelligence store (apps/web/lib/intel/data.ts): six arrays kept on
 *  the process-global object, each filled with seed data only when it is
 *  still absent, read by getters and replaced wholesale by setters. */
module IntelData {
  import opened Wrappers

  datatype IntelTag = IntelTag(id: string, orgId: string, name: string, color: Option<string>)

  datatype IntelEntity = IntelEntity(id: string, orgId: string, kind: string, name: string, createdAt: int)

  /** `field` is title, content, source, tag or entity; `operator` is equals,
   *  contains or starts_with. */
  datatype SignalRule = SignalRule(field: string, operator: string, value: string)

  datatype IntelSignal = IntelSignal(
    id: string, orgId: string, name: string, rules: seq<SignalRule>,
    isEnabled: bool, createdAt: int, updatedAt: int)

  datatype IntelReview = IntelReview(
    id: string, itemId: string, reviewerId: string, status: string,
    comments: Option<string>, createdAt: int)

  datatype IntelItem = IntelItem(
    id: string, orgId: string, kind: string, title: string, contentText: string,
    sourceUrl: Option<string>, sourceName: Option<string>, authorId: string,
    status: string, entities: seq<IntelEntity>, tags: seq<IntelTag>,
    reviews: seq<IntelReview>, publishedAt: Option<int>, createdAt: int, updatedAt: int)

  /** Collections are only stored, never built, by the core. */
  datatype IntelCollection = IntelCollection(id: string, name: string)

  datatype IntelSignalEvent = IntelSignalEvent(
    id: string, signalId: string, signalName: string, itemId: string,
    itemTitle: string, matchedRules: seq<SignalRule>, createdAt: int)

  // ------------------------------------------------------------------ seed

  function SeedTags(): seq<IntelTag> {
    [IntelTag("tag-1", "org-1", "M&A", Some("#10B981")),
     IntelTag("tag-2", "org-1", "Regulation", Some("#EF4444")),
     IntelTag("tag-3", "org-1", "Market Update", Some("#3B82F6")),
     IntelTag("tag-4", "org-1", "ESG", Some("#F59E0B"))]
  }

  function SeedEntities(now: int): seq<IntelEntity> {
    [IntelEntity("ent-1", "org-1", "COMPANY", "ExxonMobil", now),
     IntelEntity("ent-2", "org-1", "BASIN", "Permian Basin", now),
     IntelEntity("ent-3", "org-1", "ASSET", "Project Alpha", now),
     IntelEntity("ent-4", "org-1", "COMMODITY", "Brent Crude", now)]
  }

  /** Both seed signals are enabled and consist of one `equals` rule. */
  function SeedSignals(now: int): (r: seq<IntelSignal>)
    ensures |r| == 2
    ensures forall i :: 0 <= i < |r| ==> r[i].isEnabled && |r[i].rules| == 1 && r[i].rules[0].operator == "equals"
  {
    [IntelSignal("sig-1", "org-1", "M&A Alert", [SignalRule("tag", "equals", "M&A")], true, now, now),
     IntelSignal("sig-2", "org-1", "Permian Watch", [SignalRule("entity", "equals", "Permian Basin")], true, now, now)]
  }

  function SeedItem1(now: int): (r: IntelItem)
    ensures r.status == "PUBLISHED" && r.publishedAt.Some?
  {
    IntelItem("item-1", "org-1", "NOTE", "Q3 Permian Production Analysis",
              "Production in the Permian Basin has shown a steady increase despite rig count stabilization. Key operators are focusing on efficiency gains.",
              None, None, "user-1", "PUBLISHED", [SeedEntities(now)[1]], [SeedTags()[2]], [],
              Some(now - 86400000), now - 90000000, now - 86400000)
  }

  function SeedItem2(now: int): (r: IntelItem)
    ensures r.status == "IN_REVIEW" && r.publishedAt.None?
  {
    IntelItem("item-2", "org-1", "LINK", "ExxonMobil announces new carbon capture project",
              "Major investment in CCS technology for Gulf Coast operations.",
              Some("https://example.com/news/ccs-project"), Some("Energy News Daily"),
              "user-2", "IN_REVIEW", [SeedEntities(now)[0], SeedEntities(now)[2]], [SeedTags()[3], SeedTags()[0]],
              [IntelReview("rev-1", "item-2", "user-1", "APPROVED", None, now)],
              None, now, now)
  }

  function SeedItem3(now: int): (r: IntelItem)
    ensures r.status == "DRAFT" && r.publishedAt.None?
  {
    IntelItem("item-3", "org-1", "REPORT", "Weekly Market Outlook",
              "Brent prices expected to remain volatile due to geopolitical tensions.",
              None, None, "user-1", "DRAFT", [SeedEntities(now)[3]], [SeedTags()[2]], [], None, now, now)
  }

  function SeedItems(now: int): (r: seq<IntelItem>)
    ensures |r| == 3
  {
    [SeedItem1(now), SeedItem2(now), SeedItem3(now)]
  }

  /** The seed data the module installs. */
  datatype IntelSeed = IntelSeed(
    items: seq<IntelItem>, entities: seq<IntelEntity>, tags: seq<IntelTag>, signals: seq<IntelSignal>)

  function Seed(now: int): IntelSeed {
    IntelSeed(SeedItems(now), SeedEntities(now), SeedTags(), SeedSignals(now))
  }

  // ----------------------------------------------------------------- store

  /** The intel fields of `globalThis`; `None` is a field not yet set. */
  class IntelStore {
    var items: Option<seq<IntelItem>>
    var entities: Option<seq<IntelEntity>>
    var tags: Option<seq<IntelTag>>
    var signals: Option<seq<IntelSignal>>
    var collections: Option<seq<IntelCollection>>
    var signalEvents: Option<seq<IntelSignalEvent>>

    /** A fresh process: nothing is set yet. */
    constructor ()
      ensures items == None && entities == None && tags == None
      ensures signals == None && collections == None && signalEvents == None
    {
      items := None;
      entities := None;
      tags := None;
      signals := None;
      collections := None;
      signalEvents := None;
    }

    /** Every field is set, as it is once the module has been loaded. */
    predicate Loaded()
      reads this
    {
      items.Some? && entities.Some? && tags.Some? && signals.Some?
      && collections.Some? && signalEvents.Some?
    }

    /** The module's load-time initialisation, called with `Seed(now)`: seeds each field that is still
     *  absent and keeps every field that is already set. */
    method Initialize(seed: IntelSeed)
      modifies this
      ensures Loaded()
      ensures items == if old(items).Some? then old(items) else Some(seed.items)
      ensures entities == if old(entities).Some? then old(entities) else Some(seed.entities)
      ensures tags == if old(tags).Some? then old(tags) else Some(seed.tags)
      ensures signals == if old(signals).Some? then old(signals) else Some(seed.signals)
      ensures collections == if old(collections).Some? then old(collections) else Some([])
      ensures signalEvents == if old(signalEvents).Some? then old(signalEvents) else Some([])
    {
      if items.None? { items := Some(seed.items); }
      if entities.None? { entities := Some(seed.entities); }
      if tags.None? { tags := Some(seed.tags); }
      if signals.None? { signals := Some(seed.signals); }
      if collections.None? { collections := Some([]); }
      if signalEvents.None? { signalEvents := Some([]); }
    }

    function GetItems(): seq<IntelItem>
      reads this
      requires Loaded()
    {
      items.value
    }

    function GetTags(): seq<IntelTag>
      reads this
      requires Loaded()
    {
      tags.value
    }

    function GetSignals(): seq<IntelSignal>
      reads this
      requires Loaded()
    {
      signals.value
    }

    function GetSignalEvents(): seq<IntelSignalEvent>
      reads this
      requires Loaded()
    {
      signalEvents.value
    }

    method SetItems(xs: seq<IntelItem>)
      modifies this
      ensures items == Some(xs)
      ensures entities == old(entities) && tags == old(tags) && signals == old(signals)
      ensures collections == old(collections) && signalEvents == old(signalEvents)
    {
      items := Some(xs);
    }

    method SetEntities(xs: seq<IntelEntity>)
      modifies this
      ensures entities == Some(xs)
      ensures items == old(items) && tags == old(tags) && signals == old(signals)
      ensures collections == old(collections) && signalEvents == old(signalEvents)
    {
      entities := Some(xs);
    }

    method SetTags(xs: seq<IntelTag>)
      modifies this
      ensures tags == Some(xs)
      ensures items == old(items) && entities == old(entities) && signals == old(signals)
      ensures collections == old(collections) && signalEvents == old(signalEvents)
    {
      tags := Some(xs);
    }

    method SetSignals(xs: seq<IntelSignal>)
      modifies this
      ensures signals == Some(xs)
      ensures items == old(items) && entities == old(entities) && tags == old(tags)
      ensures collections == old(collections) && signalEvents == old(signalEvents)
    {
      signals := Some(xs);
    }

    method SetCollections(xs: seq<IntelCollection>)
      modifies this
      ensures collections == Some(xs)
      ensures items == old(items) && entities == old(entities) && tags == old(tags)
      ensures signals == old(signals) && signalEvents == old(signalEvents)
    {
      collections := Some(xs);
    }

    method SetSignalEvents(xs: seq<IntelSignalEvent>)
      modifies this
      ensures signalEvents == Some(xs)
      ensures items == old(items) && entities == old(entities) && tags == old(tags)
      ensures signals == old(signals) && collections == old(collections)
    {
      signalEvents := Some(xs);
    }
  }
}
