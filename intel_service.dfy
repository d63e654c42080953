/** The intelligence service (apps/web/lib/intel/service.ts): rule-based
 *  signals evaluated on every save, item CRUD over the global store, and the
 *  review flow draft -> in review -> published (or back to draft).
 *
 *  The random part of each id (`uuidv4().slice(0, n)`) and the clock are
 *  parameters; `eventIds(k)` names the `k`-th event raised by one
 *  evaluation. */
module IntelService {
  import opened Wrappers
  import opened Strings
  import opened Seqs
  import opened Sorting
  import opened Filters
  import opened IntelData

  // ------------------------------------------------------------ signal rules

  /** The text a rule on `field` reads; sources may be absent and any other
   *  field reads as the empty string. */
  function FieldText(item: IntelItem, field: string): Option<string> {
    if field == "title" then Some(item.title)
    else if field == "content" then Some(item.contentText)
    else if field == "source" then item.sourceName
    else Some("")
  }

  /** Tag and entity names compare case-sensitively, by equals or contains. */
  predicate NameMatches(operator: string, name: string, value: string) {
    (operator == "equals" && name == value) || (operator == "contains" && Contains(name, value))
  }

  /** Lower-cased texts compare by equals, contains or starts_with. */
  predicate TextMatches(operator: string, text: string, target: string) {
    (operator == "equals" && text == target)
    || (operator == "contains" && Contains(text, target))
    || (operator == "starts_with" && StartsWith(text, target))
  }

  /** `matchRule`. */
  predicate MatchRule(item: IntelItem, rule: SignalRule) {
    if rule.field == "tag" then
      exists i | 0 <= i < |item.tags| :: NameMatches(rule.operator, item.tags[i].name, rule.value)
    else if rule.field == "entity" then
      exists i | 0 <= i < |item.entities| :: NameMatches(rule.operator, item.entities[i].name, rule.value)
    else
      var text := FieldText(item, rule.field);
      Given(text) && TextMatches(rule.operator, ToLower(text.value), ToLower(rule.value))
  }

  /** A signal fires on an item when it is enabled, has rules, and every rule
   *  matches. */
  predicate Fires(signal: IntelSignal, item: IntelItem) {
    signal.isEnabled && |signal.rules| > 0
    && forall i | 0 <= i < |signal.rules| :: MatchRule(item, signal.rules[i])
  }

  predicate HasEvent(events: seq<IntelSignalEvent>, signalId: string, itemId: string) {
    exists i | 0 <= i < |events| :: events[i].signalId == signalId && events[i].itemId == itemId
  }

  function SignalEvent(signal: IntelSignal, item: IntelItem, now: int, id: string): IntelSignalEvent {
    IntelSignalEvent("evt-" + id, signal.id, signal.name, item.id, item.title, signal.rules, now)
  }

  predicate Enabled(s: IntelSignal) {
    s.isEnabled
  }

  /** The events `evaluateSignals` raises for `item`: one per firing signal,
   *  in signal order, unless the pair already has an event in `events`. */
  function NewSignalEvents(signals: seq<IntelSignal>, events: seq<IntelSignalEvent>, item: IntelItem,
                           now: int, eventIds: nat -> string): seq<IntelSignalEvent>
    decreases |signals|
  {
    if |signals| == 0 then []
    else
      var n := |signals| - 1;
      var before := NewSignalEvents(signals[..n], events, item, now, eventIds);
      before + (if Fires(signals[n], item) && !HasEvent(events, signals[n].id, item.id)
                then [SignalEvent(signals[n], item, now, eventIds(|before|))] else [])
  }

  // ------------------------------------------------------------------ filters

  /** The optional filters of `getIntelItems`; empty strings are ignored. */
  datatype ItemFilters = ItemFilters(
    status: Option<string>, kind: Option<string>, query: Option<string>,
    tag: Option<string>, entity: Option<string>)

  const NoItemFilters := ItemFilters(None, None, None, None, None)

  predicate NoFilters(f: ItemFilters) {
    !Given(f.status) && !Given(f.kind) && !Given(f.query) && !Given(f.tag) && !Given(f.entity)
  }

  /** An item passes every given filter: equal status and type, a tag and an
   *  entity named or identified by the filter value, and the query occurring
   *  in title or content ignoring case. */
  predicate ItemMatches(f: ItemFilters, i: IntelItem) {
    (!Given(f.status) || i.status == f.status.value)
    && (!Given(f.kind) || i.kind == f.kind.value)
    && (!Given(f.tag) || exists k | 0 <= k < |i.tags| :: i.tags[k].name == f.tag.value || i.tags[k].id == f.tag.value)
    && (!Given(f.entity) || exists k | 0 <= k < |i.entities| ::
          i.entities[k].name == f.entity.value || i.entities[k].id == f.entity.value)
    && (!Given(f.query) || Contains(ToLower(i.title), ToLower(f.query.value))
                        || Contains(ToLower(i.contentText), ToLower(f.query.value)))
  }

  /** Newest first by creation time. */
  predicate NewerItem(a: IntelItem, b: IntelItem) {
    a.createdAt >= b.createdAt
  }

  /** The items `getIntelItems(f)` returns. */
  function Selected(items: seq<IntelItem>, f: ItemFilters): (r: seq<IntelItem>)
    ensures SortedBy(r, NewerItem)
    ensures forall x :: x in r <==> x in items && ItemMatches(f, x)
    ensures multiset(r) == multiset(Filter(items, (x: IntelItem) => ItemMatches(f, x)))
  {
    var kept := Filter(items, (x: IntelItem) => ItemMatches(f, x));
    var r := SortBy(kept, NewerItem);
    SameMembers(kept, r);
    r
  }

  /** The merge payload of `updateIntelItem`, a `Partial<IntelItem>`: every
   *  key of an item, `None` where it is absent; `updatedAt` is overwritten. */
  datatype ItemUpdates = ItemUpdates(
    id: Option<string>, orgId: Option<string>, kind: Option<string>, title: Option<string>,
    contentText: Option<string>, sourceUrl: Option<string>, sourceName: Option<string>,
    authorId: Option<string>, status: Option<string>, entities: Option<seq<IntelEntity>>,
    tags: Option<seq<IntelTag>>, reviews: Option<seq<IntelReview>>, publishedAt: Option<int>,
    createdAt: Option<int>, updatedAt: Option<int>)

  const NoUpdates := ItemUpdates(None, None, None, None, None, None, None, None, None, None,
                                 None, None, None, None, None)

  /** `{ ...item, ...updates, updated_at }`. */
  function MergeItem(item: IntelItem, u: ItemUpdates, now: int): IntelItem {
    item.(id := u.id.GetOr(item.id),
          orgId := u.orgId.GetOr(item.orgId),
          kind := u.kind.GetOr(item.kind),
          title := u.title.GetOr(item.title),
          contentText := u.contentText.GetOr(item.contentText),
          sourceUrl := if u.sourceUrl.Some? then u.sourceUrl else item.sourceUrl,
          sourceName := if u.sourceName.Some? then u.sourceName else item.sourceName,
          authorId := u.authorId.GetOr(item.authorId),
          status := u.status.GetOr(item.status),
          entities := u.entities.GetOr(item.entities),
          tags := u.tags.GetOr(item.tags),
          reviews := u.reviews.GetOr(item.reviews),
          publishedAt := if u.publishedAt.Some? then u.publishedAt else item.publishedAt,
          createdAt := u.createdAt.GetOr(item.createdAt),
          updatedAt := now)
  }

  /** The fields a caller may leave out of `createIntelItem`. */
  datatype ItemDraft = ItemDraft(
    kind: Option<string>, title: Option<string>, contentText: Option<string>,
    sourceUrl: Option<string>, sourceName: Option<string>,
    entities: Option<seq<IntelEntity>>, tags: Option<seq<IntelTag>>)

  /** A new item: a draft of org-1 with no reviews, of type NOTE and titled
   *  'Untitled' unless the draft says otherwise. */
  function NewItem(draft: ItemDraft, userId: string, hex8: string, now: int): (r: IntelItem)
    ensures r.status == "DRAFT" && r.reviews == [] && r.publishedAt.None?
    ensures r.kind == (if Given(draft.kind) then draft.kind.value else "NOTE")
    ensures r.title == (if Given(draft.title) then draft.title.value else "Untitled")
    ensures r.authorId == userId && r.createdAt == now && r.updatedAt == now
  {
    IntelItem("item-" + hex8, "org-1",
              if Given(draft.kind) then draft.kind.value else "NOTE",
              if Given(draft.title) then draft.title.value else "Untitled",
              if Given(draft.contentText) then draft.contentText.value else "",
              draft.sourceUrl, draft.sourceName, userId, "DRAFT",
              draft.entities.GetOr([]), draft.tags.GetOr([]), [], None, now, now)
  }

  predicate HasId(id: string, i: IntelItem) {
    i.id == id
  }

  function Review(itemId: string, reviewerId: string, status: string, comments: Option<string>,
                  hex8: string, now: int): IntelReview {
    IntelReview("rev-" + hex8, itemId, reviewerId, status, comments, now)
  }

  datatype SignalDraft = SignalDraft(name: Option<string>, rules: Option<seq<SignalRule>>, isEnabled: Option<bool>)

  /** A new signal of org-1: named 'New Signal', without rules and enabled,
   *  unless the draft says otherwise. */
  function NewSignal(draft: SignalDraft, hex6: string, now: int): (r: IntelSignal)
    ensures r.name == (if Given(draft.name) then draft.name.value else "New Signal")
    ensures r.rules == draft.rules.GetOr([])
    ensures r.isEnabled <==> draft.isEnabled != Some(false)
  {
    IntelSignal("sig-" + hex6, "org-1", if Given(draft.name) then draft.name.value else "New Signal",
                draft.rules.GetOr([]), draft.isEnabled.GetOr(true), now, now)
  }

  datatype Digest = Digest(date: string, items: seq<IntelItem>, signals: seq<IntelSignalEvent>)

  predicate InDay(t: int, dayStart: int, dayEnd: int) {
    dayStart <= t <= dayEnd
  }

  // --------------------------------------------------------------- operations

  /** `evaluateSignals`: appends the new events after the existing ones. */
  method EvaluateSignals(s: IntelStore, item: IntelItem, now: int, eventIds: nat -> string)
    requires s.Loaded()
    modifies s
    ensures s.Loaded()
    ensures s.signalEvents == Some(old(s.GetSignalEvents())
      + NewSignalEvents(Filter(old(s.GetSignals()), Enabled), old(s.GetSignalEvents()), item, now, eventIds))
    ensures s.items == old(s.items) && s.signals == old(s.signals) && s.tags == old(s.tags)
    ensures s.entities == old(s.entities) && s.collections == old(s.collections)
  {
    var signals := Filter(s.GetSignals(), Enabled);
    var events := s.GetSignalEvents();
    var newEvents := CollectSignalEvents(signals, events, item, now, eventIds);
    if |newEvents| > 0 {
      s.SetSignalEvents(events + newEvents);
    } else {
      assert events + newEvents == events;
    }
  }

  /** The loop of `evaluateSignals`: walks the enabled signals in order and collects
   *  one event per signal with rules that all match the item, skipping a
   *  (signal, item) pair that already has an event. */
  method CollectSignalEvents(signals: seq<IntelSignal>, events: seq<IntelSignalEvent>, item: IntelItem,
                             now: int, eventIds: nat -> string)
    returns (newEvents: seq<IntelSignalEvent>)
    requires forall k :: 0 <= k < |signals| ==> signals[k].isEnabled
    ensures newEvents == NewSignalEvents(signals, events, item, now, eventIds)
  {
    newEvents := [];
    var i := 0;
    while i < |signals|
      invariant 0 <= i <= |signals|
      invariant newEvents == NewSignalEvents(signals[..i], events, item, now, eventIds)
    {
      var signal := signals[i];
      NewSignalEventsStep(signals, i, events, item, now, eventIds);
      if |signal.rules| != 0 {
        var allMatch := forall k | 0 <= k < |signal.rules| :: MatchRule(item, signal.rules[k]);
        if allMatch {
          var exists_ := HasEvent(events, signal.id, item.id);
          if !exists_ {
            newEvents := newEvents + [SignalEvent(signal, item, now, eventIds(|newEvents|))];
          }
        }
      }
      i := i + 1;
    }
    assert signals[..|signals|] == signals;
  }

  /** `getIntelItems`. With no filter the store's own array is sorted in
   *  place, so the store comes back newest first; a filtered call sorts a
   *  copy. */
  method GetIntelItems(s: IntelStore, f: ItemFilters) returns (r: seq<IntelItem>)
    requires s.Loaded()
    modifies s
    ensures s.Loaded()
    ensures r == Selected(old(s.GetItems()), f)
    ensures NoFilters(f) ==> s.items == Some(r)
    ensures !NoFilters(f) ==> s.items == old(s.items)
    ensures s.signalEvents == old(s.signalEvents) && s.signals == old(s.signals) && s.tags == old(s.tags)
  {
    r := Selected(s.GetItems(), f);
    if NoFilters(f) {
      s.SetItems(r);
    }
  }

  /** `getIntelItemById`: the first item with that id. */
  function GetIntelItemById(s: IntelStore, id: string): (r: Option<IntelItem>)
    reads s
    requires s.Loaded()
    ensures r.Some? ==> r.value in s.GetItems() && r.value.id == id
    ensures r.None? <==> forall i :: 0 <= i < |s.GetItems()| ==> s.GetItems()[i].id != id
  {
    Find(s.GetItems(), (i: IntelItem) => HasId(id, i))
  }

  /** `createIntelItem`: the new draft goes to the front of the store and
   *  the signals are evaluated on it. */
  method CreateIntelItem(s: IntelStore, draft: ItemDraft, userId: string, hex8: string, now: int,
                         eventIds: nat -> string)
    returns (item: IntelItem)
    requires s.Loaded()
    modifies s
    ensures s.Loaded()
    ensures item == NewItem(draft, userId, hex8, now)
    ensures s.items == Some([item] + old(s.GetItems()))
    ensures s.signalEvents == Some(old(s.GetSignalEvents())
      + NewSignalEvents(Filter(old(s.GetSignals()), Enabled), old(s.GetSignalEvents()), item, now, eventIds))
    ensures s.signals == old(s.signals) && s.tags == old(s.tags)
  {
    item := NewItem(draft, userId, hex8, now);
    s.SetItems([item] + s.GetItems());
    EvaluateSignals(s, item, now, eventIds);
  }

  /** `updateIntelItem`: nothing happens for an unknown id; otherwise the
   *  first item with that id is replaced at its index by the merge, and the
   *  signals are evaluated on the result. */
  method UpdateIntelItem(s: IntelStore, id: string, u: ItemUpdates, now: int, eventIds: nat -> string)
    returns (r: Option<IntelItem>)
    requires s.Loaded()
    modifies s
    ensures s.Loaded()
    ensures var k := FirstIndex(old(s.GetItems()), (i: IntelItem) => HasId(id, i));
      && (k < 0 ==> r.None? && s.items == old(s.items) && s.signalEvents == old(s.signalEvents))
      && (k >= 0 ==>
            r == Some(MergeItem(old(s.GetItems())[k], u, now))
            && s.items == Some(old(s.GetItems())[k := r.value])
            && s.signalEvents == Some(old(s.GetSignalEvents())
                 + NewSignalEvents(Filter(old(s.GetSignals()), Enabled), old(s.GetSignalEvents()), r.value, now, eventIds)))
    ensures s.signals == old(s.signals) && s.tags == old(s.tags)
  {
    var items := s.GetItems();
    var idx := FirstIndex(items, (i: IntelItem) => HasId(id, i));
    if idx == -1 {
      return None;
    }
    var updated := MergeItem(items[idx], u, now);
    s.SetItems(items[idx := updated]);
    EvaluateSignals(s, updated, now, eventIds);
    r := Some(updated);
  }

  /** `deleteIntelItem`: false, and nothing removed, when no item has the id;
   *  otherwise every item with the id is removed. */
  method DeleteIntelItem(s: IntelStore, id: string) returns (deleted: bool)
    requires s.Loaded()
    modifies s
    ensures s.Loaded()
    ensures deleted <==> exists i :: 0 <= i < |old(s.GetItems())| && old(s.GetItems())[i].id == id
    ensures deleted ==> s.items == Some(Filter(old(s.GetItems()), (i: IntelItem) => !HasId(id, i)))
    ensures !deleted ==> s.items == old(s.items)
    ensures s.signalEvents == old(s.signalEvents) && s.signals == old(s.signals) && s.tags == old(s.tags)
  {
    var items := s.GetItems();
    var kept := Filter(items, (i: IntelItem) => !HasId(id, i));
    FilterKeepsAllIff(items, id);
    if |kept| == |items| {
      return false;
    }
    s.SetItems(kept);
    deleted := true;
  }

  /** `submitIntelItem`: moves the item to IN_REVIEW, from any status. */
  method SubmitIntelItem(s: IntelStore, id: string, now: int, eventIds: nat -> string)
    returns (r: Option<IntelItem>)
    requires s.Loaded()
    modifies s
    ensures s.Loaded()
    ensures var k := FirstIndex(old(s.GetItems()), (i: IntelItem) => HasId(id, i));
      && (k < 0 ==> r.None? && s.items == old(s.items))
      && (k >= 0 ==> r == Some(old(s.GetItems())[k].(status := "IN_REVIEW", updatedAt := now))
                     && s.items == Some(old(s.GetItems())[k := r.value]))
    ensures r.None? ==> s.signalEvents == old(s.signalEvents)
    ensures r.Some? ==> s.signalEvents == Some(old(s.GetSignalEvents())
      + NewSignalEvents(Filter(old(s.GetSignals()), Enabled), old(s.GetSignalEvents()), r.value, now, eventIds))
    ensures s.signals == old(s.signals) && s.tags == old(s.tags)
  {
    r := UpdateIntelItem(s, id, NoUpdates.(status := Some("IN_REVIEW")), now, eventIds);
  }

  /** `approveIntelItem`: records an APPROVED review and publishes the item,
   *  from any status. */
  method ApproveIntelItem(s: IntelStore, id: string, reviewerId: string, comments: Option<string>,
                          revHex8: string, now: int, eventIds: nat -> string)
    returns (r: Option<IntelItem>)
    requires s.Loaded()
    modifies s
    ensures s.Loaded()
    ensures var k := FirstIndex(old(s.GetItems()), (i: IntelItem) => HasId(id, i));
      && (k < 0 ==> r.None? && s.items == old(s.items))
      && (k >= 0 ==>
            var item := old(s.GetItems())[k];
            r == Some(item.(status := "PUBLISHED", publishedAt := Some(now), updatedAt := now,
                            reviews := item.reviews + [Review(id, reviewerId, "APPROVED", comments, revHex8, now)]))
            && s.items == Some(old(s.GetItems())[k := r.value]))
    ensures r.None? ==> s.signalEvents == old(s.signalEvents)
    ensures r.Some? ==> s.signalEvents == Some(old(s.GetSignalEvents())
      + NewSignalEvents(Filter(old(s.GetSignals()), Enabled), old(s.GetSignalEvents()), r.value, now, eventIds))
    ensures s.signals == old(s.signals) && s.tags == old(s.tags)
  {
    var found := GetIntelItemById(s, id);
    ghost var k := FirstIndex(s.GetItems(), (i: IntelItem) => HasId(id, i));
    if found.None? {
      return None;
    }
    assert found.value == s.GetItems()[k];
    var review := Review(id, reviewerId, "APPROVED", comments, revHex8, now);
    r := UpdateIntelItem(s, id, NoUpdates.(status := Some("PUBLISHED"), publishedAt := Some(now),
                                           reviews := Some(found.value.reviews + [review])), now, eventIds);
  }

  /** `rejectIntelItem`: records a REJECTED review and returns the item to
   *  DRAFT, from any status. */
  method RejectIntelItem(s: IntelStore, id: string, reviewerId: string, comments: Option<string>,
                         revHex8: string, now: int, eventIds: nat -> string)
    returns (r: Option<IntelItem>)
    requires s.Loaded()
    modifies s
    ensures s.Loaded()
    ensures var k := FirstIndex(old(s.GetItems()), (i: IntelItem) => HasId(id, i));
      && (k < 0 ==> r.None? && s.items == old(s.items))
      && (k >= 0 ==>
            var item := old(s.GetItems())[k];
            r == Some(item.(status := "DRAFT", updatedAt := now,
                            reviews := item.reviews + [Review(id, reviewerId, "REJECTED", comments, revHex8, now)]))
            && s.items == Some(old(s.GetItems())[k := r.value]))
    ensures r.None? ==> s.signalEvents == old(s.signalEvents)
    ensures r.Some? ==> s.signalEvents == Some(old(s.GetSignalEvents())
      + NewSignalEvents(Filter(old(s.GetSignals()), Enabled), old(s.GetSignalEvents()), r.value, now, eventIds))
    ensures s.signals == old(s.signals) && s.tags == old(s.tags)
  {
    var found := GetIntelItemById(s, id);
    ghost var k := FirstIndex(s.GetItems(), (i: IntelItem) => HasId(id, i));
    if found.None? {
      return None;
    }
    assert found.value == s.GetItems()[k];
    var review := Review(id, reviewerId, "REJECTED", comments, revHex8, now);
    r := UpdateIntelItem(s, id, NoUpdates.(status := Some("DRAFT"), reviews := Some(found.value.reviews + [review])),
                         now, eventIds);
  }

  /** `getIntelFeed`: the published items, newest first (a filtered call,
   *  so the store is not reordered). */
  function GetIntelFeed(s: IntelStore): (r: seq<IntelItem>)
    reads s
    requires s.Loaded()
    ensures SortedBy(r, NewerItem)
    ensures forall x :: x in r <==> x in s.GetItems() && x.status == "PUBLISHED"
    ensures multiset(r) == multiset(Filter(s.GetItems(), Published))
  {
    var f := NoItemFilters.(status := Some("PUBLISHED"));
    FilterSame(s.GetItems(), (x: IntelItem) => ItemMatches(f, x), Published);
    Selected(s.GetItems(), f)
  }

  predicate Published(x: IntelItem) {
    x.status == "PUBLISHED"
  }

  /** `getIntelDigest`, with the local-day bounds of `date` as parameters:
   *  the published items published that day and the signal events raised
   *  that day. */
  function GetIntelDigest(s: IntelStore, date: string, dayStart: int, dayEnd: int): (r: Digest)
    reads s
    requires s.Loaded()
    ensures forall x :: x in r.items <==>
      x in GetIntelFeed(s) && x.publishedAt.Some? && InDay(x.publishedAt.value, dayStart, dayEnd)
    ensures forall e :: e in r.signals <==> e in s.GetSignalEvents() && InDay(e.createdAt, dayStart, dayEnd)
    ensures multiset(r.items) == multiset(Filter(s.GetItems(),
      (i: IntelItem) => Published(i) && i.publishedAt.Some? && InDay(i.publishedAt.value, dayStart, dayEnd)))
    ensures r.signals == Filter(s.GetSignalEvents(), (e: IntelSignalEvent) => InDay(e.createdAt, dayStart, dayEnd))
  {
    var feed := GetIntelFeed(s);
    var sameDay := (i: IntelItem) => i.publishedAt.Some? && InDay(i.publishedAt.value, dayStart, dayEnd);
    FilterPermutation(feed, Filter(s.GetItems(), Published), sameDay);
    FilterFilter(s.GetItems(), Published, sameDay,
      (i: IntelItem) => Published(i) && i.publishedAt.Some? && InDay(i.publishedAt.value, dayStart, dayEnd));
    Digest(date, Filter(feed, sameDay),
           Filter(s.GetSignalEvents(), (e: IntelSignalEvent) => InDay(e.createdAt, dayStart, dayEnd)))
  }

  /** `createIntelTag`: appends a tag of org-1. */
  method CreateIntelTag(s: IntelStore, name: string, color: Option<string>, hex6: string)
    returns (tag: IntelTag)
    requires s.Loaded()
    modifies s
    ensures s.Loaded()
    ensures tag == IntelTag("tag-" + hex6, "org-1", name, color)
    ensures s.tags == Some(old(s.GetTags()) + [tag])
    ensures s.items == old(s.items) && s.signals == old(s.signals) && s.signalEvents == old(s.signalEvents)
  {
    tag := IntelTag("tag-" + hex6, "org-1", name, color);
    s.SetTags(s.GetTags() + [tag]);
  }

  /** `createIntelSignal`: appends the new signal. */
  method CreateIntelSignal(s: IntelStore, draft: SignalDraft, hex6: string, now: int)
    returns (signal: IntelSignal)
    requires s.Loaded()
    modifies s
    ensures s.Loaded()
    ensures signal == NewSignal(draft, hex6, now)
    ensures s.signals == Some(old(s.GetSignals()) + [signal])
    ensures s.items == old(s.items) && s.tags == old(s.tags) && s.signalEvents == old(s.signalEvents)
  {
    signal := NewSignal(draft, hex6, now);
    s.SetSignals(s.GetSignals() + [signal]);
  }

  // ------------------------------------------------------------------ lemmas

  lemma {:induction false} FilterKeepsAllIff(items: seq<IntelItem>, id: string)
    ensures |Filter(items, (i: IntelItem) => !HasId(id, i))| == |items|
            <==> forall i :: 0 <= i < |items| ==> items[i].id != id
    decreases |items|
  {
    if |items| > 0 {
      assert items == [items[0]] + items[1..];
      FilterKeepsAllIff(items[1..], id);
      if items[0].id != id {
        assert forall i :: 0 <= i < |items[1..]| ==> items[1..][i] == items[i + 1];
      }
    }
  }

  /** Text rules ignore case on both sides: lower-casing the rule value or
   *  the item's title, content and source never changes the outcome. */
  lemma MatchRuleIgnoresCase(item: IntelItem, rule: SignalRule)
    requires rule.field in {"title", "content", "source"}
    ensures MatchRule(item, rule) == MatchRule(item, rule.(value := ToLower(rule.value)))
    ensures MatchRule(item, rule) == MatchRule(item.(title := ToLower(item.title),
                                                     contentText := ToLower(item.contentText),
                                                     sourceName := if item.sourceName.Some?
                                                                   then Some(ToLower(item.sourceName.value))
                                                                   else None), rule)
  {
    ToLowerIdempotent(rule.value);
    ToLowerIdempotent(item.title);
    ToLowerIdempotent(item.contentText);
    if item.sourceName.Some? {
      ToLowerIdempotent(item.sourceName.value);
      assert ToLower(item.sourceName.value) == "" <==> item.sourceName.value == "";
    }
    assert ToLower(item.title) == "" <==> item.title == "";
    assert ToLower(item.contentText) == "" <==> item.contentText == "";
  }

  /** A rule on an empty or absent text, on an unknown field, or with an
   *  unknown operator never matches; tag and entity rules do not support
   *  starts_with. */
  lemma MatchRuleFalseCases(item: IntelItem, rule: SignalRule)
    ensures rule.field !in {"title", "content", "source", "tag", "entity"} ==> !MatchRule(item, rule)
    ensures rule.operator !in {"equals", "contains", "starts_with"} ==> !MatchRule(item, rule)
    ensures rule.field in {"tag", "entity"} && rule.operator == "starts_with" ==> !MatchRule(item, rule)
    ensures rule.field == "source" && !Given(item.sourceName) ==> !MatchRule(item, rule)
  {
  }

  /** Tag names compare exactly, titles ignore case: the seed rule of the
   *  M&A Alert written in lower case matches a title but not a tag. */
  lemma TagRulesAreCaseSensitive(item: IntelItem)
    requires item.title == "M&A" && item.tags == [IntelTag("tag-1", "org-1", "M&A", None)]
    ensures MatchRule(item, SignalRule("title", "equals", "m&a"))
    ensures !MatchRule(item, SignalRule("tag", "equals", "m&a"))
    ensures MatchRule(item, SignalRule("tag", "equals", "M&A"))
  {
    assert ToLower("M&A") == "m&a";
    assert ToLower("m&a") == "m&a";
    assert NameMatches("equals", item.tags[0].name, "M&A");
  }

  lemma NewSignalEventsStep(signals: seq<IntelSignal>, n: nat, events: seq<IntelSignalEvent>,
                            item: IntelItem, now: int, eventIds: nat -> string)
    requires n < |signals|
    ensures var before := NewSignalEvents(signals[..n], events, item, now, eventIds);
      NewSignalEvents(signals[..n + 1], events, item, now, eventIds)
      == before + (if Fires(signals[n], item) && !HasEvent(events, signals[n].id, item.id)
                   then [SignalEvent(signals[n], item, now, eventIds(|before|))] else [])
  {
    assert signals[..n + 1][..n] == signals[..n];
  }

  /** Every raised event is for the item, at `now`, from a signal that fires
   *  on it, and repeats no existing (signal, item) pair. */
  lemma {:induction false} NewSignalEventsSound(signals: seq<IntelSignal>, events: seq<IntelSignalEvent>,
                                                item: IntelItem, now: int, eventIds: nat -> string)
    ensures var nw := NewSignalEvents(signals, events, item, now, eventIds);
      && |nw| <= |signals|
      && forall e :: e in nw ==>
           e.itemId == item.id && e.createdAt == now && !HasEvent(events, e.signalId, e.itemId)
           && exists i :: 0 <= i < |signals| && signals[i].id == e.signalId && Fires(signals[i], item)
                          && e.matchedRules == signals[i].rules
    decreases |signals|
  {
    if |signals| > 0 {
      var n := |signals| - 1;
      assert signals[..n + 1] == signals;
      NewSignalEventsStep(signals, n, events, item, now, eventIds);
      NewSignalEventsSound(signals[..n], events, item, now, eventIds);
      var before := NewSignalEvents(signals[..n], events, item, now, eventIds);
      forall e | e in before
        ensures exists i :: 0 <= i < |signals| && signals[i].id == e.signalId && Fires(signals[i], item)
                            && e.matchedRules == signals[i].rules
      {
        var i :| 0 <= i < n && signals[..n][i].id == e.signalId && Fires(signals[..n][i], item)
                 && e.matchedRules == signals[..n][i].rules;
        assert signals[i] == signals[..n][i];
      }
    }
  }

  /** Every signal that fires on the item and has no event for it yet raises
   *  one. */
  lemma {:induction false} NewSignalEventsComplete(signals: seq<IntelSignal>, events: seq<IntelSignalEvent>,
                                                   item: IntelItem, now: int, eventIds: nat -> string)
    ensures forall i :: 0 <= i < |signals| && Fires(signals[i], item) && !HasEvent(events, signals[i].id, item.id) ==>
      HasEvent(NewSignalEvents(signals, events, item, now, eventIds), signals[i].id, item.id)
    decreases |signals|
  {
    if |signals| > 0 {
      var n := |signals| - 1;
      assert signals[..n + 1] == signals;
      NewSignalEventsStep(signals, n, events, item, now, eventIds);
      NewSignalEventsComplete(signals[..n], events, item, now, eventIds);
      var before := NewSignalEvents(signals[..n], events, item, now, eventIds);
      var nw := NewSignalEvents(signals, events, item, now, eventIds);
      forall i | 0 <= i < |signals| && Fires(signals[i], item) && !HasEvent(events, signals[i].id, item.id)
        ensures HasEvent(nw, signals[i].id, item.id)
      {
        if i < n {
          assert signals[..n][i] == signals[i];
          var j :| 0 <= j < |before| && before[j].signalId == signals[i].id && before[j].itemId == item.id;
          assert nw[j] == before[j];
        } else {
          assert nw[|before|].signalId == signals[i].id;
        }
      }
    }
  }

  /** Nothing is raised once every firing signal has an event for the item. */
  lemma {:induction false} CoveredRaisesNothing(signals: seq<IntelSignal>, events: seq<IntelSignalEvent>,
                                                item: IntelItem, now: int, eventIds: nat -> string)
    requires forall i :: 0 <= i < |signals| && Fires(signals[i], item) ==> HasEvent(events, signals[i].id, item.id)
    ensures NewSignalEvents(signals, events, item, now, eventIds) == []
    decreases |signals|
  {
    if |signals| > 0 {
      var n := |signals| - 1;
      assert forall i :: 0 <= i < n ==> signals[..n][i] == signals[i];
      CoveredRaisesNothing(signals[..n], events, item, now, eventIds);
    }
  }

  /** Evaluating the same item twice raises nothing the second time. */
  lemma EvaluateTwiceRaisesNothing(signals: seq<IntelSignal>, events: seq<IntelSignalEvent>, item: IntelItem,
                                   now: int, later: int, eventIds: nat -> string, laterIds: nat -> string)
    ensures NewSignalEvents(signals, events + NewSignalEvents(signals, events, item, now, eventIds), item, later, laterIds) == []
  {
    var nw := NewSignalEvents(signals, events, item, now, eventIds);
    NewSignalEventsComplete(signals, events, item, now, eventIds);
    forall i | 0 <= i < |signals| && Fires(signals[i], item)
      ensures HasEvent(events + nw, signals[i].id, item.id)
    {
      if HasEvent(events, signals[i].id, item.id) {
        var j :| 0 <= j < |events| && events[j].signalId == signals[i].id && events[j].itemId == item.id;
        assert (events + nw)[j] == events[j];
      } else {
        var j :| 0 <= j < |nw| && nw[j].signalId == signals[i].id && nw[j].itemId == item.id;
        assert (events + nw)[|events| + j] == nw[j];
      }
    }
    CoveredRaisesNothing(signals, events + nw, item, later, laterIds);
  }

  /** Approving and then rejecting an item leaves it a draft with both
   *  reviews recorded in order. */
  lemma ApproveThenReject(item: IntelItem, r1: IntelReview, r2: IntelReview, t1: int, t2: int)
    ensures var approved := MergeItem(item, NoUpdates.(status := Some("PUBLISHED"), publishedAt := Some(t1),
                                                       reviews := Some(item.reviews + [r1])), t1);
      var rejected := MergeItem(approved, NoUpdates.(status := Some("DRAFT"), reviews := Some(approved.reviews + [r2])), t2);
      rejected.status == "DRAFT" && rejected.reviews == item.reviews + [r1, r2]
      && rejected.publishedAt == Some(t1) && rejected.id == item.id
  {
    assert item.reviews + [r1] + [r2] == item.reviews + [r1, r2];
  }

  /** The seed signals raise one event each on an item tagged M&A that
   *  names the Permian Basin. */
  lemma SeedSignalsFire(item: IntelItem, now: int)
    requires |item.tags| > 0 && item.tags[0].name == "M&A"
    requires |item.entities| > 0 && item.entities[0].name == "Permian Basin"
    ensures Fires(SeedSignals(now)[0], item) && Fires(SeedSignals(now)[1], item)
  {
    assert MatchRule(item, SeedSignals(now)[0].rules[0]);
    assert MatchRule(item, SeedSignals(now)[1].rules[0]);
  }
}
