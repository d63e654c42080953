/** The news impact heuristic (apps/web/lib/markets/signals.ts): keywords in
 *  an event's title and summary pick the affected futures and raise a
 *  confidence that starts at one half and is capped at 0.95. Confidences are
 *  integer hundredths. */
module MarketsSignals {
  import opened Wrappers
  import opened Strings
  import opened MarketTypes

  /** `(event.title + " " + event.summary).toLowerCase()`. */
  function EventText(event: MarketEvent): string {
    ToLower(event.title + " " + event.summary)
  }

  predicate MentionsCrude(text: string) { Contains(text, "crude") || Contains(text, "oil") }
  predicate MentionsGas(text: string) { Contains(text, "gas") || Contains(text, "lng") }
  predicate MentionsStorm(text: string) { Contains(text, "hurricane") || Contains(text, "storm") }
  predicate MentionsConflict(text: string) { Contains(text, "sanction") || Contains(text, "war") }

  /** The futures pushed: crude and Brent for crude or oil, then natural gas
   *  for gas or LNG. */
  function Affected(text: string): (r: seq<string>)
    ensures ("cl-fut" in r && "bb-fut" in r) <==> MentionsCrude(text)
    ensures "ng-fut" in r <==> MentionsGas(text)
    ensures forall x :: x in r ==> x in ["cl-fut", "bb-fut", "ng-fut"]
  {
    (if MentionsCrude(text) then ["cl-fut", "bb-fut"] else [])
    + (if MentionsGas(text) then ["ng-fut"] else [])
  }

  function Bonus(mentioned: bool, hundredths: int): int {
    if mentioned then hundredths else 0
  }

  /** The confidence: 50, plus 20, 20, 10 and 20 for the four keyword groups,
   *  then at most 95. */
  function Confidence(text: string): int {
    var sum := 50 + Bonus(MentionsCrude(text), 20) + Bonus(MentionsGas(text), 20)
               + Bonus(MentionsStorm(text), 10) + Bonus(MentionsConflict(text), 20);
    if sum < 95 then sum else 95
  }

  function Description(impacts: seq<string>): string {
    if |impacts| > 0 then "Potential impact on " + Join(impacts, ", ") else "No direct market impact detected"
  }

  /** `assessImpact`: the event with its impact filled in. */
  function AssessImpact(event: MarketEvent): (r: MarketEvent)
    ensures r == event.(impact := r.impact)
    ensures r.impact.Some?
    ensures r.impact.value.instrumentIds == Affected(EventText(event))
    ensures r.impact.value.description == Description(r.impact.value.instrumentIds)
    ensures r.impact.value.confidence == Confidence(EventText(event))
  {
    var text := EventText(event);
    var impacts := Affected(text);
    event.(impact := Some(Impact(impacts, Description(impacts), Confidence(text))))
  }

  // ---------------------------------------------------------------- lemmas

  /** The confidence lies between one half and 0.95. */
  lemma ConfidenceBounds(event: MarketEvent)
    ensures var c := AssessImpact(event).impact.value.confidence;
      50 <= c <= 95
  {
  }

  /** An event with no keyword keeps the base confidence of one half and
   *  affects nothing. */
  lemma NoKeywordNoImpact(event: MarketEvent)
    requires var t := EventText(event);
      !MentionsCrude(t) && !MentionsGas(t) && !MentionsStorm(t) && !MentionsConflict(t)
    ensures AssessImpact(event).impact == Some(Impact([], "No direct market impact detected", 50))
  {
  }

  /** The "no impact" text is given exactly when no future is affected. */
  lemma NoImpactTextIffNothingAffected(event: MarketEvent)
    ensures var i := AssessImpact(event).impact.value;
      i.description == "No direct market impact detected" <==> i.instrumentIds == []
  {
    var i := AssessImpact(event).impact.value;
    if i.instrumentIds != [] {
      var d := "Potential impact on " + Join(i.instrumentIds, ", ");
      assert d[0] == 'P';
      assert "No direct market impact detected"[0] == 'N';
    }
  }

  /** A storm alone adds 0.1, and the cap holds when all four groups
   *  appear. */
  lemma ConfidenceCases(text: string)
    ensures MentionsStorm(text) && !MentionsCrude(text) && !MentionsGas(text) && !MentionsConflict(text)
            ==> Confidence(text) == 60
    ensures MentionsStorm(text) && MentionsCrude(text) && MentionsGas(text) && MentionsConflict(text)
            ==> Confidence(text) == 95
  {
  }

  /** The word "oil" in the title is enough to mark crude and Brent. */
  lemma OilInTitleMarksCrude(event: MarketEvent)
    requires Contains(ToLower(event.title), "oil")
    ensures "cl-fut" in AssessImpact(event).impact.value.instrumentIds
  {
    ToLowerConcat(event.title, " " + event.summary);
    ContainsInLeft(ToLower(event.title), ToLower(" " + event.summary), "oil");
    assert event.title + " " + event.summary == event.title + (" " + event.summary);
  }
}
