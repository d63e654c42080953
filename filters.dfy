/** The optional query parameters the services test with `if (x)`: an absent
 *  or empty string switches a filter off. */
module Filters {
  import opened Wrappers

  /** `if (x)` on an optional string. */
  predicate Given(x: Option<string>) {
    x.Some? && x.value != ""
  }

  /** `if (filter) keep x.field === filter`. */
  predicate MatchesId(filter: Option<string>, value: string) {
    !Given(filter) || filter.value == value
  }

  /** `if (filter && filter !== 'ALL') keep x.field === filter`. */
  predicate MatchesEnum(filter: Option<string>, value: string) {
    !Given(filter) || filter.value == "ALL" || filter.value == value
  }
}
