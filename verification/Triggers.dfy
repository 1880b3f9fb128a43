/** Names to look at: a quantifier triggered by `Look` speaks of those names only. */
module Triggers {
  predicate Look(k: string) { true }
}
