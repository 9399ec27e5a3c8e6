/** The usage component: the token-exhaustion rule and the choice of what to show. */
module Usage {
  import opened Common

  /** A JavaScript number read as a condition: present and not zero. */
  predicate Truthy(n: Option<nat>)
  {
    n.Some? && n.value != 0
  }

  /** `featureUsage && featureAllocation && featureUsage >= featureAllocation`, read as a condition. */
  function HasUsedAllTokens(usage: Option<nat>, allocation: Option<nat>): (b: bool)
    ensures b <==> usage.Some? && allocation.Some? && usage.value != 0 && allocation.value != 0 &&
                   usage.value >= allocation.value
  {
    Truthy(usage) && Truthy(allocation) && usage.value >= allocation.value
  }

  /** A zero or missing allocation, or a zero or missing usage, is never exhausted. */
  lemma ZeroNeverExhausted(usage: Option<nat>, allocation: Option<nat>)
    requires !Truthy(usage) || !Truthy(allocation)
    ensures !HasUsedAllTokens(usage, allocation)
  {
  }

  /** For a fixed allocation, every usage above an exhausted one is exhausted too. */
  lemma ExhaustedMonotone(u: nat, larger: nat, allocation: Option<nat>)
    requires HasUsedAllTokens(Some(u), allocation) && u <= larger
    ensures HasUsedAllTokens(Some(larger), allocation)
  {
  }

  datatype UsageView = Loading | Exhausted | Placeholder

  /** The pending state comes first, then exhaustion, otherwise the placeholder. */
  function ViewOf(isPending: bool, usage: Option<nat>, allocation: Option<nat>): (v: UsageView)
    ensures v == Loading <==> isPending
    ensures v == Exhausted <==> !isPending && HasUsedAllTokens(usage, allocation)
    ensures v == Placeholder <==> !isPending && !HasUsedAllTokens(usage, allocation)
  {
    if isPending then Loading
    else if HasUsedAllTokens(usage, allocation) then Exhausted
    else Placeholder
  }
}
