/**
 * The subdomain hunter: for a stored FQDN indicator that names a subdomain,
 * it derives one indicator for the parent domain.
 */
module FqdnSubdomain {
  import opened Wrappers
  import opened Indicators

  /** Confidence lost by an indicator derived for a parent domain. */
  const SubdomainDecay: nat := 3

  /** Python truthiness of `i.is_subdomain()`: a non-empty string. */
  predicate Truthy(parent: Option<string>) {
    parent.Some? && parent.value != ""
  }

  /**
   * `process(i)`. `subdomainOf` is what `is_subdomain()` answers for an
   * indicator text (the parent domain, or nothing), `resolves` says whether
   * `resolve_itype` accepts a text, and `now` is the clock reading.
   */
  function Process(i: Indicator, subdomainOf: string -> Option<string>, resolves: string -> bool, now: Timestamp)
    : (r: Option<Indicator>)
    ensures r.Some? <==>
      i.itype == Fqdn && !HasTag(i, SearchTag) && Truthy(subdomainOf(i.indicator)) &&
      resolves(subdomainOf(i.indicator).value)
    ensures r.Some? ==>
      r.value.indicator == subdomainOf(i.indicator).value && r.value.lasttime == Some(now) &&
      r.value.confidence == Decay(i.confidence, SubdomainDecay) &&
      r.value.itype == i.itype && r.value.rdata == i.rdata && KeepsUnrelatedFields(r.value, i)
    ensures r.Some? && i.confidence >= 0 ==> 0 <= r.value.confidence <= i.confidence
  {
    if i.itype != Fqdn then None
    else if SearchTag in i.tags then None
    else if !Truthy(subdomainOf(i.indicator)) then None
    else
      var fqdn := i.(indicator := subdomainOf(i.indicator).value, lasttime := Some(now));
      if !resolves(fqdn.indicator) then None
      else Some(fqdn.(confidence := if fqdn.confidence >= SubdomainDecay then fqdn.confidence - SubdomainDecay else 0))
  }

  /** The parent-domain indicator is still an FQDN, so it is itself a hunter input with a lower confidence. */
  lemma ResultIsHunterInput(i: Indicator, subdomainOf: string -> Option<string>, resolves: string -> bool, now: Timestamp)
    requires i.confidence >= SubdomainDecay
    requires Process(i, subdomainOf, resolves, now).Some?
    ensures Process(i, subdomainOf, resolves, now).value.itype == Fqdn
    ensures !HasTag(Process(i, subdomainOf, resolves, now).value, SearchTag)
    ensures Process(i, subdomainOf, resolves, now).value.confidence < i.confidence
  {
  }
}
