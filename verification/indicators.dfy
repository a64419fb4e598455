/** The optional value used for Python's `None` results and absent fields. */
module Wrappers {
  datatype Option<+T> = None | Some(value: T)
}

/**
 * The indicator record shared by the hunters, and the confidence decay they
 * apply when they derive a new indicator from a stored one.
 */
module Indicators {
  import opened Wrappers

  /** A point in time (the clock reading `arrow.utcnow()` gives the hunters). */
  type Timestamp = int

  /**
   * One threat indicator. `attributes` stands for every further attribute an
   * indicator carries (description, asn, cc, ...), which the hunters copy
   * without looking at them.
   */
  datatype Indicator = Indicator(
    indicator: string,
    itype: string,
    tags: seq<string>,
    provider: string,
    group: string,
    confidence: int,
    firsttime: Option<Timestamp>,
    lasttime: Option<Timestamp>,
    rdata: Option<string>,
    attributes: map<string, string>)

  /** The tag that marks indicators coming from searches; hunters skip them. */
  const SearchTag: string := "search"

  /** The only itype the hunters act on. */
  const Fqdn: string := "fqdn"

  /** `tag in i.tags` on the indicator's tag list. */
  predicate HasTag(i: Indicator, tag: string) {
    tag in i.tags
  }

  /**
   * Confidence after a derivation step: reduced by `amount`, and 0 when that
   * would go below `amount`. The result is the larger of 0 and `c - amount`.
   */
  function Decay(c: int, amount: nat): (r: int)
    ensures r >= 0
    ensures r >= c - amount
    ensures r == 0 || r == c - amount
    ensures c >= 0 ==> r <= c
    ensures c >= amount ==> r == c - amount
  {
    if c >= amount then c - amount else 0
  }

  /**
   * `r` keeps every field of `i` that a hunter does not override. The hunters
   * copy an indicator with `Indicator(**i.__dict__())`; the model takes that
   * copy to be exact.
   */
  predicate KeepsUnrelatedFields(r: Indicator, i: Indicator) {
    r.tags == i.tags && r.provider == i.provider && r.group == i.group &&
    r.firsttime == i.firsttime && r.attributes == i.attributes
  }
}
