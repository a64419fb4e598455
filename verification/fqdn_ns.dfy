/**
 * The nameserver hunter: for a stored FQDN indicator it looks up the
 * domain's nameserver records and derives one indicator per usable record.
 */
module FqdnNs {
  import opened Wrappers
  import opened Indicators

  /** What the nameserver lookup of a domain gives: a timeout, or the records as text. */
  datatype Lookup = Timeout | Records(records: seq<string>)

  /** Confidence lost by an indicator derived from a nameserver record. */
  const NsDecay: nat := 4

  /** The itype every derived indicator is given, whatever the record holds. */
  const DerivedItype: string := "ipv4"

  /** `s.rstrip('.')`: `s` without its trailing dots. */
  function StripTrailingDots(s: string): (r: string)
    ensures r <= s
    ensures r == [] || r[|r| - 1] != '.'
    ensures forall k :: |r| <= k < |s| ==> s[k] == '.'
    decreases |s|
  {
    if s != [] && s[|s| - 1] == '.' then StripTrailingDots(s[..|s| - 1]) else s
  }

  /** A record whose text, trailing dots removed, is empty or `localhost`. */
  predicate Discarded(rr: string) {
    var t := StripTrailingDots(rr);
    t == "" || t == "localhost"
  }

  /** A record that yields a derived indicator: not discarded, and classifiable. */
  predicate Kept(rr: string, resolves: string -> bool) {
    !Discarded(rr) && resolves(rr)
  }

  /** The indicator derived from `i` for the record `rr`, read at time `now`. */
  function Clone(i: Indicator, rr: string, now: Timestamp): Indicator {
    i.(indicator := rr, lasttime := Some(now), itype := DerivedItype,
       rdata := Some(i.indicator), confidence := Decay(i.confidence, NsDecay))
  }

  /** The indicators derived from the records `rrs`, in their order. */
  function Derived(i: Indicator, rrs: seq<string>, now: Timestamp, resolves: string -> bool): seq<Indicator>
    decreases |rrs|
  {
    if rrs == [] then []
    else (if Kept(rrs[0], resolves) then [Clone(i, rrs[0], now)] else []) + Derived(i, rrs[1..], now, resolves)
  }

  /** The records that yield an indicator, in their order (a plain filter). */
  function KeptRecords(rrs: seq<string>, resolves: string -> bool): seq<string>
    decreases |rrs|
  {
    if rrs == [] then []
    else if Kept(rrs[0], resolves) then [rrs[0]] + KeptRecords(rrs[1..], resolves)
    else KeptRecords(rrs[1..], resolves)
  }

  /** `a` is `b` with some elements left out and the rest in their order. */
  predicate IsSubsequence(a: seq<string>, b: seq<string>)
    decreases |b|
  {
    a == [] || (b != [] && ((a[0] == b[0] && IsSubsequence(a[1..], b[1..])) || IsSubsequence(a, b[1..])))
  }

  /**
   * `process(i)`: nothing (`None`) when the hunter is disabled, the indicator
   * is not an FQDN, it is tagged `search`, or the lookup times out; otherwise
   * the list of indicators derived from the lookup's records.
   */
  method Process(enabled: bool, i: Indicator, resolveNs: string -> Lookup, resolves: string -> bool, now: Timestamp)
    returns (r: Option<seq<Indicator>>)
    ensures r == None <==>
      !enabled || i.itype != Fqdn || HasTag(i, SearchTag) || resolveNs(i.indicator).Timeout?
    ensures r.Some? ==> r.value == Derived(i, resolveNs(i.indicator).records, now, resolves)
  {
    if !enabled {
      return None;
    }
    if i.itype != Fqdn {
      return None;
    }
    if SearchTag in i.tags {
      return None;
    }
    var lookup := resolveNs(i.indicator);
    if lookup.Timeout? {
      return None;
    }
    var rrs := lookup.records;
    var rv: seq<Indicator> := [];
    for k := 0 to |rrs|
      invariant rv == Derived(i, rrs[..k], now, resolves)
    {
      var rr := rrs[k];
      assert rrs[..k + 1] == rrs[..k] + [rr];
      DerivedAppend(i, rrs[..k], [rr], now, resolves);
      if StripTrailingDots(rr) in ["", "localhost"] {
        continue;
      }
      var ip := i.(indicator := rr, lasttime := Some(now));
      if !resolves(ip.indicator) {
        continue;
      }
      ip := ip.(itype := DerivedItype, rdata := Some(i.indicator));
      ip := ip.(confidence := if ip.confidence >= NsDecay then ip.confidence - NsDecay else 0);
      rv := rv + [ip];
    }
    assert rrs[..|rrs|] == rrs;
    return Some(rv);
  }

  /** Deriving from two runs of records is deriving from each in turn. */
  lemma {:induction false} DerivedAppend(i: Indicator, a: seq<string>, b: seq<string>, now: Timestamp, resolves: string -> bool)
    ensures Derived(i, a + b, now, resolves) == Derived(i, a, now, resolves) + Derived(i, b, now, resolves)
    decreases |a|
  {
    if a == [] {
      assert a + b == b;
    } else {
      assert (a + b)[1..] == a[1..] + b;
      DerivedAppend(i, a[1..], b, now, resolves);
    }
  }

  /** The derived list is the kept records, each turned into a clone, in order. */
  lemma {:induction false} DerivedIsCloneOfKept(i: Indicator, rrs: seq<string>, now: Timestamp, resolves: string -> bool)
    ensures |Derived(i, rrs, now, resolves)| == |KeptRecords(rrs, resolves)|
    ensures forall j :: 0 <= j < |KeptRecords(rrs, resolves)| ==>
      Derived(i, rrs, now, resolves)[j] == Clone(i, KeptRecords(rrs, resolves)[j], now)
    decreases |rrs|
  {
    if rrs != [] {
      DerivedIsCloneOfKept(i, rrs[1..], now, resolves);
    }
  }

  /** At most one indicator per record. */
  lemma {:induction false} KeptRecordsAtMost(rrs: seq<string>, resolves: string -> bool)
    ensures |KeptRecords(rrs, resolves)| <= |rrs|
    decreases |rrs|
  {
    if rrs != [] {
      KeptRecordsAtMost(rrs[1..], resolves);
    }
  }

  /** The kept records keep the order the lookup returned them in. */
  lemma {:induction false} KeptRecordsInOrder(rrs: seq<string>, resolves: string -> bool)
    ensures IsSubsequence(KeptRecords(rrs, resolves), rrs)
    decreases |rrs|
  {
    if rrs != [] {
      KeptRecordsInOrder(rrs[1..], resolves);
      var rest := KeptRecords(rrs[1..], resolves);
      if Kept(rrs[0], resolves) {
        assert ([rrs[0]] + rest)[1..] == rest;
      }
    }
  }

  /** A record is kept exactly when it is not discarded and it classifies. */
  lemma {:induction false} KeptRecordsMembers(rrs: seq<string>, resolves: string -> bool, x: string)
    ensures x in KeptRecords(rrs, resolves) <==> x in rrs && !Discarded(x) && resolves(x)
    decreases |rrs|
  {
    if rrs != [] {
      KeptRecordsMembers(rrs[1..], resolves, x);
      assert rrs == [rrs[0]] + rrs[1..];
    }
  }

  /**
   * What `process` returns, element by element: the indicator is the record's
   * own text (trailing dots kept), the itype is `ipv4`, `rdata` is the input's
   * indicator, `lasttime` is the lookup time, the confidence is decayed by 4,
   * and all other fields are the input's.
   */
  lemma {:induction false} DerivedFields(i: Indicator, rrs: seq<string>, now: Timestamp, resolves: string -> bool)
    ensures |Derived(i, rrs, now, resolves)| <= |rrs|
    ensures forall o :: o in Derived(i, rrs, now, resolves) ==>
      o.indicator in rrs && !Discarded(o.indicator) && resolves(o.indicator) &&
      o.itype == DerivedItype && o.rdata == Some(i.indicator) && o.lasttime == Some(now) &&
      o.confidence == Decay(i.confidence, NsDecay) && KeepsUnrelatedFields(o, i)
  {
    DerivedIsCloneOfKept(i, rrs, now, resolves);
    KeptRecordsAtMost(rrs, resolves);
    var d := Derived(i, rrs, now, resolves);
    var kept := KeptRecords(rrs, resolves);
    forall o | o in d
      ensures o.indicator in rrs && !Discarded(o.indicator) && resolves(o.indicator)
    {
      var j :| 0 <= j < |d| && d[j] == o;
      KeptRecordsMembers(rrs, resolves, kept[j]);
    }
  }

  /** With an input confidence of at least 0, derived confidences stay between 0 and the input's. */
  lemma {:induction false} DerivedConfidenceBounded(i: Indicator, rrs: seq<string>, now: Timestamp, resolves: string -> bool)
    requires i.confidence >= 0
    ensures forall o :: o in Derived(i, rrs, now, resolves) ==> 0 <= o.confidence <= i.confidence
  {
    DerivedFields(i, rrs, now, resolves);
  }

  /**
   * A nameserver record `ns1.example.com.` that classifies becomes an `ipv4`
   * indicator whose text still ends in the dot; `localhost.` and `.` are
   * dropped, while `LOCALHOST.` is not (the comparison is case-sensitive).
   */
  lemma NameserverExample(i: Indicator, now: Timestamp, resolves: string -> bool)
    requires i.indicator == "example.com" && i.confidence == 5
    requires resolves("ns1.example.com.") && resolves("LOCALHOST.")
    ensures Derived(i, ["ns1.example.com.", "localhost.", ".", "LOCALHOST."], now, resolves) ==
      [i.(indicator := "ns1.example.com.", lasttime := Some(now), itype := "ipv4", rdata := Some("example.com"), confidence := 1),
       i.(indicator := "LOCALHOST.", lasttime := Some(now), itype := "ipv4", rdata := Some("example.com"), confidence := 1)]
  {
    assert StripTrailingDots("localhost.") == "localhost" by {
      assert "localhost."[..|"localhost."| - 1] == "localhost";
    }
    assert StripTrailingDots(".") == "" by {
      assert "."[..0] == "";
    }
    assert StripTrailingDots("LOCALHOST.") == "LOCALHOST" by {
      assert "LOCALHOST."[..|"LOCALHOST."| - 1] == "LOCALHOST";
    }
    assert StripTrailingDots("ns1.example.com.") == "ns1.example.com" by {
      assert "ns1.example.com."[..|"ns1.example.com."| - 1] == "ns1.example.com";
    }
  }
}
