/** Matching events to destinations (src/router.rs). */
module Router {
  import opened Wrappers
  import opened Text
  import opened Config

  /** The fields of an event that routing reads. */
  datatype RoutingEvent = RoutingEvent(
    eventId: Option<string>,
    eventType: Option<string>,
    fromDomain: Option<string>,
    toDomains: seq<string>)

  function NormalizeDomain(domain: string): Option<string> {
    var stripped := Lower(StripDomain(domain));
    if stripped == [] then None else Some(stripped)
  }

  /** `filter_map(normalize_domain)`. */
  function NormalizeDomains(domains: seq<string>): seq<string> {
    if domains == [] then []
    else
      var rest := NormalizeDomains(domains[1..]);
      match NormalizeDomain(domains[0])
      case None => rest
      case Some(d) => [d] + rest
  }

  function NormalizeDestination(d: Destination): Destination {
    d.(fromDomains := NormalizeDomains(d.fromDomains), toDomains := NormalizeDomains(d.toDomains))
  }

  function NormalizeAll(ds: seq<Destination>): (rs: seq<Destination>)
    ensures |rs| == |ds|
    ensures forall i :: 0 <= i < |ds| ==> rs[i] == NormalizeDestination(ds[i])
  {
    seq(|ds|, i requires 0 <= i < |ds| => NormalizeDestination(ds[i]))
  }

  predicate DestinationMatches(d: Destination, event: RoutingEvent) {
    if d.catchAll then true
    else if d.eventTypes != [] && (event.eventType.None? || event.eventType.value !in d.eventTypes) then false
    else if d.fromDomains != [] && (event.fromDomain.None? || event.fromDomain.value !in d.fromDomains) then false
    else if d.toDomains != [] && !(exists domain :: domain in event.toDomains && domain in d.toDomains) then false
    else true
  }

  function Filter(ds: seq<Destination>, event: RoutingEvent): seq<Destination> {
    if ds == [] then []
    else (if DestinationMatches(ds[0], event) then [ds[0]] else []) + Filter(ds[1..], event)
  }

  /** `RouteMatcher::new(destinations).match_destinations(event)`. */
  function MatchDestinations(destinations: seq<Destination>, event: RoutingEvent): seq<Destination> {
    Filter(NormalizeAll(destinations), event)
  }

  // ---- the meaning, on the destinations as configured ----

  /** Two domains are the same after stripping and lowercasing the configured one.
      Documented compares this with the letter of the README. */
  predicate SameDomain(configured: string, domain: string) {
    Lower(StripDomain(configured)) == domain
  }

  predicate Lists(configured: seq<string>, domain: string) {
    exists c :: c in configured && SameDomain(c, domain)
  }

  /** A catch-all, or every constraint that is configured is met. */
  predicate Means(d: Destination, event: RoutingEvent) {
    d.catchAll
    || (&& (d.eventTypes != [] ==> event.eventType.Some? && event.eventType.value in d.eventTypes)
        && (d.fromDomains != [] ==> event.fromDomain.Some? && Lists(d.fromDomains, event.fromDomain.value))
        && (d.toDomains != [] ==> exists domain :: domain in event.toDomains && Lists(d.toDomains, domain)))
  }

  /** The destinations an event is meant to reach, in configured order. */
  function Intended(ds: seq<Destination>, event: RoutingEvent): seq<Destination> {
    if ds == [] then []
    else (if Means(ds[0], event) then [ds[0]] else []) + Intended(ds[1..], event)
  }

  /** Validation makes normalisation total: it drops no entry and keeps the order. */
  lemma {:induction false} NormalizationDropsNothing(domains: seq<string>)
    requires ValidDomains(domains)
    ensures |NormalizeDomains(domains)| == |domains|
    ensures forall i :: 0 <= i < |domains| ==> NormalizeDomains(domains)[i] == Lower(StripDomain(domains[i]))
  {
    if domains != [] {
      assert domains[0] in domains;
      assert forall d :: d in domains[1..] ==> d in domains;
      NormalizationDropsNothing(domains[1..]);
    }
  }

  lemma NormalizedLists(domains: seq<string>, domain: string)
    requires ValidDomains(domains)
    ensures domain in NormalizeDomains(domains) <==> Lists(domains, domain)
    ensures NormalizeDomains(domains) == [] <==> domains == []
  {
    NormalizationDropsNothing(domains);
    if domain in NormalizeDomains(domains) {
      var i :| 0 <= i < |domains| && NormalizeDomains(domains)[i] == domain;
      assert domains[i] in domains && SameDomain(domains[i], domain);
    }
    if Lists(domains, domain) {
      var c :| c in domains && SameDomain(c, domain);
      var i :| 0 <= i < |domains| && domains[i] == c;
      assert NormalizeDomains(domains)[i] == domain;
    }
  }

  lemma MatchingIsMeaning(d: Destination, event: RoutingEvent)
    requires ValidDestination(d)
    ensures DestinationMatches(NormalizeDestination(d), event) <==> Means(d, event)
  {
    var n := NormalizeDestination(d);
    NormalizedLists(d.fromDomains, if event.fromDomain.Some? then event.fromDomain.value else "");
    forall domain ensures domain in n.toDomains <==> Lists(d.toDomains, domain) {
      NormalizedLists(d.toDomains, domain);
    }
    NormalizedLists(d.toDomains, "");
  }

  /** Routing refines the meaning: for every valid configuration the
      matched destinations are, in order, the normalised forms of exactly the
      destinations the event is meant to reach. */
  lemma {:induction false} RoutingRefinesMeaning(ds: seq<Destination>, event: RoutingEvent)
    requires forall d :: d in ds ==> ValidDestination(d)
    ensures MatchDestinations(ds, event) == NormalizeAll(Intended(ds, event))
  {
    if ds == [] {
    } else {
      assert ds[0] in ds;
      MatchingIsMeaning(ds[0], event);
      RoutingRefinesMeaning(ds[1..], event);
      assert NormalizeAll(ds)[1..] == NormalizeAll(ds[1..]);
      var head := if Means(ds[0], event) then [ds[0]] else [];
      NormalizeAllAppend(head, Intended(ds[1..], event));
    }
  }

  lemma {:induction false} IntendedAppend(a: seq<Destination>, b: seq<Destination>, event: RoutingEvent)
    ensures Intended(a + b, event) == Intended(a, event) + Intended(b, event)
  {
    if a == [] {
      assert a + b == b;
    } else {
      IntendedAppend(a[1..], b, event);
      assert (a + b)[1..] == a[1..] + b;
    }
  }

  /** Each destination that is meant has its own place: after all earlier ones. */
  lemma IntendedInPlace(ds: seq<Destination>, event: RoutingEvent, i: nat)
    requires i < |ds| && Means(ds[i], event)
    ensures |Intended(ds[..i], event)| < |Intended(ds, event)|
    ensures Intended(ds, event)[|Intended(ds[..i], event)|] == ds[i]
  {
    assert ds == ds[..i] + ds[i..];
    IntendedAppend(ds[..i], ds[i..], event);
  }

  /** An entry of a normalised list stands for the entry of the configured one. */
  predicate SameDomains(normal: seq<string>, configured: seq<string>) {
    && |normal| == |configured|
    && forall k :: 0 <= k < |normal| ==> SameDomain(configured[k], normal[k])
  }

  /** The matched destinations are those that are meant, one by one: the url, the name
      and all else as configured, and the domains in their normal form. */
  lemma MatchedAreIntended(ds: seq<Destination>, event: RoutingEvent, i: nat)
    requires (forall d :: d in ds ==> ValidDestination(d)) && i < |Intended(ds, event)|
    ensures |MatchDestinations(ds, event)| == |Intended(ds, event)|
    ensures var m, d := MatchDestinations(ds, event)[i], Intended(ds, event)[i];
            && d in ds && Means(d, event)
            && m.name == d.name && m.url == d.url && m.catchAll == d.catchAll && m.eventTypes == d.eventTypes
            && SameDomains(m.fromDomains, d.fromDomains) && SameDomains(m.toDomains, d.toDomains)
  {
    RoutingRefinesMeaning(ds, event);
    IntendedAreConfigured(ds, event, i);
    var d := Intended(ds, event)[i];
    NormalizationDropsNothing(d.fromDomains);
    NormalizationDropsNothing(d.toDomains);
  }

  lemma {:induction false} IntendedAreConfigured(ds: seq<Destination>, event: RoutingEvent, i: nat)
    requires i < |Intended(ds, event)|
    ensures Intended(ds, event)[i] in ds && Means(Intended(ds, event)[i], event)
  {
    var here := if Means(ds[0], event) then 1 else 0;
    if i >= here {
      IntendedAreConfigured(ds[1..], event, i - here);
      assert Intended(ds, event)[i] == Intended(ds[1..], event)[i - here];
    }
  }

  lemma NormalizeAllAppend(a: seq<Destination>, b: seq<Destination>)
    ensures NormalizeAll(a + b) == NormalizeAll(a) + NormalizeAll(b)
  {
  }

  /** A constraint never disappears in normalisation, so only a destination
      configured as a catch-all can match every event. */
  lemma NoAccidentalCatchAll(d: Destination)
    requires ValidDestination(d)
    ensures (forall event :: DestinationMatches(NormalizeDestination(d), event)) <==> d.catchAll
  {
    if !d.catchAll {
      var silent := RoutingEvent(None, None, None, []);
      MatchingIsMeaning(d, silent);
      assert !Means(d, silent);
      assert !DestinationMatches(NormalizeDestination(d), silent);
    }
  }

  lemma {:induction false} FilterKeeps(ds: seq<Destination>, event: RoutingEvent)
    ensures forall d :: d in Filter(ds, event) ==> d in ds
    ensures DistinctNames(ds) ==> DistinctNames(Filter(ds, event))
  {
    if ds != [] {
      FilterKeeps(ds[1..], event);
      var rest := Filter(ds[1..], event);
      if DistinctNames(ds) {
        forall d | d in rest ensures d.name != ds[0].name {
          var j :| 0 <= j < |ds[1..]| && ds[1..][j] == d;
          assert ds[j + 1] == d;
        }
      }
    }
  }

  /** For a valid configuration the matched destinations have distinct, valid names. */
  lemma MatchedNamesAreDistinct(ds: seq<Destination>, event: RoutingEvent)
    requires DistinctNames(ds) && forall d :: d in ds ==> ValidDestination(d)
    ensures DistinctNames(MatchDestinations(ds, event))
    ensures forall d :: d in MatchDestinations(ds, event) ==> ValidName(d.name)
  {
    FilterKeeps(NormalizeAll(ds), event);
    forall d | d in MatchDestinations(ds, event) ensures ValidName(d.name) {
      var i :| 0 <= i < |ds| && NormalizeAll(ds)[i] == d;
      assert ds[i] in ds;
    }
  }
}
