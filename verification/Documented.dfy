/** The README's account of domain matching, read to the letter, and where the
    code does more. */
module Documented {
  import opened Text
  import opened Json
  import opened Config
  import opened Router
  import opened Resend
  import opened Extraction

  // ---- one entry ----

  /** "Trimming a leading `@`": at most one. */
  function WithoutAt(configured: string): string {
    if configured != [] && configured[0] == '@' then configured[1..] else configured
  }

  /** "Exact after lowercasing and trimming a leading `@`." */
  predicate SameLiterally(configured: string, domain: string) {
    Lower(WithoutAt(configured)) == domain
  }

  /** No outer whitespace, no second leading `@`, no trailing dot. */
  predicate Plain(configured: string) {
    && configured != []
    && !IsWhitespace(configured[0])
    && !IsWhitespace(configured[|configured| - 1])
    && !(|configured| >= 2 && configured[0] == '@' && configured[1] == '@')
    && configured[|configured| - 1] != '.'
  }

  /** The text and the code differ: `@@a` is the domain `a` to the code, and `@a` to the letter. */
  lemma LeadingAtsDiffer()
    ensures SameDomain("@@a", "a") && Extractable("a")
    ensures !SameLiterally("@@a", "a") && SameLiterally("@@a", "@a")
  {
    StripParts("", "@@", "a", "", "");
    StripParts("", "", "a", "", "");
    assert "" + ("@@" + ("a" + "")) + "" == "@@a" && "" + ("" + ("a" + "")) + "" == "a";
    assert Lower("a") == "a" && WithoutAt("@@a") == "@a" && Lower("@a") == "@a";
  }

  /** Stripping takes at most one leading `@` exactly from plain entries. */
  lemma PlainExactly(c: string)
    requires StripDomain(c) != []
    ensures Plain(c) <==> CodeForm(c) == Lower(WithoutAt(c))
    ensures Plain(c) ==> StripDomain(c) == WithoutAt(c)
  {
    if Plain(c) {
      PlainStrips(c);
    } else {
      NotPlainStripsMore(c);
      assert |CodeForm(c)| != |Lower(WithoutAt(c))|;
    }
  }

  lemma PlainStrips(c: string)
    requires Plain(c) && StripDomain(c) != []
    ensures StripDomain(c) == WithoutAt(c)
  {
    AtAloneIsNothing();
    var kernel := WithoutAt(c);
    var ats := if c[0] == '@' then "@" else "";
    assert "" + (ats + (kernel + "")) + "" == c;
    StripParts("", ats, kernel, "", "");
  }

  lemma AtAloneIsNothing()
    ensures StripDomain("@") == []
  {
    TrimNothing("@", Whitespace);
    assert "@"[1..] == [];
    assert TrimStartMatches("@", One('@')) == [];
  }

  lemma NotPlainStripsMore(c: string)
    requires !Plain(c) && StripDomain(c) != []
    ensures |StripDomain(c)| < |WithoutAt(c)|
  {
    var a := TrimStartMatches(c, Whitespace);
    var t := TrimEndMatches(a, Whitespace);
    var s := TrimStartMatches(t, One('@'));
    var e := TrimEndMatches(s, One('.'));
    TrimStartFacts(c, Whitespace);
    TrimEndFacts(a, Whitespace);
    TrimStartFacts(t, One('@'));
    TrimEndFacts(s, One('.'));
    assert e == StripDomain(c);
    if |a| == |c| {
      assert a == c && t[0] == c[0];
      if c[0] == '@' {
        assert |s| < |t|;
      }
    }
  }

  /** The shape of a fixed point of normalisation. */
  lemma NormalShape(d: string)
    requires NormalDomain(d)
    ensures d != [] && d[0] != '@' && Plain(d) && Lower(d) == d
  {
    var s := StripDomain(d);
    assert Lower(s) == d && |s| == |d|;
    StripsNothing(d);
    assert forall i :: 0 <= i < |d| ==> d[i] == LowerChar(s[i]);
  }

  /** A text that loses no character has nothing to strip. */
  lemma StripsNothing(d: string)
    requires d != [] && |StripDomain(d)| == |d|
    ensures d[0] != '@' && d[|d| - 1] != '.' && !IsWhitespace(d[0]) && !IsWhitespace(d[|d| - 1])
  {
    var a := TrimStartMatches(d, Whitespace);
    var t := TrimEndMatches(a, Whitespace);
    var u := TrimStartMatches(t, One('@'));
    TrimStartFacts(d, Whitespace);
    TrimEndFacts(a, Whitespace);
    TrimStartFacts(t, One('@'));
    TrimEndFacts(u, One('.'));
    assert |u| == |t| == |a| == |d|;
  }

  /** On event domains the letter of the text is never wider than the code. */
  lemma LiteralImpliesCode(c: string, d: string)
    requires Extractable(d) && SameLiterally(c, d)
    ensures Plain(c) && SameDomain(c, d)
  {
    ExtractableIsNormal(d);
    NormalShape(d);
    var k := WithoutAt(c);
    assert |k| == |d| && LowerChar(k[0]) == d[0] && LowerChar(k[|k| - 1]) == d[|d| - 1];
    assert Plain(c);
    var ats := if c[0] == '@' then "@" else "";
    StripParts("", ats, k, "", "");
    assert "" + (ats + (k + "")) + "" == c;
  }

  /** Both readings of an entry agree on every string exactly when it is plain, and
      on every domain that an address gives exactly when it is plain or dead. */
  lemma EntryReadings(c: string)
    requires StripDomain(c) != []
    ensures (forall d :: SameDomain(c, d) <==> SameLiterally(c, d)) <==> Plain(c)
    ensures (forall d :: Extractable(d) ==> (SameDomain(c, d) <==> SameLiterally(c, d))) <==> Plain(c) || Dead(c)
  {
    PlainExactly(c);
    var n := CodeForm(c);
    assert SameDomain(c, n) && (SameLiterally(c, n) <==> Plain(c));
    forall d | Extractable(d) && SameLiterally(c, d) ensures SameDomain(c, d) {
      LiteralImpliesCode(c, d);
    }
  }

  // ---- a list of entries ----

  predicate ListsLiterally(configured: seq<string>, domain: string) {
    exists c :: c in configured && SameLiterally(c, domain)
  }

  /** Each entry is plain or dead, or a plain one stands for the same domain. */
  predicate Covered(configured: seq<string>)
    requires ValidDomains(configured)
  {
    forall c :: c in configured ==>
      Plain(c) || Dead(c) || exists p :: p in configured && Plain(p) && CodeForm(p) == CodeForm(c)
  }

  lemma ListedLiterallyIsListed(list: seq<string>, d: string)
    requires Extractable(d) && ListsLiterally(list, d)
    ensures Lists(list, d)
  {
    var c :| c in list && SameLiterally(c, d);
    LiteralImpliesCode(c, d);
  }

  lemma PlainIsListed(list: seq<string>, p: string)
    requires p in list && Plain(p) && StripDomain(p) != []
    ensures ListsLiterally(list, CodeForm(p))
  {
    PlainExactly(p);
    assert SameLiterally(p, CodeForm(p));
  }

  lemma CoveredIsListed(list: seq<string>, c: string)
    requires ValidDomains(list) && Covered(list) && c in list && !Dead(c)
    ensures ListsLiterally(list, CodeForm(c))
  {
    var p := c;
    if !Plain(c) {
      p :| p in list && Plain(p) && CodeForm(p) == CodeForm(c);
    }
    PlainIsListed(list, p);
  }

  lemma CoveredAgrees(list: seq<string>, d: string)
    requires ValidDomains(list) && Covered(list) && Extractable(d)
    ensures Lists(list, d) <==> ListsLiterally(list, d)
  {
    if Lists(list, d) {
      var c :| c in list && SameDomain(c, d);
      CoveredIsListed(list, c);
    }
    if ListsLiterally(list, d) {
      ListedLiterallyIsListed(list, d);
    }
  }

  /** A domain that only the code finds in a list that is not covered. */
  lemma UncoveredWitness(list: seq<string>) returns (d: string)
    requires ValidDomains(list) && !Covered(list)
    ensures Extractable(d) && Lists(list, d) && !ListsLiterally(list, d)
  {
    var c :| c in list && !Plain(c) && !Dead(c) && forall p :: p in list && Plain(p) ==> CodeForm(p) != CodeForm(c);
    d := CodeForm(c);
    assert SameDomain(c, d);
    forall p | p in list && SameLiterally(p, d) ensures Plain(p) && CodeForm(p) == CodeForm(c) {
      LiteralImpliesCode(p, d);
    }
  }

  // ---- a destination ----

  predicate MeansLiterally(d: Destination, event: RoutingEvent) {
    d.catchAll
    || (&& (d.eventTypes != [] ==> event.eventType.Some? && event.eventType.value in d.eventTypes)
        && (d.fromDomains != [] ==> event.fromDomain.Some? && ListsLiterally(d.fromDomains, event.fromDomain.value))
        && (d.toDomains != [] ==> exists domain :: domain in event.toDomains && ListsLiterally(d.toDomains, domain)))
  }

  /** The exact condition, on the configuration alone. */
  predicate ReadsLiterally(d: Destination)
    requires ValidDestination(d)
  {
    d.catchAll || Mute(d.fromDomains) || Mute(d.toDomains) || (Covered(d.fromDomains) && Covered(d.toDomains))
  }

  lemma LiteralMeansMeans(d: Destination, event: RoutingEvent)
    requires ExtractableDomains(event) && MeansLiterally(d, event)
    ensures Means(d, event)
  {
    if !d.catchAll {
      if d.fromDomains != [] {
        ListedLiterallyIsListed(d.fromDomains, event.fromDomain.value);
      }
      if d.toDomains != [] {
        var domain :| domain in event.toDomains && ListsLiterally(d.toDomains, domain);
        ListedLiterallyIsListed(d.toDomains, domain);
      }
    }
  }

  lemma MeansMeansLiteral(d: Destination, event: RoutingEvent)
    requires ValidDestination(d) && ReadsLiterally(d) && ExtractableDomains(event) && Means(d, event)
    ensures MeansLiterally(d, event)
  {
    if !d.catchAll {
      if d.fromDomains != [] {
        if Mute(d.fromDomains) {
          MuteListsNothing(d.fromDomains, event.fromDomain.value);
        }
      }
      if d.toDomains != [] {
        var domain :| domain in event.toDomains && Lists(d.toDomains, domain);
        if Mute(d.toDomains) {
          MuteListsNothing(d.toDomains, domain);
        }
        CoveredAgrees(d.toDomains, domain);
      }
      if d.fromDomains != [] {
        CoveredAgrees(d.fromDomains, event.fromDomain.value);
      }
    }
  }

  /** A domain that meets a constraint, and to the letter does not if the list is not covered. */
  lemma TellingDomain(list: seq<string>) returns (d: string)
    requires ValidDomains(list) && !Mute(list)
    ensures list != [] ==> Extractable(d) && Lists(list, d)
    ensures !Covered(list) ==> list != [] && !ListsLiterally(list, d)
  {
    d := "";
    if !Covered(list) {
      d := UncoveredWitness(list);
    } else if list != [] {
      d := ListedWitness(list);
    }
  }

  /** An event that only the code lets through. */
  lemma DifferingEvent(d: Destination) returns (event: RoutingEvent)
    requires ValidDestination(d) && !ReadsLiterally(d)
    ensures ExtractableDomains(event) && Means(d, event) && !MeansLiterally(d, event)
  {
    var from := TellingDomain(d.fromDomains);
    var to := TellingDomain(d.toDomains);
    event := EventFor(d, from, to);
    assert d.toDomains != [] ==> to in event.toDomains;
    assert forall domain :: domain in event.toDomains ==> domain == to;
  }

  // ---- a configuration ----

  function IntendedLiterally(ds: seq<Destination>, event: RoutingEvent): seq<Destination> {
    if ds == [] then []
    else (if MeansLiterally(ds[0], event) then [ds[0]] else []) + IntendedLiterally(ds[1..], event)
  }

  lemma {:induction false} LiteralSelectsLess(ds: seq<Destination>, event: RoutingEvent)
    requires ExtractableDomains(event)
    ensures |IntendedLiterally(ds, event)| <= |Intended(ds, event)|
    ensures (exists d :: d in ds && Means(d, event) && !MeansLiterally(d, event)) ==>
              |IntendedLiterally(ds, event)| < |Intended(ds, event)|
    ensures (forall d :: d in ds ==> (Means(d, event) <==> MeansLiterally(d, event))) ==>
              IntendedLiterally(ds, event) == Intended(ds, event)
  {
    if ds != [] {
      assert ds[0] in ds;
      LiteralSelectsLess(ds[1..], event);
      if MeansLiterally(ds[0], event) {
        LiteralMeansMeans(ds[0], event);
      }
      assert forall d :: d in ds <==> d == ds[0] || d in ds[1..];
    }
  }

  /** Routing follows the README to the letter, for every webhook, exactly when each
      destination is a catch-all, has a list no event meets, or has for each entry
      that an address can meet a plain one for the same domain. */
  lemma RoutingIsLiteralExactlyWhen(ds: seq<Destination>)
    requires forall d :: d in ds ==> ValidDestination(d)
    ensures (forall value :: RoutesLiterally(ds, ParseEventForRouting(value))) <==> (forall d :: d in ds ==> ReadsLiterally(d))
  {
    if forall d :: d in ds ==> ReadsLiterally(d) {
      forall value ensures RoutesLiterally(ds, ParseEventForRouting(value)) {
        LiteralRouting(ds, value);
      }
    } else {
      var d :| d in ds && !ReadsLiterally(d);
      var event := DifferingEvent(d);
      PayloadParses(event);
      RoutingRefinesMeaning(ds, event);
      LiteralSelectsLess(ds, event);
      assert |NormalizeAll(Intended(ds, event))| != |NormalizeAll(IntendedLiterally(ds, event))|;
      assert !RoutesLiterally(ds, ParseEventForRouting(PayloadFor(event)));
    }
  }

  predicate RoutesLiterally(ds: seq<Destination>, event: RoutingEvent) {
    MatchDestinations(ds, event) == NormalizeAll(IntendedLiterally(ds, event))
  }

  lemma LiteralRouting(ds: seq<Destination>, value: Value)
    requires forall d :: d in ds ==> ValidDestination(d) && ReadsLiterally(d)
    ensures RoutesLiterally(ds, ParseEventForRouting(value))
  {
    var event := ParseEventForRouting(value);
    ParsedDomains(value);
    RoutingRefinesMeaning(ds, event);
    forall d | d in ds ensures Means(d, event) <==> MeansLiterally(d, event) {
      if Means(d, event) {
        MeansMeansLiteral(d, event);
      }
      if MeansLiterally(d, event) {
        LiteralMeansMeans(d, event);
      }
    }
    LiteralSelectsLess(ds, event);
  }
}
