/** Exactly which domains addresses give, and which events webhooks give
    (src/resend.rs). */
module Extraction {
  import opened Wrappers
  import opened Text
  import opened Json
  import opened Config
  import opened Router
  import opened Resend

  /** In lower case, without `@`, comma or whitespace, not ending in a dot or
      starting with a semicolon, and not with both angle brackets. */
  predicate Extractable(d: string) {
    && d != [] && Lower(d) == d
    && (forall c :: c in d ==> c != '@' && !IsSeparator(c))
    && d[|d| - 1] != '.' && d[0] != ';'
    && !('<' in d && '>' in d)
  }

  // ---- what extraction gives ----

  lemma {:induction false} FindsFirst(s: string, c: char)
    ensures Find(s, c).Some? ==> c !in s[..Find(s, c).value]
  {
    if s != [] && s[0] != c {
      FindsFirst(s[1..], c);
      if Find(s, c).Some? {
        var i := Find(s, c).value;
        assert s[..i] == [s[0]] + s[1..][..i - 1];
      }
    }
  }

  lemma MailboxBrackets(trimmed: string)
    ensures !('<' in Mailbox(trimmed) && '>' in Mailbox(trimmed))
  {
    FindAbsent(trimmed, '<');
    if Find(trimmed, '<').Some? {
      var afterStart := trimmed[Find(trimmed, '<').value + 1..];
      FindAbsent(afterStart, '>');
      FindsFirst(afterStart, '>');
    }
  }

  predicate LowerLetter(c: char) {
    'a' <= c <= 'z'
  }

  lemma LoweredKeeps(kept: string, source: string)
    requires forall c :: c in kept ==> c in source
    ensures forall c :: c in Lower(kept) && !LowerLetter(c) ==> c in source
  {
    forall i | 0 <= i < |kept| && !LowerLetter(Lower(kept)[i]) ensures Lower(kept)[i] in source {
      assert kept[i] in kept && Lower(kept)[i] == LowerChar(kept[i]);
    }
  }

  lemma DomainTextKeeps(afterAt: string)
    ensures forall c :: c in DomainText(afterAt) && !LowerLetter(c) ==> c in afterAt
    ensures DomainText(afterAt) != [] ==> DomainText(afterAt)[0] != ';'
  {
    var t1 := Trim(afterAt);
    var t2 := TrimMatches(t1, One('>'));
    var bare := TrimMatches(t2, One(';'));
    TrimMatchesKeeps(afterAt, Whitespace);
    TrimMatchesKeeps(t1, One('>'));
    TrimMatchesKeeps(t2, One(';'));
    var segment := FirstSegment(bare);
    FirstSegmentFacts(bare);
    TrimNothing(segment, Whitespace);
    var kept := TrimEndMatches(segment, One('.'));
    TrimEndFacts(segment, One('.'));
    LoweredKeeps(kept, afterAt);
    TrimStartFacts(t2, One(';'));
    TrimEndFacts(TrimStartMatches(t2, One(';')), One(';'));
    assert kept != [] ==> kept[0] == bare[0] && bare[0] != ';';
  }

  lemma ExtractedIsExtractable(input: string)
    requires ExtractEmailDomain(input).Some?
    ensures Extractable(ExtractEmailDomain(input).value)
  {
    var mailbox := Mailbox(Trim(input));
    var candidate := Unquoted(mailbox);
    var d := ExtractEmailDomain(input).value;
    ExtractedDomainsAreNormal(input);
    MailboxBrackets(Trim(input));
    TrimMatchesKeeps(mailbox, Whitespace);
    TrimMatchesKeeps(Trim(mailbox), One('"'));
    TrimMatchesKeeps(TrimMatches(Trim(mailbox), One('"')), One('\''));
    DomainTextKeeps(candidate[RFind(candidate, '@').value + 1..]);
    assert '<' in d ==> '<' in mailbox;
    assert '>' in d ==> '>' in mailbox;
    assert Lower(d) == d;
  }

  // ---- and for each such domain an address ----

  function AddressFor(d: string): string {
    (if '<' in d then "<" else "") + Core(d)
  }

  function Core(d: string): string {
    "x" + ['@'] + ([';'] + (d + " x"))
  }

  lemma TrimNeither(s: string, p: Pattern)
    requires s != [] && !Matches(p, s[0]) && !Matches(p, s[|s| - 1])
    ensures TrimMatches(s, p) == s
  {
    TrimSurrounded("", s, "", p);
    assert "" + s + "" == s;
  }

  lemma {:induction false} SegmentBefore(d: string, rest: string)
    requires (forall c :: c in d ==> !IsSeparator(c)) && rest != [] && IsSeparator(rest[0])
    ensures FirstSegment(d + rest) == d
  {
    if d == [] {
      assert d + rest == rest;
    } else {
      assert (d + rest)[1..] == d[1..] + rest;
      SegmentBefore(d[1..], rest);
    }
  }

  lemma CoreText(d: string)
    requires Extractable(d)
    ensures DomainText([';'] + (d + " x")) == d
  {
    var text := [';'] + (d + " x");
    TrimNeither(text, Whitespace);
    TrimNeither(text, One('>'));
    TrimSurrounded([';'], d + " x", "", One(';'));
    assert [';'] + (d + " x") + "" == text;
    SegmentBefore(d, " x");
    TrimNothing(d, Whitespace);
    TrimSurrounded("", d, "", Whitespace);
    TrimEndFacts(d, One('.'));
    assert TrimEndMatches(d, One('.')) == d;
  }

  lemma CoreMailbox(d: string)
    requires Extractable(d)
    ensures MailboxDomain(Core(d)) == Some(d)
  {
    var text := [';'] + (d + " x");
    TrimNeither(Core(d), Whitespace);
    TrimNeither(Core(d), One('"'));
    TrimNeither(Core(d), One('\''));
    assert '@' !in text;
    RFindLast("x", '@', text);
    assert Core(d)[2..] == text;
    CoreText(d);
  }

  lemma MailboxOfText(text: string)
    ensures '<' !in text ==> Mailbox(text) == text
    ensures '>' !in text ==> Mailbox(['<'] + text) == text
  {
    FindAbsent(text, '<');
    FindAbsent(text, '>');
    assert (['<'] + text)[1..] == text;
    assert Find(['<'] + text, '<') == Some(0);
  }

  lemma AddressGives(d: string)
    requires Extractable(d)
    ensures ExtractEmailDomain(AddressFor(d)) == Some(d)
  {
    var core := Core(d);
    CoreMailbox(d);
    MailboxOfText(core);
    CoreBrackets(d);
    var address := AddressFor(d);
    assert address == if '<' in d then ['<'] + core else core;
    TrimNeither(address, Whitespace);
    assert Mailbox(address) == core;
  }

  lemma CoreBrackets(d: string)
    ensures '<' in Core(d) ==> '<' in d
    ensures '>' in Core(d) ==> '>' in d
    ensures Core(d) != [] && Core(d)[0] == 'x' && Core(d)[|Core(d)| - 1] == 'x'
  {
  }

  /** The exact image of extraction. */
  lemma ExtractableExactly(d: string)
    ensures Extractable(d) <==> exists input :: ExtractEmailDomain(input) == Some(d)
  {
    if Extractable(d) {
      AddressGives(d);
    }
    forall input | ExtractEmailDomain(input) == Some(d) ensures Extractable(d) {
      ExtractedIsExtractable(input);
    }
  }

  lemma ExtractableIsNormal(d: string)
    requires Extractable(d)
    ensures NormalDomain(d)
  {
    AddressGives(d);
    ExtractedDomainsAreNormal(AddressFor(d));
  }

  // ---- events ----

  predicate ExtractableDomains(event: RoutingEvent) {
    && (event.fromDomain.Some? ==> Extractable(event.fromDomain.value))
    && (forall d :: d in event.toDomains ==> Extractable(d))
  }

  lemma {:induction false} ExtractAllGives(addresses: seq<Value>)
    ensures forall d :: d in ExtractAll(addresses) ==> Extractable(d)
  {
    if addresses != [] {
      ExtractAllGives(addresses[1..]);
      if addresses[0].String? && ExtractEmailDomain(addresses[0].s).Some? {
        ExtractedIsExtractable(addresses[0].s);
      }
    }
  }

  lemma ExtractGives(value: Option<Value>)
    ensures forall d :: d in ExtractDomainsFromValue(value) ==> Extractable(d)
  {
    match value
    case None =>
    case Some(String(address)) =>
      if ExtractEmailDomain(address).Some? {
        ExtractedIsExtractable(address);
      }
    case Some(Array(addresses)) => ExtractAllGives(addresses);
    case Some(_) =>
  }

  lemma ParsedDomains(value: Value)
    ensures ExtractableDomains(ParseEventForRouting(value))
  {
    var data := match value.Get("data") case None => Null case Some(d) => d;
    var from := StrField(data, "from");
    if from.Some? && ExtractEmailDomain(from.value).Some? {
      ExtractedIsExtractable(from.value);
    }
    ExtractGives(data.Get("to"));
  }

  function Addresses(ds: seq<string>): seq<Value> {
    if ds == [] then [] else [String(AddressFor(ds[0]))] + Addresses(ds[1..])
  }

  lemma {:induction false} AddressesGive(ds: seq<string>)
    requires forall d :: d in ds ==> Extractable(d)
    ensures ExtractAll(Addresses(ds)) == ds
  {
    if ds != [] {
      assert ds[0] in ds;
      AddressGives(ds[0]);
      AddressesGive(ds[1..]);
      assert Addresses(ds)[1..] == Addresses(ds[1..]);
    }
  }

  function Field(key: string, text: Option<string>): map<string, Value> {
    if text.Some? then map[key := String(text.value)] else map[]
  }

  /** A payload for an event. */
  function PayloadFor(event: RoutingEvent): Value {
    var from := match event.fromDomain case None => None case Some(d) => Some(AddressFor(d));
    var data := Object(map["to" := Array(Addresses(event.toDomains))] + Field("from", from));
    Object(map["data" := data] + Field("id", event.eventId) + Field("type", event.eventType))
  }

  lemma DataFields(from: Option<string>, to: Value)
    ensures var data := Object(map["to" := to] + Field("from", from));
            && data.Get("to") == Some(to) && StrField(data, "from") == from
            && data.Get("id") == None && data.Get("email_id") == None
  {
    assert "id"[0] != "to"[0] && |"from"| == 4 && |"to"| == |"id"| == 2 && |"email_id"| == 8;
  }

  lemma TopFields(id: Option<string>, kind: Option<string>, data: Value)
    ensures var value := Object(map["data" := data] + Field("id", id) + Field("type", kind));
            value.Get("data") == Some(data) && StrField(value, "id") == id && StrField(value, "type") == kind
  {
    assert "data"[0] != "type"[0] && |"data"| == |"type"| == 4 && |"id"| == 2;
  }

  lemma PayloadParses(event: RoutingEvent)
    requires ExtractableDomains(event)
    ensures ParseEventForRouting(PayloadFor(event)) == event
  {
    AddressesGive(event.toDomains);
    if event.fromDomain.Some? {
      AddressGives(event.fromDomain.value);
    }
    var from := match event.fromDomain case None => None case Some(d) => Some(AddressFor(d));
    var to := Array(Addresses(event.toDomains));
    DataFields(from, to);
    TopFields(event.eventId, event.eventType, Object(map["to" := to] + Field("from", from)));
  }

  /** Exactly which events webhooks give: any id and type, with extractable domains. */
  lemma ParsedExactly(event: RoutingEvent)
    ensures (exists value :: ParseEventForRouting(value) == event) <==> ExtractableDomains(event)
  {
    if ExtractableDomains(event) {
      PayloadParses(event);
    }
    forall value | ParseEventForRouting(value) == event ensures ExtractableDomains(event) {
      ParsedDomains(value);
    }
  }

  // ---- which destinations can be met ----

  /** What the matcher compares an entry as. */
  function CodeForm(configured: string): string {
    Lower(StripDomain(configured))
  }

  /** An entry that no address meets. */
  predicate Dead(configured: string) {
    !Extractable(CodeForm(configured))
  }

  /** A constraint that no event meets. */
  predicate Mute(configured: seq<string>) {
    configured != [] && forall c :: c in configured ==> Dead(c)
  }

  /** Some event can reach the destination. */
  predicate Serves(d: Destination) {
    d.catchAll || (!Mute(d.fromDomains) && !Mute(d.toDomains))
  }

  predicate Served(ds: seq<Destination>) {
    exists d :: d in ds && Serves(d)
  }

  lemma MuteListsNothing(list: seq<string>, d: string)
    requires Mute(list) && Extractable(d)
    ensures !Lists(list, d)
  {
  }

  lemma MuteListsNone(list: seq<string>, domains: seq<string>)
    requires Mute(list) && forall d :: d in domains ==> Extractable(d)
    ensures forall d :: d in domains ==> !Lists(list, d)
  {
  }

  /** Some domain that a list names, if it is not mute. */
  lemma ListedWitness(list: seq<string>) returns (d: string)
    requires list != [] && !Mute(list)
    ensures Extractable(d) && Lists(list, d)
  {
    var c :| c in list && !Dead(c);
    d := CodeForm(c);
    assert SameDomain(c, d);
  }

  /** An event with at most one domain of each kind, and a type the destination takes. */
  function EventFor(d: Destination, from: string, to: string): RoutingEvent {
    RoutingEvent(None,
                 if d.eventTypes != [] then Some(d.eventTypes[0]) else None,
                 if d.fromDomains != [] then Some(from) else None,
                 if d.toDomains != [] then [to] else [])
  }

  lemma MeetingEvent(d: Destination) returns (event: RoutingEvent)
    requires Serves(d)
    ensures ExtractableDomains(event) && Means(d, event)
  {
    if d.catchAll {
      event := RoutingEvent(None, None, None, []);
    } else {
      var from, to := "", "";
      if d.fromDomains != [] {
        from := ListedWitness(d.fromDomains);
      }
      if d.toDomains != [] {
        to := ListedWitness(d.toDomains);
      }
      event := EventFor(d, from, to);
      assert d.toDomains != [] ==> to in event.toDomains;
    }
  }

  lemma MetServes(d: Destination, event: RoutingEvent)
    requires ExtractableDomains(event) && Means(d, event)
    ensures Serves(d)
  {
    if !d.catchAll {
      if Mute(d.fromDomains) {
        MuteListsNothing(d.fromDomains, event.fromDomain.value);
      }
      if Mute(d.toDomains) {
        MuteListsNone(d.toDomains, event.toDomains);
      }
    }
  }

  lemma {:induction false} IntendedSome(ds: seq<Destination>, event: RoutingEvent)
    ensures Intended(ds, event) != [] <==> exists d :: d in ds && Means(d, event)
  {
    if ds != [] {
      IntendedSome(ds[1..], event);
      assert ds == [ds[0]] + ds[1..];
    }
  }

  lemma MatchedSome(ds: seq<Destination>, event: RoutingEvent)
    requires forall d :: d in ds ==> ValidDestination(d)
    ensures MatchDestinations(ds, event) != [] <==> exists d :: d in ds && Means(d, event)
  {
    RoutingRefinesMeaning(ds, event);
    IntendedSome(ds, event);
    assert |NormalizeAll(Intended(ds, event))| == |Intended(ds, event)|;
  }

  lemma MatchedPayload(ds: seq<Destination>) returns (value: Value)
    requires (forall d :: d in ds ==> ValidDestination(d)) && Served(ds)
    ensures MatchDestinations(ds, ParseEventForRouting(value)) != []
  {
    var d :| d in ds && Serves(d);
    var event := MeetingEvent(d);
    value := PayloadFor(event);
    PayloadParses(event);
    MatchedSome(ds, event);
  }

  lemma UnservedMatchesNothing(ds: seq<Destination>, value: Value)
    requires (forall d :: d in ds ==> ValidDestination(d)) && !Served(ds)
    ensures MatchDestinations(ds, ParseEventForRouting(value)) == []
  {
    var event := ParseEventForRouting(value);
    ParsedDomains(value);
    MatchedSome(ds, event);
    forall d | d in ds ensures !Means(d, event) {
      if Means(d, event) {
        MetServes(d, event);
      }
    }
  }

  /** Some webhook reaches some destination of a valid configuration exactly when a
      destination is a catch-all or each of its domain lists has an entry that an
      address can meet. */
  lemma ServedExactlyWhen(ds: seq<Destination>)
    requires forall d :: d in ds ==> ValidDestination(d)
    ensures (exists value :: MatchDestinations(ds, ParseEventForRouting(value)) != []) <==> Served(ds)
  {
    if Served(ds) {
      var value := MatchedPayload(ds);
    } else {
      forall value ensures MatchDestinations(ds, ParseEventForRouting(value)) == [] {
        UnservedMatchesNothing(ds, value);
      }
    }
  }
}
