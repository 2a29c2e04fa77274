/** Extracting domains from addresses (src/resend.rs). */
module Resend {
  import opened Wrappers
  import opened Text
  import opened Json
  import opened Config
  import opened Router

  /** The index of the first `c`. */
  function Find(s: string, c: char): (at: Option<nat>)
    ensures at.Some? ==> at.value < |s|
  {
    if s == [] then None
    else if s[0] == c then Some(0)
    else match Find(s[1..], c) case None => None case Some(i) => Some(i + 1)
  }

  /** The index of the last `c`. */
  function RFind(s: string, c: char): (at: Option<nat>)
    ensures at.Some? ==> at.value < |s| && s[at.value] == c && c !in s[at.value + 1..]
    ensures at.None? ==> c !in s
  {
    if s == [] then None
    else
      var n := |s| - 1;
      if s[n] == c then Some(n)
      else
        var at := RFind(s[..n], c);
        assert s == s[..n] + [s[n]];
        assert at.Some? ==> s[at.value + 1..] == s[..n][at.value + 1..] + [s[n]];
        at
  }

  predicate IsSeparator(c: char) {
    c == ',' || IsWhitespace(c)
  }

  /** `split(..).next()`: everything before the first separator. */
  function FirstSegment(s: string): string {
    if s == [] || IsSeparator(s[0]) then [] else [s[0]] + FirstSegment(s[1..])
  }

  /** The part of a trimmed address that holds the mailbox: inside the first
      angle brackets if there are any. */
  function Mailbox(trimmed: string): string {
    match Find(trimmed, '<')
    case None => trimmed
    case Some(start) =>
      var afterStart := trimmed[start + 1..];
      match Find(afterStart, '>')
      case None => afterStart
      case Some(end) => afterStart[..end]
  }

  /** The domain text after the last `@`, before the final tests. */
  function DomainText(afterAt: string): string {
    var bare := TrimMatches(TrimMatches(Trim(afterAt), One('>')), One(';'));
    Lower(TrimEndMatches(Trim(FirstSegment(bare)), One('.')))
  }

  function Unquoted(mailbox: string): string {
    TrimMatches(TrimMatches(Trim(mailbox), One('"')), One('\''))
  }

  function MailboxDomain(mailbox: string): Option<string> {
    var candidate := Unquoted(mailbox);
    match RFind(candidate, '@')
    case None => None
    case Some(at) =>
      var domain := DomainText(candidate[at + 1..]);
      if domain == [] || '@' in domain then None else Some(domain)
  }

  function ExtractEmailDomain(input: string): Option<string> {
    var trimmed := Trim(input);
    if trimmed == [] then None else MailboxDomain(Mailbox(trimmed))
  }

  function ExtractAll(addresses: seq<Value>): seq<string> {
    if addresses == [] then []
    else
      var rest := ExtractAll(addresses[1..]);
      match addresses[0].AsStr()
      case None => rest
      case Some(address) =>
        match ExtractEmailDomain(address)
        case None => rest
        case Some(domain) => [domain] + rest
  }

  function ExtractDomainsFromValue(value: Option<Value>): seq<string> {
    match value
    case None => []
    case Some(String(address)) =>
      (match ExtractEmailDomain(address) case None => [] case Some(domain) => [domain])
    case Some(Array(addresses)) => ExtractAll(addresses)
    case Some(_) => []
  }

  function StrField(value: Value, key: string): Option<string> {
    match value.Get(key) case None => None case Some(v) => v.AsStr()
  }

  function OrElse(a: Option<string>, b: Option<string>): Option<string> {
    if a.Some? then a else b
  }

  /** `parse_event_for_routing` after the body has been parsed as JSON. */
  function ParseEventForRouting(value: Value): RoutingEvent {
    var data := match value.Get("data") case None => Null case Some(d) => d;
    RoutingEvent(
      OrElse(StrField(value, "id"), OrElse(StrField(data, "email_id"), StrField(data, "id"))),
      StrField(value, "type"),
      (match StrField(data, "from") case None => None case Some(from) => ExtractEmailDomain(from)),
      ExtractDomainsFromValue(data.Get("to")))
  }

  // ---- trimming ----

  lemma {:induction false} TrimStartFacts(s: string, p: Pattern)
    ensures var r := TrimStartMatches(s, p);
            && |r| <= |s| && r == s[|s| - |r|..]
            && (r != [] ==> !Matches(p, r[0]))
            && (forall i :: 0 <= i < |s| - |r| ==> Matches(p, s[i]))
  {
    if s != [] && Matches(p, s[0]) {
      var rest := s[1..];
      var r := TrimStartMatches(rest, p);
      TrimStartFacts(rest, p);
      assert s[|s| - |r|..] == rest[|rest| - |r|..];
      assert forall i :: 0 < i < |s| - |r| ==> s[i] == rest[i - 1];
    }
  }

  lemma {:induction false} TrimEndFacts(s: string, p: Pattern)
    ensures var r := TrimEndMatches(s, p);
            && |r| <= |s| && r == s[..|r|]
            && (r != [] ==> !Matches(p, r[|r| - 1]))
            && (forall i :: |r| <= i < |s| ==> Matches(p, s[i]))
  {
    if s != [] && Matches(p, s[|s| - 1]) {
      TrimEndFacts(s[..|s| - 1], p);
    }
  }

  /** What stays when `p`-characters `a` and `b` surround a kernel that has none at its ends. */
  lemma TrimSurrounded(a: string, kernel: string, b: string, p: Pattern)
    requires forall c :: c in a ==> Matches(p, c)
    requires forall c :: c in b ==> Matches(p, c)
    requires kernel != [] && !Matches(p, kernel[0]) && !Matches(p, kernel[|kernel| - 1])
    ensures TrimMatches(a + kernel + b, p) == kernel
    ensures TrimStartMatches(a + kernel, p) == kernel
    ensures TrimEndMatches(kernel + b, p) == kernel
  {
    TrimStartAll(a, kernel, p);
    TrimStartAll(a, kernel + b, p);
    TrimEndAll(kernel, b, p);
    assert a + kernel + b == a + (kernel + b);
  }

  lemma {:induction false} TrimStartAll(a: string, rest: string, p: Pattern)
    requires forall c :: c in a ==> Matches(p, c)
    requires rest != [] ==> !Matches(p, rest[0])
    ensures TrimStartMatches(a + rest, p) == rest
  {
    if a == [] {
      assert a + rest == rest;
    } else {
      assert (a + rest)[1..] == a[1..] + rest;
      TrimStartAll(a[1..], rest, p);
    }
  }

  lemma {:induction false} TrimEndAll(rest: string, b: string, p: Pattern)
    requires forall c :: c in b ==> Matches(p, c)
    requires rest != [] ==> !Matches(p, rest[|rest| - 1])
    ensures TrimEndMatches(rest + b, p) == rest
  {
    if b == [] {
      assert rest + b == rest;
    } else {
      var s := rest + b;
      assert s[..|s| - 1] == rest + b[..|b| - 1];
      TrimEndAll(rest, b[..|b| - 1], p);
    }
  }

  lemma TrimNothing(s: string, p: Pattern)
    requires forall c :: c in s ==> !Matches(p, c)
    ensures TrimMatches(s, p) == s && TrimStartMatches(s, p) == s && TrimEndMatches(s, p) == s
  {
  }

  // ---- what the parser reads ----

  /** A field that is there and holds text. */
  predicate HasText(value: Value, key: string, s: string) {
    value.Object? && key in value.fields && value.fields[key] == String(s)
  }

  predicate LacksText(value: Value, key: string) {
    value.Object? && key in value.fields ==> !value.fields[key].String?
  }

  function DataOf(value: Value): Value {
    if value.Object? && "data" in value.fields then value.fields["data"] else Null
  }

  /** The event id is the text of `id`, else of `data.email_id`, else of `data.id`;
      the type is the text of `type`, and the sender is read from `data.from`. */
  lemma ParsedFields(value: Value, s: string)
    ensures var e, data := ParseEventForRouting(value), DataOf(value);
            && (e.eventId == Some(s) <==>
                  || HasText(value, "id", s)
                  || (LacksText(value, "id") && HasText(data, "email_id", s))
                  || (LacksText(value, "id") && LacksText(data, "email_id") && HasText(data, "id", s)))
            && (e.eventType == Some(s) <==> HasText(value, "type", s))
            && (HasText(data, "from", s) ==> e.fromDomain == ExtractEmailDomain(s))
            && (LacksText(data, "from") ==> e.fromDomain == None)
  {
  }

  /** The recipients are one address or a list of them; what yields no domain, or is no
      text, is passed over. */
  lemma ParsedRecipients(value: Value, d: string)
    ensures var domains, data := ParseEventForRouting(value).toDomains, DataOf(value);
            && (forall s :: HasText(data, "to", s) ==>
                  domains == match ExtractEmailDomain(s) { case Some(domain) => [domain] case None => [] })
            && (forall items :: data.Object? && "to" in data.fields && data.fields["to"] == Array(items) ==>
                  (d in domains <==> exists i :: 0 <= i < |items| && Yields(items[i], d)))
            && (LacksText(data, "to") && !(data.Object? && "to" in data.fields && data.fields["to"].Array?) ==>
                  domains == [])
  {
    var data := DataOf(value);
    if data.Object? && "to" in data.fields && data.fields["to"].Array? {
      ExtractAllYields(data.fields["to"].items, d);
    }
  }

  predicate Yields(item: Value, d: string) {
    item.String? && ExtractEmailDomain(item.s) == Some(d)
  }

  lemma {:induction false} ExtractAllYields(items: seq<Value>, d: string)
    ensures d in ExtractAll(items) <==> exists i :: 0 <= i < |items| && Yields(items[i], d)
  {
    if items != [] {
      ExtractAllYields(items[1..], d);
      assert d in ExtractAll(items) <==> Yields(items[0], d) || d in ExtractAll(items[1..]);
      if i: nat :| i < |items[1..]| && Yields(items[1..][i], d) {
        assert Yields(items[i + 1], d);
      }
      if i :| 0 <= i < |items| && Yields(items[i], d) {
        assert i > 0 ==> Yields(items[1..][i - 1], d);
      }
    }
  }

  // ---- what the extractor returns ----

  lemma {:induction false} FirstSegmentFacts(s: string)
    ensures forall c :: c in FirstSegment(s) ==> c in s && !IsSeparator(c)
    ensures (forall c :: c in s ==> !IsSeparator(c)) ==> FirstSegment(s) == s
  {
    if s != [] {
      FirstSegmentFacts(s[1..]);
      assert s == [s[0]] + s[1..];
    }
  }

  lemma TrimMatchesKeeps(s: string, p: Pattern)
    ensures forall c :: c in TrimMatches(s, p) ==> c in s
  {
    TrimStartFacts(s, p);
    TrimEndFacts(TrimStartMatches(s, p), p);
  }

  /** The domain text keeps only characters of its input (lowercased), holds no
      separator and does not end in a dot. */
  lemma DomainTextFacts(afterAt: string)
    ensures var d := DomainText(afterAt);
            && (forall c :: c in d ==> !IsSeparator(c) && LowerChar(c) == c)
            && (d != [] ==> d[|d| - 1] != '.')
            && ('@' !in afterAt ==> '@' !in d)
  {
    var t1 := Trim(afterAt);
    var t2 := TrimMatches(t1, One('>'));
    var bare := TrimMatches(t2, One(';'));
    TrimMatchesKeeps(afterAt, Whitespace);
    TrimMatchesKeeps(t1, One('>'));
    TrimMatchesKeeps(t2, One(';'));
    assert '@' in bare ==> '@' in afterAt;
    LastStepsFacts(bare);
  }

  lemma LastStepsFacts(bare: string)
    ensures var d := Lower(TrimEndMatches(Trim(FirstSegment(bare)), One('.')));
            && (forall c :: c in d ==> !IsSeparator(c) && LowerChar(c) == c)
            && (d != [] ==> d[|d| - 1] != '.')
            && ('@' !in bare ==> '@' !in d)
  {
    var segment := FirstSegment(bare);
    var trimmed := Trim(segment);
    var kept := TrimEndMatches(trimmed, One('.'));
    FirstSegmentFacts(bare);
    TrimMatchesKeeps(segment, Whitespace);
    TrimEndFacts(trimmed, One('.'));
    forall c | c in kept ensures c in bare && !IsSeparator(c) {
      assert c in trimmed;
    }
    LoweredFacts(kept, bare);
  }

  lemma LoweredFacts(kept: string, bare: string)
    requires forall c :: c in kept ==> c in bare && !IsSeparator(c)
    requires kept != [] ==> kept[|kept| - 1] != '.'
    ensures var d := Lower(kept);
            && (forall c :: c in d ==> !IsSeparator(c) && LowerChar(c) == c)
            && (d != [] ==> d[|d| - 1] != '.')
            && ('@' !in bare ==> '@' !in d)
  {
    var d := Lower(kept);
    forall i | 0 <= i < |d|
      ensures !IsSeparator(d[i]) && LowerChar(d[i]) == d[i] && (d[i] == '@' ==> '@' in bare)
    {
      assert kept[i] in kept && d[i] == LowerChar(kept[i]);
    }
  }

  /** The form the matcher compares: a fixed point of normalisation. */
  predicate NormalDomain(d: string) {
    NormalizeDomain(d) == Some(d)
  }

  /** Every domain the extractor returns is non-empty, free of `@`, commas and
      whitespace, has no trailing dot, and is exactly what the matcher compares
      against: normalising it changes nothing. */
  lemma ExtractedDomainsAreNormal(input: string)
    requires ExtractEmailDomain(input).Some?
    ensures var d := ExtractEmailDomain(input).value;
            && d != [] && '@' !in d && d[|d| - 1] != '.'
            && (forall c :: c in d ==> c != ',' && !IsWhitespace(c))
            && NormalDomain(d)
  {
    MailboxDomainIsNormal(Mailbox(Trim(input)));
  }

  lemma MailboxDomainIsNormal(mailbox: string)
    requires MailboxDomain(mailbox).Some?
    ensures var d := MailboxDomain(mailbox).value;
            && d != [] && '@' !in d && d[|d| - 1] != '.'
            && (forall c :: c in d ==> c != ',' && !IsWhitespace(c))
            && NormalDomain(d)
  {
    var candidate := Unquoted(mailbox);
    DomainTextFacts(candidate[RFind(candidate, '@').value + 1..]);
    var d := MailboxDomain(mailbox).value;
    StripFixed(d);
    assert Lower(d) == d;
  }

  /** The test for a second `@` can never reject an address: what follows the
      last `@` contains none. */
  lemma SecondAtTestNeverFires(input: string)
    ensures var candidate := Unquoted(Mailbox(Trim(input)));
            var at := RFind(candidate, '@');
            && (at.Some? ==> '@' !in DomainText(candidate[at.value + 1..]))
            && (ExtractEmailDomain(input).None? <==>
                  Trim(input) == [] || at.None? || DomainText(candidate[at.value + 1..]) == [])
  {
    var candidate := Unquoted(Mailbox(Trim(input)));
    if RFind(candidate, '@').Some? {
      DomainTextFacts(candidate[RFind(candidate, '@').value + 1..]);
    }
  }

  lemma {:induction false} ExtractAllNormal(addresses: seq<Value>)
    ensures forall d :: d in ExtractAll(addresses) ==> NormalDomain(d)
  {
    if addresses != [] {
      ExtractAllNormal(addresses[1..]);
      if addresses[0].String? && ExtractEmailDomain(addresses[0].s).Some? {
        ExtractedDomainsAreNormal(addresses[0].s);
      }
    }
  }

  lemma ExtractedFromValueNormal(value: Option<Value>)
    ensures forall d :: d in ExtractDomainsFromValue(value) ==> NormalDomain(d)
  {
    match value
    case None =>
    case Some(String(address)) =>
      if ExtractEmailDomain(address).Some? {
        ExtractedDomainsAreNormal(address);
      }
    case Some(Array(addresses)) => ExtractAllNormal(addresses);
    case Some(_) =>
  }

  /** Every domain of an event, whatever its body, is in the form the matcher compares. */
  lemma EventDomainsAreNormal(value: Value)
    ensures var event := ParseEventForRouting(value);
            && (event.fromDomain.Some? ==> NormalDomain(event.fromDomain.value))
            && (forall d :: d in event.toDomains ==> NormalDomain(d))
  {
    var data := match value.Get("data") case None => Null case Some(d) => d;
    var from := StrField(data, "from");
    if from.Some? && ExtractEmailDomain(from.value).Some? {
      ExtractedDomainsAreNormal(from.value);
    }
    ExtractedFromValueNormal(data.Get("to"));
  }

  /** Normalising is not idempotent on arbitrary strings ... */
  lemma NormalizeIsNotIdempotent()
    ensures NormalizeDomain("@ a") == Some(" a")
    ensures NormalizeDomain(" a") == Some("a")
  {
    StripParts("", "@", " a", "", "");
    assert "" + ("@" + (" a" + "")) + "" == "@ a";
    assert Lower(" a") == " a";
    StripParts(" ", "", "a", "", "");
    assert " " + ("" + ("a" + "")) + "" == " a";
    assert Lower("a") == "a";
  }

  /** ... and it is exactly when the `@`s and dots it strips hide no outer whitespace. */
  lemma NormalizeIsIdempotentWhen(domain: string)
    requires NormalizeDomain(domain).Some?
    ensures var n := NormalizeDomain(domain).value;
            NormalizeDomain(n) == Some(n) <==> !IsWhitespace(n[0]) && !IsWhitespace(n[|n| - 1])
  {
    var s := TrimStartMatches(Trim(domain), One('@'));
    var e := TrimEndMatches(s, One('.'));
    TrimStartFacts(Trim(domain), One('@'));
    TrimEndFacts(s, One('.'));
    var n := Lower(e);
    assert n[0] == LowerChar(e[0]) && n[|n| - 1] == LowerChar(e[|e| - 1]);
    assert Lower(n) == n;
    NormalizeFixedPoint(n);
  }

  /** Everything in `s[i..j]` matches. */
  predicate Filled(s: string, p: Pattern, i: nat, j: nat) {
    i <= j <= |s| && forall k :: i <= k < j ==> Matches(p, s[k])
  }

  predicate GapAfter(s: string, i: nat, j: nat) {
    i < j < |s| && Filled(s, Whitespace, 0, i) && Filled(s, One('@'), i, j) && IsWhitespace(s[j])
  }

  predicate GapBefore(s: string, k: nat, l: nat) {
    0 < k < l <= |s| && IsWhitespace(s[k - 1]) && Filled(s, One('.'), k, l) && Filled(s, Whitespace, l, |s|)
  }

  /** Whitespace just behind the leading `@`s. */
  ghost predicate GapBehindAts(s: string) {
    exists i: nat, j: nat :: GapAfter(s, i, j)
  }

  /** Whitespace just before the trailing dots. */
  ghost predicate GapBeforeDots(s: string) {
    exists k: nat, l: nat :: GapBefore(s, k, l)
  }

  /** The parts of a text: whitespace, `@`s, what stripping leaves, dots, whitespace. */
  predicate Shape(s: string, i: nat, j: nat, k: nat, l: nat) {
    && i <= j < k <= l <= |s|
    && Filled(s, Whitespace, 0, i) && Filled(s, One('@'), i, j)
    && Filled(s, One('.'), k, l) && Filled(s, Whitespace, l, |s|)
    && s[j] != '@' && s[k - 1] != '.' && !IsWhitespace(s[i]) && !IsWhitespace(s[l - 1])
  }

  lemma TrimShape(s: string) returns (i: nat, l: nat)
    ensures i <= l <= |s| && Trim(s) == s[i..l]
    ensures Filled(s, Whitespace, 0, i) && Filled(s, Whitespace, l, |s|)
    ensures i < l ==> !IsWhitespace(s[i]) && !IsWhitespace(s[l - 1])
  {
    var a := TrimStartMatches(s, Whitespace);
    TrimStartFacts(s, Whitespace);
    TrimEndFacts(a, Whitespace);
    i := |s| - |a|;
    l := i + |Trim(s)|;
    forall m | l <= m < |s| ensures IsWhitespace(s[m]) {
      assert s[m] == a[m - i];
    }
  }

  lemma CoreShape(t: string) returns (j: nat, k: nat)
    ensures j <= k <= |t| && TrimEndMatches(TrimStartMatches(t, One('@')), One('.')) == t[j..k]
    ensures Filled(t, One('@'), 0, j) && Filled(t, One('.'), k, |t|)
    ensures j < k ==> t[j] != '@' && t[k - 1] != '.'
  {
    var u := TrimStartMatches(t, One('@'));
    var e := TrimEndMatches(u, One('.'));
    TrimStartFacts(t, One('@'));
    TrimEndFacts(u, One('.'));
    j := |t| - |u|;
    k := j + |e|;
    forall m | k <= m < |t| ensures t[m] == '.' {
      assert t[m] == u[m - j];
    }
  }

  lemma FilledWithin(s: string, p: Pattern, i: nat, l: nat, a: nat, b: nat)
    requires i <= l <= |s| && Filled(s[i..l], p, a, b)
    ensures Filled(s, p, i + a, i + b)
  {
    forall m | i + a <= m < i + b ensures Matches(p, s[m]) {
      assert s[m] == s[i..l][m - i];
    }
  }

  lemma SliceOfSlice(s: string, i: nat, l: nat, a: nat, b: nat)
    requires i <= l <= |s| && a <= b <= l - i
    ensures s[i..l][a..b] == s[i + a..i + b]
  {
    var t := s[i..l];
    assert forall m :: 0 <= m < b - a ==> t[a..b][m] == t[a + m] == s[i + a + m];
  }

  lemma StripShape(s: string) returns (i: nat, j: nat, k: nat, l: nat)
    requires StripDomain(s) != []
    ensures Shape(s, i, j, k, l) && StripDomain(s) == s[j..k]
  {
    i, l := TrimShape(s);
    var a, b := CoreShape(Trim(s));
    j, k := i + a, i + b;
    FilledWithin(s, One('@'), i, l, 0, a);
    FilledWithin(s, One('.'), i, l, b, l - i);
    SliceOfSlice(s, i, l, a, b);
    assert s[i..l][a] == s[j] && s[i..l][b - 1] == s[k - 1];
  }

  /** Only spaces around `@`s and then dots. */
  predicate HollowAt(s: string, i: nat, j: nat, l: nat) {
    && Filled(s, Whitespace, 0, i) && Filled(s, One('@'), i, j)
    && Filled(s, One('.'), j, l) && Filled(s, Whitespace, l, |s|)
  }

  /** Exactly the entries that validation refuses. */
  lemma StripsToNothingExactly(s: string)
    ensures StripDomain(s) == [] <==> exists i, j, l :: HollowAt(s, i, j, l)
  {
    if StripDomain(s) == [] {
      var i, j, l := HollowShape(s);
    }
    forall i: nat, j: nat, l: nat | HollowAt(s, i, j, l) ensures StripDomain(s) == [] {
      HollowParts(s, i, j, l);
    }
  }

  lemma HollowShape(s: string) returns (i: nat, j: nat, l: nat)
    requires StripDomain(s) == []
    ensures HollowAt(s, i, j, l)
  {
    i, l := TrimShape(s);
    var r := TrimStartMatches(Trim(s), One('@'));
    TrimStartFacts(Trim(s), One('@'));
    TrimEndFacts(r, One('.'));
    j := l - |r|;
    FilledWithin(s, One('@'), i, l, 0, j - i);
    FilledWithin(s, One('.'), i, l, j - i, l - i);
  }

  lemma HollowParts(s: string, i: nat, j: nat, l: nat)
    requires HollowAt(s, i, j, l)
    ensures StripDomain(s) == []
  {
    HollowStrips(s[..i], s[i..j], s[j..l], s[l..]);
    assert s == s[..i] + (s[i..j] + s[j..l]) + s[l..];
  }

  lemma HollowStrips(before: string, ats: string, dots: string, after: string)
    requires (forall c :: c in before ==> IsWhitespace(c)) && (forall c :: c in after ==> IsWhitespace(c))
    requires (forall c :: c in ats ==> c == '@') && (forall c :: c in dots ==> c == '.')
    ensures StripDomain(before + (ats + dots) + after) == []
  {
    var core := ats + dots;
    if core == [] {
      assert before + core + after == (before + after) + [];
      TrimStartAll(before + after, [], Whitespace);
    } else {
      assert core[0] in core && core[|core| - 1] in core;
      assert forall c :: c in core ==> c == '@' || c == '.';
      TrimSurrounded(before, core, after, Whitespace);
    }
    assert dots != [] ==> dots[0] in dots;
    TrimStartAll(ats, dots, One('@'));
    TrimEndAll([], dots, One('.'));
    assert [] + dots == dots;
  }

  lemma GapBehindExactly(s: string, i: nat, j: nat, k: nat, l: nat)
    requires Shape(s, i, j, k, l)
    ensures GapBehindAts(s) <==> IsWhitespace(s[j])
  {
    if IsWhitespace(s[j]) {
      assert GapAfter(s, i, j);
    }
    forall i': nat, j': nat | GapAfter(s, i', j') ensures j' == j {
      assert s[i'] == '@' && i' == i;
    }
  }

  lemma GapBeforeExactly(s: string, i: nat, j: nat, k: nat, l: nat)
    requires Shape(s, i, j, k, l)
    ensures GapBeforeDots(s) <==> IsWhitespace(s[k - 1])
  {
    if IsWhitespace(s[k - 1]) {
      assert GapBefore(s, k, l);
    }
    forall k': nat, l': nat | GapBefore(s, k', l') ensures k' == k {
      assert s[l' - 1] == '.' && l' == l;
    }
  }

  /** ... and it is exactly on texts without such gaps. */
  lemma NormalizeIsIdempotentOn(s: string)
    requires NormalizeDomain(s).Some?
    ensures NormalizeDomain(NormalizeDomain(s).value) == NormalizeDomain(s) <==> !GapBehindAts(s) && !GapBeforeDots(s)
  {
    var i, j, k, l := StripShape(s);
    GapBehindExactly(s, i, j, k, l);
    GapBeforeExactly(s, i, j, k, l);
    NormalizeIsIdempotentWhen(s);
    var d, n := StripDomain(s), NormalizeDomain(s).value;
    assert d[0] == s[j] && d[|d| - 1] == s[k - 1];
    assert n[0] == LowerChar(d[0]) && n[|n| - 1] == LowerChar(d[|d| - 1]);
  }

  lemma NormalizeFixedPoint(n: string)
    requires n != [] && n[0] != '@' && n[|n| - 1] != '.' && Lower(n) == n
    ensures NormalizeDomain(n) == Some(n) <==> !IsWhitespace(n[0]) && !IsWhitespace(n[|n| - 1])
  {
    if !IsWhitespace(n[0]) && !IsWhitespace(n[|n| - 1]) {
      StripFixed(n);
    } else {
      StripShorter(n);
      assert |Lower(StripDomain(n))| < |n|;
    }
  }

  /** What stripping leaves of a kernel that shows no `@` in front and no dot behind. */
  lemma StripParts(before: string, ats: string, kernel: string, dots: string, after: string)
    requires forall c :: c in before ==> IsWhitespace(c)
    requires forall c :: c in after ==> IsWhitespace(c)
    requires forall c :: c in ats ==> c == '@'
    requires forall c :: c in dots ==> c == '.'
    requires kernel != [] && kernel[0] != '@' && kernel[|kernel| - 1] != '.'
    requires ats == [] ==> !IsWhitespace(kernel[0])
    requires dots == [] ==> !IsWhitespace(kernel[|kernel| - 1])
    ensures StripDomain(before + (ats + (kernel + dots)) + after) == kernel
  {
    var middle := ats + (kernel + dots);
    assert middle[0] == if ats == [] then kernel[0] else ats[0];
    assert ats != [] ==> ats[0] in ats;
    assert middle[|middle| - 1] == if dots == [] then kernel[|kernel| - 1] else dots[|dots| - 1];
    assert dots != [] ==> dots[|dots| - 1] in dots;
    TrimSurrounded(before, middle, after, Whitespace);
    TrimStartAll(ats, kernel + dots, One('@'));
    TrimEndAll(kernel, dots, One('.'));
  }

  lemma StripFixed(n: string)
    requires n != [] && n[0] != '@' && n[|n| - 1] != '.'
    requires !IsWhitespace(n[0]) && !IsWhitespace(n[|n| - 1])
    ensures StripDomain(n) == n
  {
    assert [] + n + [] == n;
    TrimSurrounded([], n, [], Whitespace);
  }

  lemma StripShorter(n: string)
    requires n != [] && (IsWhitespace(n[0]) || IsWhitespace(n[|n| - 1]))
    ensures |StripDomain(n)| < |n|
  {
    var a := TrimStartMatches(n, Whitespace);
    TrimStartFacts(n, Whitespace);
    TrimEndFacts(a, Whitespace);
    var t := Trim(n);
    assert |t| < |n|;
    TrimStartFacts(t, One('@'));
    TrimEndFacts(TrimStartMatches(t, One('@')), One('.'));
  }

  // ---- finding characters ----

  lemma {:induction false} FindAbsent(s: string, c: char)
    ensures c !in s <==> Find(s, c).None?
  {
    if s != [] {
      FindAbsent(s[1..], c);
      assert s == [s[0]] + s[1..];
    }
  }

  lemma {:induction false} FindFirst(a: string, c: char, b: string)
    requires c !in a
    ensures Find(a + [c] + b, c) == Some(|a|)
  {
    if a != [] {
      assert (a + [c] + b)[1..] == a[1..] + [c] + b;
      FindFirst(a[1..], c, b);
    }
  }

  lemma {:induction false} RFindLast(a: string, c: char, b: string)
    requires c !in b
    ensures RFind(a + [c] + b, c) == Some(|a|)
  {
    var s := a + [c] + b;
    if b != [] {
      assert s[|s| - 1] == b[|b| - 1];
      assert s[..|s| - 1] == a + [c] + b[..|b| - 1];
      RFindLast(a, c, b[..|b| - 1]);
    }
  }
}
