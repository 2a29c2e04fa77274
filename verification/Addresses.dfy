/** Addresses in all the forms extraction understands, and where they are routed. */
module Addresses {
  import opened Wrappers
  import opened Text
  import opened Json
  import opened Config
  import opened Router
  import opened Resend

  // ---- the parts of an address ----

  predicate IsDomainChar(c: char) {
    'a' <= c <= 'z' || 'A' <= c <= 'Z' || '0' <= c <= '9' || c == '-' || c == '.'
  }

  /** A host name: letters, digits, dashes and dots, not ending in a dot. */
  predicate HostName(d: string) {
    d != [] && d[|d| - 1] != '.' && forall c :: c in d ==> IsDomainChar(c)
  }

  predicate Only(s: string, p: Pattern) {
    forall c :: c in s ==> Matches(p, c)
  }

  lemma OnlyEnds(s: string, p: Pattern)
    requires Only(s, p) && s != []
    ensures Matches(p, s[0]) && Matches(p, s[|s| - 1])
  {
  }

  /** What may stand between the `@` and the host, and dots behind it. */
  datatype Host = Host(spaces: string, closers: string, semicolons: string, name: string, dots: string) {
    function Text(): string {
      spaces + (closers + (semicolons + Kernel()))
    }

    function Kernel(): string {
      name + dots
    }

    predicate Ok() {
      && Only(spaces, Whitespace) && Only(closers, One('>')) && Only(semicolons, One(';'))
      && HostName(name) && Only(dots, One('.'))
    }
  }

  /** What may follow the host: closing marks, or a separator and anything else
      without an `@`. */
  datatype Ending =
    | Closing(semicolons: string, closers: string, singles: string, doubles: string, spaces: string)
    | Further(separator: char, others: string)
  {
    function Text(): string {
      match this
      case Closing(semicolons, closers, singles, doubles, spaces) => semicolons + closers + singles + doubles + spaces
      case Further(separator, others) => [separator] + others
    }

    predicate Ok() {
      match this
      case Closing(semicolons, closers, singles, doubles, spaces) =>
        && Only(semicolons, One(';')) && Only(closers, One('>'))
        && Only(singles, One('\'')) && Only(doubles, One('"')) && Only(spaces, Whitespace)
      case Further(separator, others) => IsSeparator(separator) && '@' !in others
    }
  }

  /** The end of a mailbox without outer spaces and quotes. */
  function UnquotedEnd(s: string): string {
    TrimEndMatches(TrimEndMatches(TrimEndMatches(s, Whitespace), One('"')), One('\''))
  }

  predicate Stops(rest: string) {
    rest == [] || IsSeparator(rest[0])
  }

  lemma {:induction false} TrimEndKeeps(k: string, r: string, p: Pattern)
    requires k != [] && !Matches(p, k[|k| - 1])
    ensures TrimEndMatches(k + r, p) == k + TrimEndMatches(r, p)
  {
    var s := k + r;
    if r == [] {
      assert s == k;
    } else if Matches(p, r[|r| - 1]) {
      assert s[..|s| - 1] == k + r[..|r| - 1];
      TrimEndKeeps(k, r[..|r| - 1], p);
    }
  }

  /** Trimming does not cross a text that it leaves as it is. */
  lemma TrimAround(a: string, core: string, y: string, p: Pattern) returns (kept: string)
    requires core != [] && !Matches(p, core[0]) && !Matches(p, core[|core| - 1])
    ensures TrimMatches(a + (core + y), p) == kept + (core + TrimEndMatches(y, p))
    ensures forall c :: c in kept ==> c in a
  {
    TrimStartFacts(a, p);
    kept := TrimStartMatches(a, p);
    var dropped := a[..|a| - |kept|];
    assert a + (core + y) == dropped + (kept + (core + y));
    TrimStartAll(dropped, kept + (core + y), p);
    assert kept + (core + y) == (kept + core) + y;
    TrimEndKeeps(kept + core, y, p);
    assert (kept + core) + TrimEndMatches(y, p) == kept + (core + TrimEndMatches(y, p));
  }

  /** What a mailbox text gives depends on what follows its last `@` only. */
  lemma MailboxAt(a: string, y: string)
    requires '@' !in y
    ensures var d := DomainText(UnquotedEnd(y));
            MailboxDomain(a + (['@'] + y)) == if d == [] || '@' in d then None else Some(d)
  {
    var k1 := TrimAround(a, ['@'], y, Whitespace);
    var y1 := TrimEndMatches(y, Whitespace);
    var k2 := TrimAround(k1, ['@'], y1, One('"'));
    var y2 := TrimEndMatches(y1, One('"'));
    var k3 := TrimAround(k2, ['@'], y2, One('\''));
    var y3 := TrimEndMatches(y2, One('\''));
    TrimEndFacts(y, Whitespace);
    TrimEndFacts(y1, One('"'));
    TrimEndFacts(y2, One('\''));
    assert k3 + (['@'] + y3) == k3 + ['@'] + y3;
    RFindLast(k3, '@', y3);
    assert (k3 + ['@'] + y3)[|k3| + 1..] == y3;
  }

  lemma TrimEndTwice(y: string, p: Pattern)
    ensures TrimEndMatches(TrimEndMatches(y, p), p) == TrimEndMatches(y, p)
  {
    TrimEndFacts(y, p);
  }

  lemma KernelEnds(h: Host, p: Pattern)
    requires h.Ok() && (p == Whitespace || p.c in "\"'>;")
    ensures !Matches(p, h.Kernel()[0]) && !Matches(p, h.Kernel()[|h.Kernel()| - 1])
    ensures forall r :: TrimEndMatches(h.Kernel() + r, p) == h.Kernel() + TrimEndMatches(r, p)
  {
    var k := h.Kernel();
    assert IsDomainChar(h.name[0]);
    if h.dots == [] {
      assert IsDomainChar(h.name[|h.name| - 1]) && k[|k| - 1] == h.name[|h.name| - 1];
    } else {
      OnlyEnds(h.dots, One('.'));
    }
    forall r ensures TrimEndMatches(k + r, p) == k + TrimEndMatches(r, p) {
      TrimEndKeeps(k, r, p);
    }
  }

  /** Trimming takes what it matches in front of a kernel and at the end. */
  lemma TrimFront(p: Pattern, front: string, middle: string, h: Host, rest: string)
    requires h.Ok() && (p == Whitespace || p.c in "\"'>;")
    requires Only(front, p) && (middle != [] ==> !Matches(p, middle[0]))
    ensures TrimMatches(front + (middle + (h.Kernel() + rest)), p) == middle + (h.Kernel() + TrimEndMatches(rest, p))
  {
    KernelEnds(h, p);
    TrimStartAll(front, middle + (h.Kernel() + rest), p);
    FrontKeeps(middle, h, rest, p);
  }

  /** Up to its first separator, a host with only closing marks around it is read as
      its name in lower case. */
  lemma HostText(h: Host, rest: string)
    requires h.Ok()
    requires Stops(rest) || exists semicolons, closers ::
               Only(semicolons, One(';')) && Only(closers, One('>')) && rest == semicolons + closers
    ensures DomainText(h.Text() + rest) == Lower(h.name)
  {
    var k := h.Kernel();
    var r1 := TrimEndMatches(rest, Whitespace);
    var r2 := TrimEndMatches(r1, One('>'));
    var r3 := TrimEndMatches(r2, One(';'));
    HostTrims(h, rest, r1, r2, r3);
    RestStops(rest);
    SegmentEnds(h, r3);
  }

  lemma HostTrims(h: Host, rest: string, r1: string, r2: string, r3: string)
    requires h.Ok() && r1 == TrimEndMatches(rest, Whitespace)
    requires r2 == TrimEndMatches(r1, One('>')) && r3 == TrimEndMatches(r2, One(';'))
    ensures TrimMatches(TrimMatches(Trim(h.Text() + rest), One('>')), One(';')) == h.Kernel() + r3
  {
    TrimSpaces(h, rest);
    TrimClosers(h, r1);
    TrimFront(One(';'), h.semicolons, "", h, r2);
    assert "" + (h.Kernel() + r2) == h.Kernel() + r2;
    assert "" + (h.Kernel() + r3) == h.Kernel() + r3;
  }

  lemma TrimSpaces(h: Host, rest: string)
    requires h.Ok()
    ensures Trim(h.Text() + rest) == (h.closers + h.semicolons) + (h.Kernel() + TrimEndMatches(rest, Whitespace))
  {
    if h.closers != [] {
      OnlyEnds(h.closers, One('>'));
    } else if h.semicolons != [] {
      OnlyEnds(h.semicolons, One(';'));
    }
    TrimFront(Whitespace, h.spaces, h.closers + h.semicolons, h, rest);
    Regroup(h.spaces, h.closers, h.semicolons, h.Kernel(), rest);
  }

  lemma Regroup(a: string, b: string, c: string, d: string, e: string)
    ensures (a + (b + (c + d))) + e == a + ((b + c) + (d + e))
  {
    assert (b + (c + d)) + e == (b + c) + (d + e);
  }

  lemma TrimClosers(h: Host, rest: string)
    requires h.Ok()
    ensures TrimMatches((h.closers + h.semicolons) + (h.Kernel() + rest), One('>'))
            == h.semicolons + (h.Kernel() + TrimEndMatches(rest, One('>')))
  {
    if h.semicolons != [] {
      OnlyEnds(h.semicolons, One(';'));
    }
    TrimFront(One('>'), h.closers, h.semicolons, h, rest);
    assert (h.closers + h.semicolons) + (h.Kernel() + rest) == h.closers + (h.semicolons + (h.Kernel() + rest));
  }

  /** Trimming the end leaves the kernel and all before it. */
  lemma FrontKeeps(front: string, h: Host, r: string, p: Pattern)
    requires h.Ok() && (p == Whitespace || p.c in "\"'>;")
    ensures TrimEndMatches(front + (h.Kernel() + r), p) == front + (h.Kernel() + TrimEndMatches(r, p))
  {
    KernelEnds(h, p);
    var k := h.Kernel();
    assert front + (k + r) == (front + k) + r;
    TrimEndKeeps(front + k, r, p);
    assert (front + k) + TrimEndMatches(r, p) == front + (k + TrimEndMatches(r, p));
  }

  lemma RestStops(rest: string)
    requires Stops(rest) || exists semicolons, closers ::
               Only(semicolons, One(';')) && Only(closers, One('>')) && rest == semicolons + closers
    ensures Stops(TrimEndMatches(TrimEndMatches(TrimEndMatches(rest, Whitespace), One('>')), One(';')))
  {
    if Stops(rest) {
      TrimEndFacts(rest, Whitespace);
      TrimEndFacts(TrimEndMatches(rest, Whitespace), One('>'));
      TrimEndFacts(TrimEndMatches(TrimEndMatches(rest, Whitespace), One('>')), One(';'));
    } else {
      var semicolons, closers :| Only(semicolons, One(';')) && Only(closers, One('>')) && rest == semicolons + closers;
      ClosersGo(semicolons, closers);
    }
  }

  lemma ClosersGo(semicolons: string, closers: string)
    requires Only(semicolons, One(';')) && Only(closers, One('>'))
    ensures TrimEndMatches(TrimEndMatches(TrimEndMatches(semicolons + closers, Whitespace), One('>')), One(';')) == []
  {
    var rest := semicolons + closers;
    if semicolons != [] {
      OnlyEnds(semicolons, One(';'));
    }
    if closers != [] {
      OnlyEnds(closers, One('>'));
    }
    TrimEndAll(rest, "", Whitespace);
    assert rest + "" == rest;
    TrimEndAll(semicolons, closers, One('>'));
    TrimEndAll("", semicolons, One(';'));
    assert "" + semicolons == semicolons;
  }

  lemma SegmentEnds(h: Host, rest: string)
    requires h.Ok() && Stops(rest)
    ensures Lower(TrimEndMatches(Trim(FirstSegment(h.Kernel() + rest)), One('.'))) == Lower(h.name)
  {
    var k := h.Kernel();
    forall c | c in k ensures !IsSeparator(c) && !IsWhitespace(c) {
      assert IsDomainChar(c);
    }
    SegmentOf(k, rest);
    TrimNothing(k, Whitespace);
    TrimEndAll(h.name, h.dots, One('.'));
  }

  lemma {:induction false} SegmentOf(k: string, rest: string)
    requires (forall c :: c in k ==> !IsSeparator(c)) && Stops(rest)
    ensures FirstSegment(k + rest) == k
  {
    if k == [] {
      assert k + rest == rest;
    } else {
      assert (k + rest)[1..] == k[1..] + rest;
      SegmentOf(k[1..], rest);
    }
  }

  lemma ClosingEnds(e: Ending)
    requires e.Ok() && e.Closing?
    ensures e.semicolons != [] ==> e.semicolons[|e.semicolons| - 1] == ';'
    ensures e.closers != [] ==> e.closers[|e.closers| - 1] == '>'
    ensures e.singles != [] ==> e.singles[|e.singles| - 1] == '\''
    ensures e.doubles != [] ==> e.doubles[|e.doubles| - 1] == '"'
  {
    if e.semicolons != [] { OnlyEnds(e.semicolons, One(';')); }
    if e.closers != [] { OnlyEnds(e.closers, One('>')); }
    if e.singles != [] { OnlyEnds(e.singles, One('\'')); }
    if e.doubles != [] { OnlyEnds(e.doubles, One('"')); }
  }

  /** Closing quotes and spaces go; what is left of a list still starts with its separator. */
  lemma EndingLeaves(e: Ending)
    requires e.Ok()
    ensures e.Closing? ==> UnquotedEnd(e.Text()) == e.semicolons + e.closers
    ensures e.Further? ==> Stops(UnquotedEnd(e.Text()))
  {
    match e
    case Closing(semicolons, closers, singles, doubles, spaces) =>
      ClosingEnds(e);
      ClosingLeaves(semicolons + closers, singles, doubles, spaces);
    case Further(separator, others) => FurtherLeaves(e.Text());
  }

  lemma ClosingLeaves(marks: string, singles: string, doubles: string, spaces: string)
    requires marks != [] ==> marks[|marks| - 1] in ";>"
    requires singles != [] ==> singles[|singles| - 1] == '\''
    requires doubles != [] ==> doubles[|doubles| - 1] == '"'
    requires Only(singles, One('\'')) && Only(doubles, One('"')) && Only(spaces, Whitespace)
    ensures UnquotedEnd(marks + singles + doubles + spaces) == marks
  {
    TrimEndAll(marks + singles + doubles, spaces, Whitespace);
    TrimEndAll(marks + singles, doubles, One('"'));
    TrimEndAll(marks, singles, One('\''));
  }

  lemma FurtherLeaves(s: string)
    requires Stops(s)
    ensures Stops(UnquotedEnd(s))
  {
    TrimEndFacts(s, Whitespace);
    TrimEndFacts(TrimEndMatches(s, Whitespace), One('"'));
    TrimEndFacts(TrimEndMatches(TrimEndMatches(s, Whitespace), One('"')), One('\''));
  }

  /** How a mailbox stands in an address; the first two forms are those of section 3.4
      of RFC 5322. */
  datatype Frame = Bare | Named(name: string, after: string) | Unclosed(name: string)

  datatype Address = Address(frame: Frame, local: string, host: Host, ending: Ending) {
    function Domain(): string {
      host.Text() + ending.Text()
    }

    function Mail(): string {
      local + (['@'] + Domain())
    }

    function Text(): string {
      match frame
      case Bare => Mail()
      case Named(name, after) => name + (['<'] + Mail() + (['>'] + after))
      case Unclosed(name) => name + (['<'] + Mail())
    }

    predicate Ok() {
      host.Ok() && ending.Ok()
      && match frame
         case Bare => '<' !in Mail()
         case Named(name, _) => '<' !in name && '>' !in Mail()
         case Unclosed(name) => '<' !in name && '>' !in Mail()
    }
  }

  /** The mailbox yields the host's name, in lower case, with or without its outer spaces. */
  lemma MailGives(a: Address, local: string)
    requires a.host.Ok() && a.ending.Ok()
    ensures MailboxDomain(local + (['@'] + a.Domain())) == Some(Lower(a.host.name))
    ensures MailboxDomain(local + (['@'] + TrimEndMatches(a.Domain(), Whitespace))) == Some(Lower(a.host.name))
  {
    var y := a.Domain();
    var y1 := TrimEndMatches(y, Whitespace);
    TrimEndFacts(y, Whitespace);
    TrimEndTwice(y, Whitespace);
    DomainLacksAt(a);
    MailboxAt(local, y);
    MailboxAt(local, y1);
    DomainUnquoted(a);
    EndingLeaves(a.ending);
    HostText(a.host, UnquotedEnd(a.ending.Text()));
    forall c | c in Lower(a.host.name) ensures c != '@' {
      var i :| 0 <= i < |a.host.name| && Lower(a.host.name)[i] == c;
      assert IsDomainChar(a.host.name[i]);
    }
  }

  lemma DomainLacksAt(a: Address)
    requires a.host.Ok() && a.ending.Ok()
    ensures '@' !in a.Domain()
  {
    assert '@' !in a.host.name by {
      assert forall c :: c in a.host.name ==> IsDomainChar(c);
    }
  }

  lemma DomainUnquoted(a: Address)
    requires a.host.Ok() && a.ending.Ok()
    ensures UnquotedEnd(a.Domain()) == a.host.Text() + UnquotedEnd(a.ending.Text())
  {
    var rest := a.ending.Text();
    var r1 := TrimEndMatches(rest, Whitespace);
    HostKeeps(a.host, rest, Whitespace);
    HostKeeps(a.host, r1, One('"'));
    HostKeeps(a.host, TrimEndMatches(r1, One('"')), One('\''));
  }

  lemma HostKeeps(h: Host, r: string, p: Pattern)
    requires h.Ok() && (p == Whitespace || p.c in "\"'>;")
    ensures TrimEndMatches(h.Text() + r, p) == h.Text() + TrimEndMatches(r, p)
  {
    var k := h.Kernel();
    KernelEnds(h, p);
    LastOf(h.spaces, h.closers, h.semicolons, k);
    TrimEndKeeps(h.Text(), r, p);
  }

  lemma LastOf(a: string, b: string, c: string, d: string)
    requires d != []
    ensures var s := a + (b + (c + d)); s != [] && s[|s| - 1] == d[|d| - 1]
  {
  }

  /** Extraction finds the host of every such address, in lower case. */
  lemma ExtractAddress(a: Address)
    requires a.Ok()
    ensures ExtractEmailDomain(a.Text()) == Some(Lower(a.host.name))
  {
    match a.frame
    case Bare => ExtractBare(a);
    case Named(name, after) => ExtractNamed(a, name, after);
    case Unclosed(name) => ExtractUnclosed(a, name);
  }

  lemma ExtractBare(a: Address)
    requires a.Ok() && a.frame.Bare?
    ensures ExtractEmailDomain(a.Mail()) == Some(Lower(a.host.name))
  {
    var kept := TrimAround(a.local, ['@'], a.Domain(), Whitespace);
    var trimmed := Trim(a.Mail());
    TrimMatchesKeeps(a.Mail(), Whitespace);
    FindAbsent(trimmed, '<');
    MailGives(a, kept);
  }

  lemma ExtractNamed(a: Address, name: string, after: string)
    requires a.Ok() && a.frame == Named(name, after)
    ensures ExtractEmailDomain(a.Text()) == Some(Lower(a.host.name))
  {
    var mail := a.Mail();
    var kept := TrimNamed(name, mail, after);
    BracketedMailbox(kept, mail, TrimEndMatches(after, Whitespace));
    MailGives(a, a.local);
  }

  lemma TrimNamed(name: string, mail: string, after: string) returns (kept: string)
    ensures Trim(name + (['<'] + mail + (['>'] + after))) == kept + (['<'] + mail + (['>'] + TrimEndMatches(after, Whitespace)))
    ensures forall c :: c in kept ==> c in name
  {
    var core := ['<'] + mail + ['>'];
    kept := TrimAround(name, core, after, Whitespace);
    assert name + (['<'] + mail + (['>'] + after)) == name + (core + after);
    assert core + TrimEndMatches(after, Whitespace) == ['<'] + mail + (['>'] + TrimEndMatches(after, Whitespace));
  }

  lemma ExtractUnclosed(a: Address, name: string)
    requires a.Ok() && a.frame == Unclosed(name)
    ensures ExtractEmailDomain(a.Text()) == Some(Lower(a.host.name))
  {
    var y := a.Domain();
    var kept := TrimOpen(name, a.local, y);
    UnclosedLacks(a.local, y);
    OpenMailbox(kept, a.local + (['@'] + TrimEndMatches(y, Whitespace)));
    MailGives(a, a.local);
  }

  lemma TrimOpen(name: string, local: string, y: string) returns (kept: string)
    ensures Trim(name + (['<'] + (local + (['@'] + y)))) == kept + (['<'] + (local + (['@'] + TrimEndMatches(y, Whitespace))))
    ensures forall c :: c in kept ==> c in name
  {
    var core := ['<'] + local + ['@'];
    kept := TrimAround(name, core, y, Whitespace);
    assert name + (['<'] + (local + (['@'] + y))) == name + (core + y);
    assert core + TrimEndMatches(y, Whitespace) == ['<'] + (local + (['@'] + TrimEndMatches(y, Whitespace)));
  }

  lemma UnclosedLacks(local: string, y: string)
    requires '>' !in local + (['@'] + y)
    ensures '>' !in local + (['@'] + TrimEndMatches(y, Whitespace))
  {
    TrimEndFacts(y, Whitespace);
    var mail := local + (['@'] + y);
    forall i | 0 <= i < |y| ensures y[i] != '>' {
      assert mail[|local| + 1 + i] == y[i];
    }
    forall c | c in local ensures c != '>' {
      assert c in mail;
    }
  }

  lemma OpenMailbox(before: string, inner: string)
    requires '<' !in before && '>' !in inner
    ensures Mailbox(before + (['<'] + inner)) == inner
  {
    var text := before + (['<'] + inner);
    assert text == before + ['<'] + inner;
    FindFirst(before, '<', inner);
    assert text[|before| + 1..] == inner;
    FindAbsent(inner, '>');
  }

  lemma BracketedMailbox(before: string, inner: string, after: string)
    requires '<' !in before && '>' !in inner
    ensures Mailbox(before + (['<'] + inner + (['>'] + after))) == inner
  {
    var text := before + (['<'] + inner + (['>'] + after));
    assert text == before + ['<'] + (inner + ['>'] + after);
    FindFirst(before, '<', inner + ['>'] + after);
    assert text[|before| + 1..] == inner + ['>'] + after;
    FindFirst(inner, '>', after);
    assert (inner + ['>'] + after)[..|inner|] == inner;
  }

  /** A spelling of a host name in the configuration: a case variant with
      leading `@`s, trailing dots and outer whitespace. */
  datatype Spelling = Spelling(before: string, ats: string, variant: string, dots: string, after: string) {
    function Text(): string {
      before + (ats + (variant + dots)) + after
    }

    predicate Of(d: string) {
      && (forall c :: c in before ==> IsWhitespace(c))
      && (forall c :: c in after ==> IsWhitespace(c))
      && (forall c :: c in ats ==> c == '@')
      && (forall c :: c in dots ==> c == '.')
      && HostName(variant) && Lower(variant) == Lower(d)
    }
  }

  lemma SpellingNormalizes(spelling: Spelling, d: string)
    requires HostName(d) && spelling.Of(d)
    ensures NormalizeDomain(spelling.Text()) == Some(Lower(d))
  {
    var variant := spelling.variant;
    assert IsDomainChar(variant[0]) && IsDomainChar(variant[|variant| - 1]);
    StripParts(spelling.before, spelling.ats, variant, spelling.dots, spelling.after);
  }

  /** A destination with one domain list of one entry: what routing compares it with. */
  lemma OneCriterion(dest: Destination, event: RoutingEvent, spelling: Spelling, d: string)
    requires HostName(d) && spelling.Of(d) && dest.eventTypes == []
    ensures dest.fromDomains == [spelling.Text()] && dest.toDomains == [] ==>
              (MatchDestinations([dest], event) ==
                 if dest.catchAll || event.fromDomain == Some(Lower(d)) then [NormalizeDestination(dest)] else [])
    ensures dest.toDomains == [spelling.Text()] && dest.fromDomains == [] ==>
              (MatchDestinations([dest], event) ==
                 if dest.catchAll || Lower(d) in event.toDomains then [NormalizeDestination(dest)] else [])
  {
    SpellingNormalizes(spelling, d);
    var configured := spelling.Text();
    assert [configured][1..] == [];
    assert NormalizeDomains([configured]) == [Lower(d)];
    var n := NormalizeDestination(dest);
    assert NormalizeAll([dest]) == [n];
    assert Filter([n], event) == (if DestinationMatches(n, event) then [n] else []) + Filter([n][1..], event);
  }

  /** From an address to its destination: an event sent from an address
      at D matches a destination whose only criterion is a spelling of
      a sender domain exactly when that domain is `D`, whatever the case. */
  lemma AddressRoutes(from: Address, d: string, spelling: Spelling, dest: Destination, event: RoutingEvent)
    requires from.Ok() && event.fromDomain == ExtractEmailDomain(from.Text())
    requires HostName(d) && spelling.Of(d)
    requires dest.fromDomains == [spelling.Text()] && dest.toDomains == [] && dest.eventTypes == []
    ensures event.fromDomain == Some(Lower(from.host.name))
    ensures MatchDestinations([dest], event) ==
              if dest.catchAll || Lower(from.host.name) == Lower(d) then [NormalizeDestination(dest)] else []
  {
    ExtractAddress(from);
    OneCriterion(dest, event, spelling, d);
  }

  function Texts(addresses: seq<Address>): seq<Value> {
    if addresses == [] then [] else [String(addresses[0].Text())] + Texts(addresses[1..])
  }

  function Hosts(addresses: seq<Address>): seq<string> {
    if addresses == [] then [] else [Lower(addresses[0].host.name)] + Hosts(addresses[1..])
  }

  lemma {:induction false} ExtractAddresses(addresses: seq<Address>)
    requires forall a :: a in addresses ==> a.Ok()
    ensures ExtractDomainsFromValue(Some(Array(Texts(addresses)))) == Hosts(addresses)
    ensures forall h :: h in Hosts(addresses) <==> exists a :: a in addresses && Lower(a.host.name) == h
  {
    if addresses != [] {
      assert addresses[0] in addresses;
      ExtractAddress(addresses[0]);
      ExtractAddresses(addresses[1..]);
      var texts := Texts(addresses);
      assert texts[0].AsStr() == Some(addresses[0].Text()) && texts[1..] == Texts(addresses[1..]);
      forall h ensures h in Hosts(addresses) <==> exists a :: a in addresses && Lower(a.host.name) == h {
        assert addresses == [addresses[0]] + addresses[1..];
      }
    }
  }

  /** The same for recipients: one of them in the domain suffices, and is needed. */
  lemma RecipientsRoute(to: seq<Address>, d: string, spelling: Spelling, dest: Destination, event: RoutingEvent)
    requires (forall a :: a in to ==> a.Ok()) && event.toDomains == ExtractDomainsFromValue(Some(Array(Texts(to))))
    requires HostName(d) && spelling.Of(d)
    requires dest.toDomains == [spelling.Text()] && dest.fromDomains == [] && dest.eventTypes == []
    ensures MatchDestinations([dest], event) ==
              if dest.catchAll || (exists a :: a in to && Lower(a.host.name) == Lower(d)) then [NormalizeDestination(dest)] else []
  {
    ExtractAddresses(to);
    OneCriterion(dest, event, spelling, d);
  }
}
