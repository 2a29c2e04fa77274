/** The content a delivery signature covers (src/signing.rs). The MAC and its
    text encoding are opaque functions. */
module Signing {
  import opened Text

  /** The fields, each ended by a dot, and then the body. */
  function Join(fields: seq<string>, body: Bytes): Bytes {
    if fields == [] then body else Utf8(fields[0]) + ([DOT] + Join(fields[1..], body))
  }

  /** The README's `{timestamp}.{delivery_id}.{event_id}.{destination}.{attempt}.{raw_body}`. */
  function SignedContent(timestamp: string, deliveryId: string, eventId: string,
                         destination: string, attempt: int, body: Bytes): Bytes
  {
    Join([timestamp, deliveryId, eventId, destination, Decimal(attempt)], body)
  }

  /** The six parts of the README's formula in their order, with dots between them and
      the attempt as a decimal numeral. */
  ghost predicate AsDocumented(content: Bytes, timestamp: string, deliveryId: string, eventId: string,
                             destination: string, attempt: int, body: Bytes)
  {
    exists number ::
      && IsDecimal(number, attempt)
      && content == Utf8(timestamp) + ([46] + (Utf8(deliveryId) + ([46] + (Utf8(eventId) + ([46] + (Utf8(destination)
                    + ([46] + (Utf8(number) + ([46] + body)))))))))
  }

  method SignDelivery(mac: (Bytes, Bytes) -> Bytes, encode: Bytes -> string,
                      secret: string, timestamp: string, deliveryId: string, eventId: string,
                      destination: string, attempt: int, body: Bytes)
    returns (signature: string)
    ensures signature == "v1," + encode(mac(Utf8(secret),
              SignedContent(timestamp, deliveryId, eventId, destination, attempt, body)))
    ensures exists content ::
              && AsDocumented(content, timestamp, deliveryId, eventId, destination, attempt, body)
              && signature == "v1," + encode(mac(Utf8(secret), content))
  {
    ContentInOrder(timestamp, deliveryId, eventId, destination, attempt, body);
    var attemptText := Decimal(attempt);
    ghost var fields := [timestamp, deliveryId, eventId, destination, attemptText];
    var signedContent: Bytes := [];
    signedContent := AppendText(signedContent, timestamp, fields, 0, body);
    signedContent := AppendText(signedContent, deliveryId, fields, 1, body);
    signedContent := AppendText(signedContent, eventId, fields, 2, body);
    signedContent := AppendText(signedContent, destination, fields, 3, body);
    signedContent := AppendText(signedContent, attemptText, fields, 4, body);
    assert fields[0..] == fields && fields[5..] == [];
    assert [] + Join(fields, body) == Join(fields, body);
    signedContent := signedContent + body;
    var digest := mac(Utf8(secret), signedContent);
    signature := "v1," + encode(digest);
  }

  /** Appends field number `k` of `fields` and its dot. */
  method AppendText(content: Bytes, field: string, ghost fields: seq<string>, ghost k: nat, ghost body: Bytes)
    returns (longer: Bytes)
    requires k < |fields| && fields[k] == field
    ensures longer == content + Utf8(field) + [DOT]
    ensures longer + Join(fields[k + 1..], body) == content + Join(fields[k..], body)
  {
    longer := content + Utf8(field);
    longer := longer + [DOT];
    assert fields[k..][1..] == fields[k + 1..];
  }

  /** The content byte by byte: the six parts in the documented order, with dots
      between them. */
  lemma ContentInOrder(timestamp: string, deliveryId: string, eventId: string, destination: string, attempt: int, body: Bytes)
    ensures SignedContent(timestamp, deliveryId, eventId, destination, attempt, body)
            == Utf8(timestamp) + ([46] + (Utf8(deliveryId) + ([46] + (Utf8(eventId) + ([46] + (Utf8(destination)
               + ([46] + (Utf8(Decimal(attempt)) + ([46] + body)))))))))
    ensures IsDecimal(Decimal(attempt), attempt)
    ensures AsDocumented(SignedContent(timestamp, deliveryId, eventId, destination, attempt, body),
                       timestamp, deliveryId, eventId, destination, attempt, body)
  {
    DecimalReads(attempt);
    var number := Decimal(attempt);
    JoinTwo(destination, attempt, body);
    JoinFirst(eventId, [destination, number], body);
    JoinFirst(deliveryId, [eventId] + [destination, number], body);
    JoinFirst(timestamp, [deliveryId] + ([eventId] + [destination, number]), body);
    assert [timestamp, deliveryId, eventId, destination, number]
           == [timestamp] + ([deliveryId] + ([eventId] + [destination, number]));
  }

  lemma JoinFirst(field: string, fields: seq<string>, body: Bytes)
    ensures Join([field] + fields, body) == Utf8(field) + ([46] + Join(fields, body))
  {
    assert ([field] + fields)[1..] == fields;
  }

  predicate PlainField(s: string) {
    Ascii(s) && DotFree(s)
  }

  /** A dot-free field is recovered from what precedes the first dot. */
  lemma FirstField(a: Bytes, x: Bytes, b: Bytes, y: Bytes)
    requires DOT !in a && DOT !in b
    requires a + ([DOT] + x) == b + ([DOT] + y)
    ensures a == b && x == y
  {
    var s := a + ([DOT] + x);
    assert s[|a|] == DOT && s[|b|] == DOT;
    assert forall i :: 0 <= i < |a| ==> s[i] == a[i];
    assert forall i :: 0 <= i < |b| ==> s[i] == b[i];
    assert a == s[..|a|] && b == s[..|b|];
    assert x == s[|a| + 1..] && y == s[|b| + 1..];
  }

  /** Dot-free fields and the rest are recovered from the joined content. */
  lemma {:induction false} JoinInjective(fields1: seq<string>, rest1: Bytes, fields2: seq<string>, rest2: Bytes)
    requires |fields1| == |fields2|
    requires forall f :: f in fields1 ==> PlainField(f)
    requires forall f :: f in fields2 ==> PlainField(f)
    requires Join(fields1, rest1) == Join(fields2, rest2)
    ensures fields1 == fields2 && rest1 == rest2
  {
    if fields1 != [] {
      assert fields1[0] in fields1 && fields2[0] in fields2;
      Utf8DotFree(fields1[0]);
      Utf8DotFree(fields2[0]);
      FirstField(Utf8(fields1[0]), Join(fields1[1..], rest1), Utf8(fields2[0]), Join(fields2[1..], rest2));
      Utf8AsciiInjective(fields1[0], fields2[0]);
      JoinInjective(fields1[1..], rest1, fields2[1..], rest2);
    }
  }

  lemma {:induction false} JoinSplit(fields: seq<string>, more: seq<string>, body: Bytes)
    ensures Join(fields + more, body) == Join(fields, Join(more, body))
  {
    if fields == [] {
      assert fields + more == more;
    } else {
      assert (fields + more)[1..] == fields[1..] + more;
      JoinSplit(fields[1..], more, body);
    }
  }

  /** Equal signed contents have equal timestamps, delivery ids and event ids;
      and equal attempts and bodies too when the destination is the same, even
      if its name contains dots. */
  lemma ContentIdentifies(timestamp1: int, id1: Uuid, event1: Uuid, destination1: string, attempt1: int, body1: Bytes,
                          timestamp2: int, id2: Uuid, event2: Uuid, destination2: string, attempt2: int, body2: Bytes)
    requires SignedContent(Decimal(timestamp1), UuidText(id1), UuidText(event1), destination1, attempt1, body1)
          == SignedContent(Decimal(timestamp2), UuidText(id2), UuidText(event2), destination2, attempt2, body2)
    ensures timestamp1 == timestamp2 && id1 == id2 && event1 == event2
    ensures destination1 == destination2 ==> attempt1 == attempt2 && body1 == body2
  {
    var front1 := [Decimal(timestamp1), UuidText(id1), UuidText(event1)];
    var front2 := [Decimal(timestamp2), UuidText(id2), UuidText(event2)];
    var back1 := [destination1, Decimal(attempt1)];
    var back2 := [destination2, Decimal(attempt2)];
    assert front1 + back1 == [Decimal(timestamp1), UuidText(id1), UuidText(event1), destination1, Decimal(attempt1)];
    assert front2 + back2 == [Decimal(timestamp2), UuidText(id2), UuidText(event2), destination2, Decimal(attempt2)];
    JoinSplit(front1, back1, body1);
    JoinSplit(front2, back2, body2);
    PlainFront(timestamp1, id1, event1);
    PlainFront(timestamp2, id2, event2);
    JoinInjective(front1, Join(back1, body1), front2, Join(back2, body2));
    assert front1[0] == front2[0] && front1[1] == front2[1] && front1[2] == front2[2];
    DecimalInjective(timestamp1, timestamp2);
    UuidTextInjective(id1, id2);
    UuidTextInjective(event1, event2);
    if destination1 == destination2 {
      SameDestination(destination1, attempt1, body1, attempt2, body2);
    }
  }

  lemma PlainFront(timestamp: int, id: Uuid, event: Uuid)
    ensures forall f :: f in [Decimal(timestamp), UuidText(id), UuidText(event)] ==> PlainField(f)
  {
    DecimalText(timestamp);
    UuidTextShape(id);
    UuidTextShape(event);
  }

  lemma SameDestination(destination: string, attempt1: int, body1: Bytes, attempt2: int, body2: Bytes)
    requires Join([destination, Decimal(attempt1)], body1) == Join([destination, Decimal(attempt2)], body2)
    ensures attempt1 == attempt2 && body1 == body2
  {
    var d := Utf8(destination);
    var r1, r2 := Join([Decimal(attempt1)], body1), Join([Decimal(attempt2)], body2);
    assert [destination, Decimal(attempt1)][1..] == [Decimal(attempt1)];
    assert [destination, Decimal(attempt2)][1..] == [Decimal(attempt2)];
    assert (d + ([DOT] + r1))[|d| + 1..] == r1;
    assert (d + ([DOT] + r2))[|d| + 1..] == r2;
    DecimalText(attempt1);
    DecimalText(attempt2);
    JoinInjective([Decimal(attempt1)], body1, [Decimal(attempt2)], body2);
    assert [Decimal(attempt1)][0] == [Decimal(attempt2)][0];
    DecimalInjective(attempt1, attempt2);
  }

  /** Without fixing the destination the framing is ambiguous: a dotted name can
      absorb the attempt number. */
  lemma FramingAloneIsAmbiguous(timestamp: string, id: string, event: string)
    ensures SignedContent(timestamp, id, event, "a.1", 2, [120]) == SignedContent(timestamp, id, event, "a", 1, [50, DOT, 120])
  {
    var front := [timestamp, id, event];
    assert front + ["a.1", Decimal(2)] == [timestamp, id, event, "a.1", Decimal(2)];
    assert front + ["a", Decimal(1)] == [timestamp, id, event, "a", Decimal(1)];
    JoinSplit(front, ["a.1", Decimal(2)], [120]);
    JoinSplit(front, ["a", Decimal(1)], [50, DOT, 120]);
    AmbiguousEnds();
  }

  lemma AmbiguousTexts()
    ensures Utf8("1") == [49] && Utf8("2") == [50] && Utf8("a") == [97] && Utf8("a.1") == [97, DOT, 49]
  {
    assert "1"[1..] == "" && "2"[1..] == "" && "a"[1..] == "";
    assert "a.1"[1..] == ".1" && ".1"[1..] == "1";
    assert Utf8(".1") == [DOT, 49];
  }

  lemma AmbiguousEnds()
    ensures Join(["a.1", Decimal(2)], [120]) == Join(["a", Decimal(1)], [50, DOT, 120])
  {
    AmbiguousTexts();
    assert Decimal(2) == "2" && Decimal(1) == "1";
    assert ["a.1", "2"][1..] == ["2"] && ["2"][1..] == [] && ["a", "1"][1..] == ["1"] && ["1"][1..] == [];
    assert Join(["2"], [120]) == [50, DOT, 120];
    assert Join(["1"], [50, DOT, 120]) == [49, DOT, 50, DOT, 120];
    assert Join(["a.1", "2"], [120]) == [97, DOT, 49, DOT, 50, DOT, 120];
  }

  // ---- when the framing alone identifies a delivery ----

  /** The fields of a signed content besides the destination name. */
  datatype Fields = Fields(timestamp: int, id: Uuid, event: Uuid, attempt: int, body: Bytes)

  function Content(f: Fields, destination: string): Bytes {
    SignedContent(Decimal(f.timestamp), UuidText(f.id), UuidText(f.event), destination, f.attempt, f.body)
  }

  /** Equal contents for these two destinations mean equal fields. */
  ghost predicate Identified(d1: string, d2: string) {
    forall f: Fields, g: Fields :: f.attempt >= 1 && g.attempt >= 1 && Content(f, d1) == Content(g, d2) ==> f == g && d1 == d2
  }

  /** One name is the other followed by a dot, a number, and nothing or another dot. */
  ghost predicate Shadows(long: string, short: string) {
    exists n: int, rest: string :: n >= 1 && (rest == [] || rest[0] == '.') && long == Extension(short, n, rest)
  }

  function Extension(short: string, n: int, rest: string): string {
    short + (['.'] + (Decimal(n) + rest))
  }

  /** Everything before the destination agrees in equal contents, so only the rest matters. */
  lemma BackOnly(f: Fields, d1: string, g: Fields, d2: string)
    requires Content(f, d1) == Content(g, d2)
    ensures f.timestamp == g.timestamp && f.id == g.id && f.event == g.event
    ensures Join([d1, Decimal(f.attempt)], f.body) == Join([d2, Decimal(g.attempt)], g.body)
  {
    ContentSplits(f, d1);
    ContentSplits(g, d2);
    var front1 := [Decimal(f.timestamp), UuidText(f.id), UuidText(f.event)];
    var front2 := [Decimal(g.timestamp), UuidText(g.id), UuidText(g.event)];
    PlainFront(f.timestamp, f.id, f.event);
    PlainFront(g.timestamp, g.id, g.event);
    JoinInjective(front1, Join([d1, Decimal(f.attempt)], f.body), front2, Join([d2, Decimal(g.attempt)], g.body));
    ContentIdentifies(f.timestamp, f.id, f.event, d1, f.attempt, f.body, g.timestamp, g.id, g.event, d2, g.attempt, g.body);
  }

  lemma ContentSplits(f: Fields, d: string)
    ensures Content(f, d) == Join([Decimal(f.timestamp), UuidText(f.id), UuidText(f.event)], Join([d, Decimal(f.attempt)], f.body))
  {
    var front, back := [Decimal(f.timestamp), UuidText(f.id), UuidText(f.event)], [d, Decimal(f.attempt)];
    assert front + back == [Decimal(f.timestamp), UuidText(f.id), UuidText(f.event), d, Decimal(f.attempt)];
    JoinSplit(front, back, f.body);
  }

  lemma JoinTwo(d: string, n: int, body: Bytes)
    ensures Join([d, Decimal(n)], body) == Utf8(d) + ([DOT] + (Utf8(Decimal(n)) + ([DOT] + body)))
  {
    assert [d, Decimal(n)][1..] == [Decimal(n)] && [Decimal(n)][1..] == [];
    assert Join([Decimal(n)], body) == Utf8(Decimal(n)) + ([DOT] + body);
  }

  /** The same on bytes: the longer field `x` goes on where the shorter one ends. */
  lemma LongerField(x: Bytes, r: Bytes, y: Bytes, number: Bytes, q: Bytes)
    requires x + ([DOT] + r) == y + ([DOT] + (number + ([DOT] + q)))
    requires |x| > |y| && DOT !in number
    ensures x[..|y|] == y && x[|y|] == DOT
    ensures |x| >= |y| + 1 + |number| && x[|y| + 1..|y| + 1 + |number|] == number
    ensures |x| > |y| + 1 + |number| ==> x[|y| + 1 + |number|] == DOT
  {
    var s := x + ([DOT] + r);
    var tail := number + ([DOT] + q);
    assert x == s[..|x|] && s[|x|] == DOT;
    assert s[..|y|] == y && s[|y|] == DOT && s[|y| + 1..] == tail;
    var k := |x| - |y| - 1;
    assert tail[k] == s[|x|];
    assert forall i :: 0 <= i < |number| ==> tail[i] == number[i];
    assert number == tail[..|number|] == s[|y| + 1..|y| + 1 + |number|];
  }

  /** Equal rests with names of different length: the longer name shadows the shorter. */
  lemma EqualRestsShadow(d1: string, a1: int, b1: Bytes, d2: string, a2: int, b2: Bytes)
    requires Ascii(d1) && Ascii(d2) && |d1| > |d2| && a2 >= 1
    requires Join([d1, Decimal(a1)], b1) == Join([d2, Decimal(a2)], b2)
    ensures Shadows(d1, d2)
  {
    var number := Decimal(a2);
    JoinTwo(d1, a1, b1);
    JoinTwo(d2, a2, b2);
    DecimalText(a2);
    Utf8DotFree(number);
    Utf8OfAscii(d1);
    Utf8OfAscii(d2);
    Utf8OfAscii(number);
    LongerField(Utf8(d1), Utf8(Decimal(a1)) + ([DOT] + b1), Utf8(d2), Utf8(number), b2);
    NamesFromBytes(d1, Utf8(d1), d2, Utf8(d2), number, Utf8(number));
    assert d1 == Extension(d2, a2, d1[|d2| + 1 + |number|..]);
  }

  predicate Spells(b: Bytes, s: string) {
    |b| == |s| && forall i :: 0 <= i < |s| ==> b[i] as int == s[i] as int
  }

  lemma NamesFromBytes(d1: string, x: Bytes, d2: string, y: Bytes, number: string, n: Bytes)
    requires Spells(x, d1) && Spells(y, d2) && Spells(n, number)
    requires |x| > |y| && x[..|y|] == y && x[|y|] == DOT
    requires |x| >= |y| + 1 + |n| && x[|y| + 1..|y| + 1 + |n|] == n
    requires |x| > |y| + 1 + |n| ==> x[|y| + 1 + |n|] == DOT
    ensures |d1| >= |d2| + 1 + |number|
    ensures d1 == d2 + (['.'] + (number + d1[|d2| + 1 + |number|..]))
    ensures |d1| > |d2| + 1 + |number| ==> d1[|d2| + 1 + |number|] == '.'
  {
    var k := |d2| + 1;
    forall i | 0 <= i < |d2| ensures d1[i] == d2[i] {
      assert x[i] == x[..|y|][i];
    }
    forall j | 0 <= j < |number| ensures d1[k + j] == number[j] {
      assert x[k + j] == x[k..k + |n|][j];
    }
    assert d1[..|d2|] == d2 && d1[k..k + |number|] == number && d1[|d2|] == '.';
    Pieces(d1, |d2|, k + |number|);
  }

  lemma Pieces(s: string, i: nat, j: nat)
    requires i < j <= |s|
    ensures s == s[..i] + ([s[i]] + (s[i + 1..j] + s[j..]))
  {
    assert s[i + 1..] == s[i + 1..j] + s[j..];
    assert s[i..] == [s[i]] + s[i + 1..];
    assert s == s[..i] + s[i..];
  }

  lemma {:induction false} Utf8Append(s: string, t: string)
    ensures Utf8(s + t) == Utf8(s) + Utf8(t)
  {
    if s == [] {
      assert s + t == t;
    } else {
      assert (s + t)[1..] == s[1..] + t;
      Utf8Append(s[1..], t);
    }
  }

  lemma ExtensionBytes(short: string, n: int, rest: string)
    ensures Utf8(Extension(short, n, rest)) == Utf8(short) + ([DOT] + (Utf8(Decimal(n)) + Utf8(rest)))
  {
    Utf8Append(short, ['.'] + (Decimal(n) + rest));
    Utf8Append(['.'], Decimal(n) + rest);
    Utf8Append(Decimal(n), rest);
    DotByte();
  }

  lemma DotByte()
    ensures Utf8(['.']) == [DOT]
  {
    assert ['.'][1..] == [];
  }

  lemma Associative(a: Bytes, b: Bytes, c: Bytes)
    ensures (a + b) + c == a + (b + c)
  {
  }

  lemma Regroup(front: Bytes, number: Bytes, rest: Bytes, last: Bytes)
    ensures (front + ([DOT] + (number + rest))) + ([DOT] + last) == front + ([DOT] + (number + (rest + ([DOT] + last))))
  {
    Associative(front, [DOT] + (number + rest), [DOT] + last);
    Associative([DOT], number + rest, [DOT] + last);
    Associative(number, rest, [DOT] + last);
  }

  /** A shadowed name makes some contents collide. */
  lemma ShadowCollides(short: string, n: int, rest: string) returns (body: Bytes)
    requires rest == [] || rest[0] == '.'
    ensures Join([Extension(short, n, rest), Decimal(1)], []) == Join([short, Decimal(n)], body)
  {
    var last := Utf8(Decimal(1)) + ([DOT] + []);
    var front, number := Utf8(short), Utf8(Decimal(n));
    JoinTwo(Extension(short, n, rest), 1, []);
    ExtensionBytes(short, n, rest);
    if rest == [] {
      body := last;
      Regroup(front, number, [], last);
      assert Utf8(rest) == [] && [] + ([DOT] + last) == [DOT] + body;
    } else {
      var more := Utf8(rest[1..]);
      assert rest == ['.'] + rest[1..];
      Utf8Append(['.'], rest[1..]);
      DotByte();
      body := more + ([DOT] + last);
      Regroup(front, number, [DOT] + more, last);
      Associative([DOT], more, [DOT] + last);
    }
    JoinTwo(short, n, body);
  }

  lemma ShadowedNotIdentified(long: string, short: string)
    requires Shadows(long, short)
    ensures !Identified(long, short) && !Identified(short, long)
  {
    var n: int, rest: string :| n >= 1 && (rest == [] || rest[0] == '.') && long == Extension(short, n, rest);
    var body := ShadowCollides(short, n, rest);
    var f, g := Fields(0, 0, 0, 1, []), Fields(0, 0, 0, n, body);
    ContentSplits(f, long);
    ContentSplits(g, short);
    assert Content(f, long) == Content(g, short) && long != short;
  }

  /** The framing identifies the deliveries to two destinations exactly when
      neither name shadows the other, a condition on the configured names alone. */
  lemma IdentifiedExactlyWhen(d1: string, d2: string)
    requires Ascii(d1) && Ascii(d2)
    ensures Identified(d1, d2) <==> !Shadows(d1, d2) && !Shadows(d2, d1)
  {
    if Shadows(d1, d2) {
      ShadowedNotIdentified(d1, d2);
    } else if Shadows(d2, d1) {
      ShadowedNotIdentified(d2, d1);
    } else {
      forall f: Fields, g: Fields | f.attempt >= 1 && g.attempt >= 1 && Content(f, d1) == Content(g, d2) ensures f == g && d1 == d2 {
        BackOnly(f, d1, g, d2);
        if |d1| > |d2| {
          EqualRestsShadow(d1, f.attempt, f.body, d2, g.attempt, g.body);
        } else if |d2| > |d1| {
          EqualRestsShadow(d2, g.attempt, g.body, d1, f.attempt, f.body);
        } else {
          SameLengthSameName(d1, f.attempt, f.body, d2, g.attempt, g.body);
          SameDestination(d1, f.attempt, f.body, g.attempt, g.body);
        }
      }
    }
  }

  lemma SameLengthSameName(d1: string, a1: int, b1: Bytes, d2: string, a2: int, b2: Bytes)
    requires Ascii(d1) && Ascii(d2) && |d1| == |d2|
    requires Join([d1, Decimal(a1)], b1) == Join([d2, Decimal(a2)], b2)
    ensures d1 == d2
  {
    JoinTwo(d1, a1, b1);
    JoinTwo(d2, a2, b2);
    Utf8OfAscii(d1);
    Utf8OfAscii(d2);
    assert Utf8(d1) == Join([d1, Decimal(a1)], b1)[..|d1|];
    assert Utf8(d2) == Join([d2, Decimal(a2)], b2)[..|d2|];
    Utf8AsciiInjective(d1, d2);
  }
}
