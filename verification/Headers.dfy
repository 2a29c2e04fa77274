/** Storing the request headers of a webhook and reading them back
    (src/db.rs, `headers_to_json`, `insert_header_value`, `header_value_from_json`). */
module Headers {
  import opened Wrappers
  import opened Text
  import opened Json

  /** A header value; `Opaque` when its bytes are not visible ASCII, so that `to_str` fails. */
  datatype HeaderValue = Visible(text: string) | Opaque

  /** The request's header multimap as the pairs its iterator yields. */
  type HeaderMap = seq<(string, HeaderValue)>

  function ToText(value: HeaderValue): string {
    if value.Visible? then value.text else "<non-utf8>"
  }

  /** All values sent under `key` (a lowercase name), in order. */
  function ValuesOf(headers: HeaderMap, key: string): seq<string> {
    if headers == [] then []
    else
      var front := headers[..|headers| - 1];
      var last := headers[|headers| - 1];
      ValuesOf(front, key) + if Lower(last.0) == key then [ToText(last.1)] else []
  }

  function Names(headers: HeaderMap): set<string> {
    if headers == [] then {} else Names(headers[..|headers| - 1]) + {Lower(headers[|headers| - 1].0)}
  }

  /** One value is stored as a string, two or more as an array. */
  function Encoded(values: seq<string>): Value {
    if |values| == 1 then String(values[0])
    else Array(seq(|values|, i requires 0 <= i < |values| => String(values[i])))
  }

  /** The stored form of a header multimap. */
  function HeaderTable(headers: HeaderMap): map<string, Value> {
    map key | key in Names(headers) :: Encoded(ValuesOf(headers, key))
  }

  /** The strings an entry stands for. */
  function Decoded(entry: Value): seq<string> {
    match entry
    case String(s) => [s]
    case Array(items) => seq(|items|, i requires 0 <= i < |items| => if items[i].String? then items[i].s else "")
    case _ => []
  }

  lemma {:induction false} NamesHaveValues(headers: HeaderMap, key: string)
    ensures key in Names(headers) <==> ValuesOf(headers, key) != []
  {
    if headers != [] {
      NamesHaveValues(headers[..|headers| - 1], key);
    }
  }

  /** Each header's text, or the placeholder, has its own place among the values of
      its name: after those of all earlier ones. */
  lemma {:induction false} ValueInPlace(headers: HeaderMap, i: nat)
    requires i < |headers|
    ensures var key := Lower(headers[i].0);
            && |ValuesOf(headers[..i], key)| < |ValuesOf(headers, key)|
            && ValuesOf(headers, key)[|ValuesOf(headers[..i], key)|] ==
               match headers[i].1 {
                 case Visible(text) => text
                 case Opaque => "<non-utf8>"
               }
  {
    var front := headers[..|headers| - 1];
    if i < |front| {
      assert front[..i] == headers[..i];
      ValueInPlace(front, i);
    } else {
      assert front == headers[..i];
    }
  }

  /** The places of the headers with a name. */
  function Places(headers: HeaderMap, key: string): set<int> {
    set i | 0 <= i < |headers| && Lower(headers[i].0) == key
  }

  /** There are as many values of a name as headers with it. */
  lemma {:induction false} ValuesCount(headers: HeaderMap, key: string)
    ensures |ValuesOf(headers, key)| == |Places(headers, key)|
  {
    if headers != [] {
      var n := |headers| - 1;
      ValuesCount(headers[..n], key);
      MorePlaces(headers, key);
    }
  }

  lemma MorePlaces(headers: HeaderMap, key: string)
    requires headers != []
    ensures var n := |headers| - 1;
            && n !in Places(headers[..n], key)
            && Places(headers, key) == Places(headers[..n], key) + if Lower(headers[n].0) == key then {n} else {}
  {
  }

  lemma EncodedDecodes(values: seq<string>)
    requires values != []
    ensures Decoded(Encoded(values)) == values
    ensures Encoded(values).String? <==> |values| == 1
  {
  }

  method InsertHeaderValue(entries: map<string, Value>, key: string, value: string)
    returns (updated: map<string, Value>)
    requires key in entries ==> exists values :: values != [] && entries[key] == Encoded(values)
    ensures updated == entries[key := Encoded((if key in entries then Decoded(entries[key]) else []) + [value])]
  {
    ghost var stored := if key in entries then Decoded(entries[key]) else [];
    if key in entries {
      ghost var values :| values != [] && entries[key] == Encoded(values);
      EncodedDecodes(values);
      var existing := entries[key];
      if existing.Array? {
        assert existing.items + [String(value)] == Encoded(stored + [value]).items;
        updated := entries[key := Array(existing.items + [String(value)])];
      } else {
        updated := entries[key := Array([existing, String(value)])];
        assert [existing, String(value)] == Encoded(stored + [value]).items;
      }
    } else {
      updated := entries[key := String(value)];
    }
  }

  method HeadersToJson(headers: HeaderMap) returns (json: Value)
    ensures json == Object(HeaderTable(headers))
  {
    var entries: map<string, Value> := map[];
    for i := 0 to |headers|
      invariant entries == HeaderTable(headers[..i])
    {
      var headerName := Lower(headers[i].0);
      var headerValue := ToText(headers[i].1);
      NamesHaveValues(headers[..i], headerName);
      assert headerName in entries ==> entries[headerName] == Encoded(ValuesOf(headers[..i], headerName));
      ghost var before := entries;
      entries := InsertHeaderValue(entries, headerName, headerValue);
      HeaderTableExtends(headers, i);
      if headerName in before {
        EncodedDecodes(ValuesOf(headers[..i], headerName));
      }
    }
    assert headers[..|headers|] == headers;
    json := Object(entries);
  }

  lemma HeaderTableExtends(headers: HeaderMap, i: nat)
    requires i < |headers|
    ensures var key := Lower(headers[i].0);
            HeaderTable(headers[..i + 1]) ==
            HeaderTable(headers[..i])[key := Encoded(ValuesOf(headers[..i], key) + [ToText(headers[i].1)])]
  {
    var key := Lower(headers[i].0);
    var longer := headers[..i + 1];
    assert longer[..|longer| - 1] == headers[..i];
    assert ValuesOf(longer, key) == ValuesOf(headers[..i], key) + [ToText(headers[i].1)];
    var table := HeaderTable(headers[..i])[key := Encoded(ValuesOf(headers[..i], key) + [ToText(headers[i].1)])];
    assert HeaderTable(longer).Keys == table.Keys;
    forall other | other in table && other != key
      ensures HeaderTable(longer)[other] == table[other]
    {
      assert ValuesOf(longer, other) == ValuesOf(headers[..i], other) + [] == ValuesOf(headers[..i], other);
    }
  }

  function HeaderValueFromJson(headers: Value, name: string): Option<string> {
    var key := Lower(name);
    match headers.Get(key)
    case None => None
    case Some(value) =>
      match value
      case String(s) => Some(s)
      case Array(items) => if items == [] then None else items[0].AsStr()
      case _ => None
  }

  /** `HeaderMap::get` followed by `to_str`: the first value of a name, if it is visible. */
  function HeaderToString(headers: HeaderMap, name: string): Option<string> {
    if headers == [] then None
    else if Lower(headers[0].0) == Lower(name) then
      if headers[0].1.Visible? then Some(headers[0].1.text) else None
    else HeaderToString(headers[1..], name)
  }

  /** The stored map agrees with the multimap: exactly the names sent are
      present, each decodes to its values in order, a single value is a string
      and several are an array, and looking a name up in any casing finds its
      first value. */
  lemma {:induction false} StoredHeadersAgree(headers: HeaderMap, name: string)
    ensures var stored := Object(HeaderTable(headers));
            var values := ValuesOf(headers, Lower(name));
            && (stored.Get(Lower(name)).Some? <==> values != [])
            && (values != [] ==>
                  var entry := stored.Get(Lower(name)).value;
                  && Decoded(entry) == values
                  && (entry.String? <==> |values| == 1))
            && HeaderValueFromJson(stored, name) == (if values == [] then None else Some(values[0]))
  {
    NamesHaveValues(headers, Lower(name));
    if ValuesOf(headers, Lower(name)) != [] {
      EncodedDecodes(ValuesOf(headers, Lower(name)));
    }
  }

  /** The raw lookup finds what the stored one finds, except that it refuses a
      first value that is not visible, for which the store keeps a placeholder. */
  lemma RawLookupAgrees(headers: HeaderMap, name: string)
    ensures var stored := HeaderValueFromJson(Object(HeaderTable(headers)), name);
            var raw := HeaderToString(headers, name);
            stored == if raw.None? && ValuesOf(headers, Lower(name)) != [] then Some("<non-utf8>") else raw
  {
    FirstValue(headers, name);
    StoredHeadersAgree(headers, name);
  }

  lemma {:induction false} FirstValue(headers: HeaderMap, name: string)
    ensures var raw := HeaderToString(headers, name);
            var values := ValuesOf(headers, Lower(name));
            && (raw.Some? ==> values != [] && values[0] == raw.value)
            && (raw.None? && values != [] ==> values[0] == "<non-utf8>")
  {
    if headers != [] {
      ValuesStart(headers, Lower(name));
      if Lower(headers[0].0) != Lower(name) {
        FirstValue(headers[1..], name);
      }
    }
  }

  lemma {:induction false} ValuesStart(headers: HeaderMap, key: string)
    requires headers != []
    ensures ValuesOf(headers, key) ==
            (if Lower(headers[0].0) == key then [ToText(headers[0].1)] else []) + ValuesOf(headers[1..], key)
  {
    if |headers| > 1 {
      var front := headers[..|headers| - 1];
      assert headers[1..][..|headers| - 2] == front[1..];
      ValuesStart(front, key);
    } else {
      assert headers[..0] == [] && headers[1..] == [];
    }
  }
}
