/** Settings and their validation (src/config.rs). */
module Config {
  import opened Wrappers
  import opened Text

  type U64 = x: int | 0 <= x < 0x1_0000_0000_0000_0000
  type I64 = x: int | -0x8000_0000_0000_0000 <= x < 0x8000_0000_0000_0000

  datatype Destination = Destination(
    name: string,
    url: string,
    fromDomains: seq<string>,
    toDomains: seq<string>,
    eventTypes: seq<string>,
    catchAll: bool)

  datatype Settings = Settings(
    databaseMaxConnections: nat,
    resendSignatureToleranceSecs: int,
    routerSigningSecret: string,
    destinations: seq<Destination>,
    deliveryWorkerCount: nat,
    deliveryClaimLimit: int,
    deliveryTimeoutSecs: U64,
    retryWindowSecs: nat,
    warnAfterAttempts: int,
    staleDeliveryLockSecs: I64,
    workerDrainTimeoutSecs: nat)

  datatype ConfigError =
    | NoDestinations
    | ShortSigningSecret
    | BadNumber
    | BadName(name: string)
    | BadUrl(name: string)
    | NoCriteria(name: string)
    | EmptyDomain(name: string)
    | EmptyEventType(name: string)
    | DuplicateName(name: string)

  /** Timeouts above this bound do not survive the cast to `i64` and the addition of 5. */
  const MAX_TIMEOUT_SECS: int := 0x8000_0000_0000_0000 - 6

  predicate IsNameChar(c: char) {
    'a' <= c <= 'z' || 'A' <= c <= 'Z' || '0' <= c <= '9' || c == '-' || c == '_' || c == '.'
  }

  predicate ValidName(name: string) {
    name != [] && forall c :: c in name ==> IsNameChar(c)
  }

  /** A configured domain without outer spaces, leading `@`s and trailing dots. */
  function StripDomain(domain: string): string {
    TrimEndMatches(TrimStartMatches(Trim(domain), One('@')), One('.'))
  }

  predicate ValidDomains(domains: seq<string>) {
    forall d :: d in domains ==> StripDomain(d) != []
  }

  predicate ValidDestination(d: Destination) {
    && ValidName(d.name)
    && (d.catchAll || d.fromDomains != [] || d.toDomains != [] || d.eventTypes != [])
    && ValidDomains(d.fromDomains)
    && ValidDomains(d.toDomains)
    && (forall e :: e in d.eventTypes ==> Trim(e) != [])
  }

  predicate DistinctNames(ds: seq<Destination>) {
    forall i, j :: 0 <= i < j < |ds| ==> ds[i].name != ds[j].name
  }

  predicate ValidNumbers(c: Settings) {
    && c.deliveryWorkerCount > 0
    && c.databaseMaxConnections > 0
    && 0 < c.deliveryClaimLimit <= 100
    && c.deliveryTimeoutSecs > 0
    && c.retryWindowSecs > 0
    && c.resendSignatureToleranceSecs > 0
    && c.warnAfterAttempts > 0
    && c.staleDeliveryLockSecs > c.deliveryTimeoutSecs + 5
    && c.workerDrainTimeoutSecs > 0
  }

  /** What a configuration that passes validation satisfies, apart from the
      syntax of its URLs. */
  predicate ValidSettings(c: Settings) {
    && c.destinations != []
    && |Utf8(c.routerSigningSecret)| >= 32
    && ValidNumbers(c)
    && (forall d :: d in c.destinations ==> ValidDestination(d))
    && DistinctNames(c.destinations)
  }

  // ---- the cast of the timeout ----

  /** `as i64` of a `u64`. */
  function AsI64(x: U64): int {
    if x < 0x8000_0000_0000_0000 then x else x - 0x1_0000_0000_0000_0000
  }

  /** `i64` addition without overflow checks. */
  function WrapI64(x: int): int {
    (x + 0x8000_0000_0000_0000) % 0x1_0000_0000_0000_0000 - 0x8000_0000_0000_0000
  }

  /** `delivery_timeout_secs as i64 + 5`. */
  function LeaseFloor(c: Settings): int {
    WrapI64(AsI64(c.deliveryTimeoutSecs) + 5)
  }

  /** What the checks on numbers accept, casts included. */
  predicate AcceptedNumbers(c: Settings) {
    && c.deliveryWorkerCount > 0
    && c.databaseMaxConnections > 0
    && 0 < c.deliveryClaimLimit <= 100
    && c.deliveryTimeoutSecs > 0
    && c.retryWindowSecs > 0
    && c.resendSignatureToleranceSecs > 0
    && c.warnAfterAttempts > 0
    && c.staleDeliveryLockSecs > 0
    && c.staleDeliveryLockSecs > LeaseFloor(c)
    && c.workerDrainTimeoutSecs > 0
  }

  predicate Accepted(c: Settings) {
    && c.destinations != []
    && |Utf8(c.routerSigningSecret)| >= 32
    && AcceptedNumbers(c)
    && (forall d :: d in c.destinations ==> ValidDestination(d))
    && DistinctNames(c.destinations)
  }

  /** Validation accepts timeouts that its cast makes negative, and then its promise
      of a lease longer than the timeout plus five seconds is empty: for accepted
      settings it holds exactly for timeouts that survive the cast and the addition. */
  lemma AcceptedIsValidExactlyWhen(c: Settings)
    ensures ValidSettings(c) <==> Accepted(c) && c.deliveryTimeoutSecs <= MAX_TIMEOUT_SECS
    ensures Accepted(c) ==> (c.staleDeliveryLockSecs > c.deliveryTimeoutSecs + 5 <==> c.deliveryTimeoutSecs <= MAX_TIMEOUT_SECS)
  {
    if c.deliveryTimeoutSecs <= MAX_TIMEOUT_SECS {
      assert LeaseFloor(c) == c.deliveryTimeoutSecs + 5;
    }
  }

  /** The smallest timeout that goes wrong: any positive lease passes. */
  lemma WrappedTimeout(c: Settings)
    requires c.deliveryTimeoutSecs == 0x8000_0000_0000_0000 - 5
    ensures LeaseFloor(c) < 0
  {
  }

  /** Letters, digits, dash, underscore and dot. */
  lemma NameCharsInLetters(c: char)
    ensures IsNameChar(c) <==>
              c in "abcdefghijklmnopqrstuvwxyz" || c in "ABCDEFGHIJKLMNOPQRSTUVWXYZ" || c in "0123456789" || c in "-_."
  {
    var small, capital, digits := "abcdefghijklmnopqrstuvwxyz", "ABCDEFGHIJKLMNOPQRSTUVWXYZ", "0123456789";
    assert forall k :: 0 <= k < 26 ==> small[k] as int == 97 + k && capital[k] as int == 65 + k;
    assert forall k :: 0 <= k < 10 ==> digits[k] as int == 48 + k;
    if 'a' <= c <= 'z' {
      assert small[c as int - 97] == c;
    } else if 'A' <= c <= 'Z' {
      assert capital[c as int - 65] == c;
    } else if '0' <= c <= '9' {
      assert digits[c as int - 48] == c;
    }
    assert "-_."[0] == '-' && "-_."[1] == '_' && "-_."[2] == '.';
  }

  lemma NameCharsAreNotBlank(name: string)
    requires forall c :: c in name ==> IsNameChar(c)
    ensures Trim(name) == name
  {
    if name != [] {
      assert IsNameChar(name[0]) && IsNameChar(name[|name| - 1]);
    }
  }

  /** The fault in a destination that an error reports. */
  predicate Explains(error: ConfigError, d: Destination, isHttpUrl: string -> bool) {
    match error
    case BadName(name) => name == d.name && !ValidName(name)
    case BadUrl(name) => name == d.name && !isHttpUrl(d.url)
    case NoCriteria(name) =>
      name == d.name && !d.catchAll && d.fromDomains == [] && d.toDomains == [] && d.eventTypes == []
    case EmptyDomain(name) => name == d.name && !(ValidDomains(d.fromDomains) && ValidDomains(d.toDomains))
    case EmptyEventType(name) => name == d.name && exists e :: e in d.eventTypes && Trim(e) == []
    case _ => false
  }

  /** An error about a list of destinations reports the first faulty one: its
      own fault, or that it repeats the name of one before it. */
  predicate Reports(error: ConfigError, ds: seq<Destination>, isHttpUrl: string -> bool) {
    exists i :: 0 <= i < |ds|
      && (forall k :: 0 <= k < i ==> ValidDestination(ds[k]) && isHttpUrl(ds[k].url))
      && DistinctNames(ds[..i])
      && if error.DuplicateName? then
           error.name == ds[i].name && (exists k :: 0 <= k < i && ds[k].name == ds[i].name)
           && ValidDestination(ds[i]) && isHttpUrl(ds[i].url)
         else Explains(error, ds[i], isHttpUrl)
  }

  method ValidateDomains(domains: seq<string>) returns (ok: bool)
    ensures ok <==> ValidDomains(domains)
  {
    for i := 0 to |domains|
      invariant ValidDomains(domains[..i])
    {
      if StripDomain(domains[i]) == [] {
        return false;
      }
    }
    return true;
  }

  /** `isHttpUrl` stands for URL parsing and the test of the scheme. */
  method ValidateDestination(d: Destination, isHttpUrl: string -> bool) returns (error: Option<ConfigError>)
    ensures error.None? <==> ValidDestination(d) && isHttpUrl(d.url)
    ensures error.Some? ==> Explains(error.value, d, isHttpUrl)
  {
    if ValidName(d.name) {
      NameCharsAreNotBlank(d.name);
    }
    if Trim(d.name) == [] {
      return Some(BadName(d.name));
    }
    if exists c :: c in d.name && !IsNameChar(c) {
      return Some(BadName(d.name));
    }
    if !isHttpUrl(d.url) {
      return Some(BadUrl(d.name));
    }
    var hasCriteria := d.catchAll || d.fromDomains != [] || d.toDomains != [] || d.eventTypes != [];
    if !hasCriteria {
      return Some(NoCriteria(d.name));
    }
    var fromOk := ValidateDomains(d.fromDomains);
    if !fromOk {
      return Some(EmptyDomain(d.name));
    }
    var toOk := ValidateDomains(d.toDomains);
    if !toOk {
      return Some(EmptyDomain(d.name));
    }
    if exists e :: e in d.eventTypes && Trim(e) == [] {
      return Some(EmptyEventType(d.name));
    }
    return None;
  }

  method ValidateDestinations(ds: seq<Destination>, isHttpUrl: string -> bool) returns (error: Option<ConfigError>)
    ensures error.None? <==>
              && (forall i :: 0 <= i < |ds| ==> ValidDestination(ds[i]) && isHttpUrl(ds[i].url))
              && DistinctNames(ds)
    ensures error.Some? ==> Reports(error.value, ds, isHttpUrl)
  {
    var names: set<string> := {};
    for i := 0 to |ds|
      invariant forall k :: 0 <= k < i ==> ValidDestination(ds[k]) && isHttpUrl(ds[k].url)
      invariant forall k :: 0 <= k < i ==> ds[k].name in names
      invariant forall name :: name in names ==> exists k :: 0 <= k < i && ds[k].name == name
      invariant forall j, k :: 0 <= j < k < i ==> ds[j].name != ds[k].name
    {
      var bad := ValidateDestination(ds[i], isHttpUrl);
      if bad.Some? {
        return bad;
      }
      if ds[i].name in names {
        return Some(DuplicateName(ds[i].name));
      }
      names := names + {ds[i].name};
    }
    return None;
  }

  method Validate(c: Settings, isHttpUrl: string -> bool) returns (error: Option<ConfigError>)
    ensures error.None? <==> Accepted(c) && forall d :: d in c.destinations ==> isHttpUrl(d.url)
    ensures error.Some? ==>
              match error.value
              case NoDestinations => c.destinations == []
              case ShortSigningSecret => |Utf8(c.routerSigningSecret)| < 32
              case BadNumber => !AcceptedNumbers(c)
              case reported => Reports(reported, c.destinations, isHttpUrl)
  {
    if c.destinations == [] {
      return Some(NoDestinations);
    }
    if |Utf8(c.routerSigningSecret)| < 32 {
      return Some(ShortSigningSecret);
    }
    if c.deliveryWorkerCount == 0 || c.databaseMaxConnections == 0
       || c.deliveryClaimLimit <= 0 || c.deliveryClaimLimit > 100
       || c.deliveryTimeoutSecs == 0 || c.retryWindowSecs == 0
       || c.resendSignatureToleranceSecs <= 0 || c.warnAfterAttempts <= 0
       || c.staleDeliveryLockSecs <= 0
       || c.staleDeliveryLockSecs <= LeaseFloor(c)
       || c.workerDrainTimeoutSecs == 0
    {
      return Some(BadNumber);
    }
    error := ValidateDestinations(c.destinations, isHttpUrl);
  }

  /** `Config::destination_url`: the URL of the first destination with the given name. */
  function DestinationUrl(destinations: seq<Destination>, name: string): (url: Option<string>)
    ensures url.None? <==> forall d :: d in destinations ==> d.name != name
    ensures url.Some? ==> exists d :: d in destinations && d.name == name && d.url == url.value
  {
    if destinations == [] then None
    else if destinations[0].name == name then Some(destinations[0].url)
    else DestinationUrl(destinations[1..], name)
  }
}
