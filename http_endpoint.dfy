/**
 * The endpoints of the tracking API: for each logical operation, its HTTP
 * method, its path, and the full URL string built from a base URL.
 * Identifiers are interpolated into paths verbatim, without percent-encoding.
 */
module HttpEndpoints {

  /** The base URLs of the APIs; every endpoint uses the tracking API. */
  datatype HttpBaseUrls = HttpBaseUrls(trackingApi: string)

  datatype HttpEndpoint =
    | FindAccountRegion
    | IdentifyCustomer(identifier: string)
    | RegisterDevice(identifier: string)
    | DeleteDevice(identifier: string, deviceToken: string)
    | TrackCustomerEvent(identifier: string)
    | PushMetrics
  {
    /** The endpoints whose path names a customer. */
    predicate NamesCustomer() {
      IdentifyCustomer? || RegisterDevice? || DeleteDevice? || TrackCustomerEvent?
    }
  }

  /** The common start of every customer path. */
  const CustomersPrefix: string := "/api/v1/customers/"

  /** What follows the customer identifier in a customer path. */
  function CustomerSuffix(e: HttpEndpoint): string
    requires e.NamesCustomer()
  {
    match e
    case IdentifyCustomer(_) => ""
    case RegisterDevice(_) => "/devices"
    case DeleteDevice(_, deviceToken) => "/devices/" + deviceToken
    case TrackCustomerEvent(_) => "/events"
  }

  /** The path template of an endpoint, with its identifiers filled in as given. */
  function Path(e: HttpEndpoint): (p: string)
    ensures |p| > 0 && p[0] == '/'
    ensures e.NamesCustomer() ==> p == CustomersPrefix + e.identifier + CustomerSuffix(e)
    ensures e.FindAccountRegion? ==> p == "/api/v1/accounts/region"
    ensures e.PushMetrics? ==> p == "/push/events"
  {
    match e
    case FindAccountRegion => "/api/v1/accounts/region"
    case IdentifyCustomer(identifier) => "/api/v1/customers/" + identifier
    case RegisterDevice(identifier) => "/api/v1/customers/" + identifier + "/devices"
    case DeleteDevice(identifier, deviceToken) =>
      "/api/v1/customers/" + identifier + "/devices/" + deviceToken
    case TrackCustomerEvent(identifier) => "/api/v1/customers/" + identifier + "/events"
    case PushMetrics => "/push/events"
  }

  /** The HTTP method of an endpoint. */
  function Method(e: HttpEndpoint): (m: string)
    ensures m == "GET" <==> e.FindAccountRegion?
    ensures m == "PUT" <==> e.IdentifyCustomer? || e.RegisterDevice?
    ensures m == "DELETE" <==> e.DeleteDevice?
    ensures m == "POST" <==> e.TrackCustomerEvent? || e.PushMetrics?
  {
    match e
    case FindAccountRegion => "GET"
    case IdentifyCustomer(_) => "PUT"
    case RegisterDevice(_) => "PUT"
    case DeleteDevice(_, _) => "DELETE"
    case TrackCustomerEvent(_) => "POST"
    case PushMetrics => "POST"
  }

  /** `base` with a single trailing `/` removed, if it has one. */
  function DropTrailingSlash(base: string): (b: string)
    ensures |base| > 0 && base[|base| - 1] == '/' ==> b + "/" == base
    ensures |base| == 0 || base[|base| - 1] != '/' ==> b == base
  {
    if |base| > 0 && base[|base| - 1] == '/' then base[..|base| - 1] else base
  }

  /**
   * The full URL string of an endpoint: the empty string when the base URL is
   * empty, otherwise the base URL without one trailing `/`, followed by the path.
   */
  function GetUrlString(e: HttpEndpoint, baseUrls: HttpBaseUrls): (url: string)
    ensures baseUrls.trackingApi == [] ==> url == []
    ensures baseUrls.trackingApi != [] ==>
      var base := baseUrls.trackingApi;
      var dropped := if base[|base| - 1] == '/' then 1 else 0;
      && |url| == |base| - dropped + |Path(e)|
      && url[..|base| - dropped] == base[..|base| - dropped]
      && url[|base| - dropped..] == Path(e)
  {
    var baseUrl := baseUrls.trackingApi;
    if baseUrl == [] then
      []
    else
      DropTrailingSlash(baseUrl) + Path(e)
  }

  /** A non-empty base URL always yields a non-empty URL that ends with the path. */
  lemma NonEmptyBaseGivesPathSuffix(e: HttpEndpoint, baseUrls: HttpBaseUrls)
    requires baseUrls.trackingApi != []
    ensures var url := GetUrlString(e, baseUrls);
      |url| > 0 && |url| >= |Path(e)| && url[|url| - |Path(e)|..] == Path(e)
  {
  }

  /** Adding one `/` to a base URL that does not end in `/` changes nothing. */
  lemma TrailingSlashIgnored(e: HttpEndpoint, base: string)
    requires base != [] && base[|base| - 1] != '/'
    ensures GetUrlString(e, HttpBaseUrls(base + "/")) == GetUrlString(e, HttpBaseUrls(base))
    ensures GetUrlString(e, HttpBaseUrls(base)) == base + Path(e)
  {
    assert (base + "/")[..|base|] == base;
  }

  /** Only one trailing `/` is dropped: a base ending in `//` keeps one of them. */
  lemma OnlyOneSlashDropped(e: HttpEndpoint, base: string)
    ensures GetUrlString(e, HttpBaseUrls(base + "//")) == base + "/" + Path(e)
  {
    assert (base + "//")[..|base| + 1] == base + "/";
  }

  /** A base URL already ending in `/` gives a different URL once another `/` is added. */
  lemma TrailingSlashKeptWhenDoubled(e: HttpEndpoint, base: string)
    requires base != [] && base[|base| - 1] == '/'
    ensures GetUrlString(e, HttpBaseUrls(base + "/")) != GetUrlString(e, HttpBaseUrls(base))
  {
    var b := base[..|base| - 1];
    assert base == b + "/";
    assert base + "/" == b + "//";
    OnlyOneSlashDropped(e, b);
  }

  /** For one non-empty base URL, two endpoints get the same URL exactly when they have the same path. */
  lemma {:induction false} SameUrlIffSamePath(e1: HttpEndpoint, e2: HttpEndpoint, baseUrls: HttpBaseUrls)
    requires baseUrls.trackingApi != []
    ensures GetUrlString(e1, baseUrls) == GetUrlString(e2, baseUrls) <==> Path(e1) == Path(e2)
  {
    var b := DropTrailingSlash(baseUrls.trackingApi);
    if GetUrlString(e1, baseUrls) == GetUrlString(e2, baseUrls) {
      assert Path(e1) == (b + Path(e1))[|b|..];
      assert Path(e2) == (b + Path(e2))[|b|..];
    }
  }

  /** The identifier sits in a customer path exactly as given, right after the prefix. */
  lemma IdentifierInsertedVerbatim(e: HttpEndpoint)
    requires e.NamesCustomer()
    ensures var p := Path(e);
      |p| >= |CustomersPrefix| + |e.identifier|
      && p[..|CustomersPrefix|] == CustomersPrefix
      && p[|CustomersPrefix|..|CustomersPrefix| + |e.identifier|] == e.identifier
  {
    var p := Path(e);
    assert p == CustomersPrefix + (e.identifier + CustomerSuffix(e));
  }

  /**
   * For the operations with one identifier, the path determines the endpoint:
   * two such endpoints of the same operation share a path only when their
   * identifiers are equal.
   */
  lemma {:induction false} SingleIdentifierPathInjective(e1: HttpEndpoint, e2: HttpEndpoint)
    requires || (e1.IdentifyCustomer? && e2.IdentifyCustomer?)
             || (e1.RegisterDevice? && e2.RegisterDevice?)
             || (e1.TrackCustomerEvent? && e2.TrackCustomerEvent?)
    ensures Path(e1) == Path(e2) <==> e1 == e2
  {
    if Path(e1) == Path(e2) {
      var s := CustomerSuffix(e1);
      assert s == CustomerSuffix(e2);
      var n := |CustomersPrefix|;
      assert |e1.identifier| == |e2.identifier|;
      assert e1.identifier == Path(e1)[n..n + |e1.identifier|];
      assert e2.identifier == Path(e2)[n..n + |e2.identifier|];
    }
  }

  /**
   * Because identifiers are not encoded, an identifier containing `/devices`
   * makes identifyCustomer hit the same method and path as registerDevice.
   */
  lemma IdentifyCollidesWithRegisterDevice(identifier: string)
    ensures var spoof := IdentifyCustomer(identifier + "/devices");
      spoof != RegisterDevice(identifier)
      && Path(spoof) == Path(RegisterDevice(identifier))
      && Method(spoof) == Method(RegisterDevice(identifier))
  {
    assert Path(IdentifyCustomer(identifier + "/devices"))
        == CustomersPrefix + (identifier + "/devices");
  }

  /**
   * For deleteDevice the boundary between identifier and device token is not
   * recoverable from the path: moving `/devices/` across it keeps the path.
   */
  lemma DeleteDevicePathAmbiguous(identifier: string, middle: string, deviceToken: string)
    ensures var e1 := DeleteDevice(identifier + "/devices/" + middle, deviceToken);
      var e2 := DeleteDevice(identifier, middle + "/devices/" + deviceToken);
      e1 != e2 && Path(e1) == Path(e2)
  {
    var e1 := DeleteDevice(identifier + "/devices/" + middle, deviceToken);
    var e2 := DeleteDevice(identifier, middle + "/devices/" + deviceToken);
    assert |e1.identifier| != |e2.identifier|;
  }
}
