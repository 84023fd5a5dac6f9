/** The request-building and result-shaping logic of the Tencent map location
    client: the query string of a request URL, the parameter lists of the
    IP-geocode, geocode and reverse-geocode requests (with the optional
    signature), the projection of the response's points of interest, the
    nearest-POI address fallback, and the success check of a response. */
module TencentLocation {
  import opened Common

  /** One query parameter: a key and a possibly-null value. A request's
      parameters are kept in the order they were added, which is the order a
      `Dictionary` that never had a key removed enumerates them in. */
  type Param = (string, Option<string>)

  /** The options the client reads. */
  datatype TencentLocationOptions = TencentLocationOptions(
    accessKey: Option<string>,
    secretKey: Option<string>,
    callback: Option<string>,
    output: Option<string>,
    getPoi: Option<string>,
    visibleErrorToClient: bool)

  /** `TencentSecretKeyCaculater.CalcSecretKey(path, secretKey, parameters)`,
      whose definition is not part of this model. */
  type Signer = (string, string, seq<Param>) -> string

  const TencentMapApiUrl: string := "https://apis.map.qq.com"
  const IpLocationPath: string := "/ws/location/v1/ip"
  const GeocoderPath: string := "/ws/geocoder/v1"

  // ---------------------------------------------------------------------------
  // Query strings
  // ---------------------------------------------------------------------------

  /** `AppendFormat("{0}={1}", key, value)`: a null value writes nothing. */
  function Entry(p: Param): string {
    p.0 + "=" + Render(p.1)
  }

  /** The reference query string: the entries joined with `&`. */
  function Join(ps: seq<Param>): string
    decreases |ps|
  {
    if |ps| == 0 then ""
    else if |ps| == 1 then Entry(ps[0])
    else Join(ps[..|ps| - 1]) + "&" + Entry(ps[|ps| - 1])
  }

  /** What the builder loop has appended after `ps`: every entry followed by `&`. */
  function Terminated(ps: seq<Param>): string
    decreases |ps|
  {
    if ps == [] then "" else Terminated(ps[..|ps| - 1]) + Entry(ps[|ps| - 1]) + "&"
  }

  /** The loop's output is the joined string plus one trailing separator. */
  lemma {:induction false} TerminatedIsJoinPlusSeparator(ps: seq<Param>)
    requires ps != []
    ensures Terminated(ps) == Join(ps) + "&"
    decreases |ps|
  {
    var init := ps[..|ps| - 1];
    if init != [] {
      TerminatedIsJoinPlusSeparator(init);
      assert Terminated(ps) == (Join(init) + "&") + Entry(ps[|ps| - 1]) + "&";
    } else {
      assert Terminated(ps) == "" + Entry(ps[0]) + "&";
    }
  }

  /** `BuildRequestUrl`: the base address, the path, `?`, each `key=value&`,
      and then the last character removed. */
  method BuildRequestUrl(uri: string, path: string, parameters: seq<Param>) returns (url: string)
    ensures |uri + path| <= |url| && url[..|uri + path|] == uri + path
    ensures parameters == [] ==> url == uri + path
    ensures parameters != [] ==> url == uri + path + "?" + Join(parameters)
  {
    var builder := uri;
    builder := builder + path + "?";
    for i := 0 to |parameters|
      invariant builder == uri + path + "?" + Terminated(parameters[..i])
    {
      var (key, value) := parameters[i];
      assert parameters[..i + 1][..i] == parameters[..i];
      builder := builder + key + "=" + Render(value);
      builder := builder + "&";
    }
    assert parameters[..|parameters|] == parameters;
    // Remove(Length - 1, 1): the builder always holds at least the '?'
    url := builder[..|builder| - 1];
    if parameters != [] {
      TerminatedIsJoinPlusSeparator(parameters);
      assert builder == (uri + path + "?" + Join(parameters)) + "&";
    }
  }

  // ---------------------------------------------------------------------------
  // Request parameters
  // ---------------------------------------------------------------------------

  function Keys(ps: seq<Param>): (ks: seq<string>)
    ensures |ks| == |ps| && forall i :: 0 <= i < |ps| ==> ks[i] == ps[i].0
  {
    seq(|ps|, i requires 0 <= i < |ps| => ps[i].0)
  }

  /** No key occurs twice, so no `Dictionary.Add` of the request throws. */
  predicate DistinctKeys(ps: seq<Param>) {
    forall i, j :: 0 <= i < j < |ps| ==> ps[i].0 != ps[j].0
  }

  /** `ps` is `unsigned`, followed, when the secret key is set, by a `sig`
      parameter computed over `unsigned`. */
  predicate SignedAsRequired(ps: seq<Param>, unsigned: seq<Param>, path: string,
                             secretKey: Option<string>, sign: Signer) {
    if IsNullOrWhiteSpace(secretKey) then ps == unsigned
    else ps == unsigned + [("sig", Some(sign(path, secretKey.value, unsigned)))]
  }

  /** Appends the signature when the secret key is set. */
  method AddSignature(ps: seq<Param>, path: string, secretKey: Option<string>, sign: Signer)
    returns (signed: seq<Param>)
    ensures SignedAsRequired(signed, ps, path, secretKey, sign)
    ensures |ps| <= |signed| && signed[..|ps|] == ps
    ensures "sig" in Keys(signed) <==> "sig" in Keys(ps) || !IsNullOrWhiteSpace(secretKey)
    ensures forall k :: k != "sig" ==> (k in Keys(signed) <==> k in Keys(ps))
    ensures DistinctKeys(ps) && "sig" !in Keys(ps) ==> DistinctKeys(signed)
  {
    signed := ps;
    if !IsNullOrWhiteSpace(secretKey) {
      var sig := sign(path, secretKey.value, signed);
      signed := signed + [("sig", Some(sig))];
      assert Keys(signed) == Keys(ps) + ["sig"];
    }
  }

  /** The parameters of `IPGeocodeAsync`. */
  method IPGeocodeParameters(options: TencentLocationOptions, ipAddress: Option<string>, sign: Signer)
    returns (parameters: seq<Param>)
    ensures 4 <= |parameters|
    ensures parameters[..4] == [("callback", options.callback), ("ip", ipAddress),
                                ("key", options.accessKey), ("output", options.output)]
    ensures SignedAsRequired(parameters, parameters[..4], IpLocationPath, options.secretKey, sign)
    ensures "sig" in Keys(parameters) <==> !IsNullOrWhiteSpace(options.secretKey)
    ensures DistinctKeys(parameters)
  {
    parameters := [("callback", options.callback), ("ip", ipAddress),
                   ("key", options.accessKey), ("output", options.output)];
    ghost var unsigned := parameters;
    parameters := AddSignature(parameters, IpLocationPath, options.secretKey, sign);
    assert parameters[..4] == unsigned;
    assert "sig" !in Keys(unsigned);
  }

  /** The parameters of `GeocodeAsync`: `region` only for a city that is not
      blank, the signature (over everything before it) last. */
  method GeocodeParameters(options: TencentLocationOptions, address: Option<string>,
                           sign: Signer, city: Option<string> := None)
    returns (parameters: seq<Param>)
    ensures 4 <= |parameters|
    ensures parameters[..4] == [("address", address), ("callback", options.callback),
                                ("key", options.accessKey), ("output", options.output)]
    ensures "region" in Keys(parameters) <==> !IsNullOrWhiteSpace(city)
    ensures !IsNullOrWhiteSpace(city) ==> parameters[4] == ("region", city)
    ensures "sig" in Keys(parameters) <==> !IsNullOrWhiteSpace(options.secretKey)
    ensures var n := if IsNullOrWhiteSpace(city) then 4 else 5;
      n <= |parameters| &&
      SignedAsRequired(parameters, parameters[..n], GeocoderPath, options.secretKey, sign)
    ensures DistinctKeys(parameters)
  {
    parameters := [("address", address), ("callback", options.callback),
                   ("key", options.accessKey), ("output", options.output)];
    if !IsNullOrWhiteSpace(city) {
      parameters := parameters + [("region", city)];
    }
    ghost var unsigned := parameters;
    assert "sig" !in Keys(unsigned);
    assert "region" in Keys(unsigned) <==> !IsNullOrWhiteSpace(city) by {
      if !IsNullOrWhiteSpace(city) {
        assert Keys(unsigned)[4] == "region";
      }
    }
    parameters := AddSignature(parameters, GeocoderPath, options.secretKey, sign);
    assert parameters[..|unsigned|] == unsigned;
    assert parameters[..4] == unsigned[..4];
  }

  /** Decimal text of an `int`, as `int.ToString()` writes it. */
  function IntToText(n: int): string
    decreases if n < 0 then 1 - n else n
  {
    if n < 0 then "-" + IntToText(-n)
    else if n < 10 then [(48 + n) as char]
    else IntToText(n / 10) + [(48 + n % 10) as char]
  }

  /** The parameters of `ReGeocodeAsync`; `location` is the `"{lat},{lng}"`
      text of the coordinates. */
  method ReGeocodeParameters(options: TencentLocationOptions, location: string, sign: Signer,
                             radius: int := 1000)
    returns (parameters: seq<Param>)
    ensures 6 <= |parameters|
    ensures parameters[..6] == [("callback", options.callback), ("get_poi", options.getPoi),
                                ("key", options.accessKey), ("location", Some(location)),
                                ("output", options.output),
                                ("poi_options", Some("radius=" + IntToText(radius)))]
    ensures SignedAsRequired(parameters, parameters[..6], GeocoderPath, options.secretKey, sign)
    ensures "sig" in Keys(parameters) <==> !IsNullOrWhiteSpace(options.secretKey)
    ensures DistinctKeys(parameters)
  {
    parameters := [("callback", options.callback), ("get_poi", options.getPoi),
                   ("key", options.accessKey), ("location", Some(location)),
                   ("output", options.output),
                   ("poi_options", Some("radius=" + IntToText(radius)))];
    ghost var unsigned := parameters;
    assert "sig" !in Keys(unsigned);
    parameters := AddSignature(parameters, GeocoderPath, options.secretKey, sign);
    assert parameters[..6] == unsigned;
  }

  /** The URL `IPGeocodeAsync` requests: its parameters as the query string of
      the IP-location path on the web service. */
  method IPGeocodeRequestUrl(options: TencentLocationOptions, ipAddress: Option<string>, sign: Signer)
    returns (parameters: seq<Param>, url: string)
    ensures 4 <= |parameters|
    ensures parameters[..4] == [("callback", options.callback), ("ip", ipAddress),
                                ("key", options.accessKey), ("output", options.output)]
    ensures SignedAsRequired(parameters, parameters[..4], IpLocationPath, options.secretKey, sign)
    ensures "sig" in Keys(parameters) <==> !IsNullOrWhiteSpace(options.secretKey)
    ensures DistinctKeys(parameters)
    ensures url == TencentMapApiUrl + IpLocationPath + "?" + Join(parameters)
  {
    parameters := IPGeocodeParameters(options, ipAddress, sign);
    url := BuildRequestUrl(TencentMapApiUrl, IpLocationPath, parameters);
  }

  /** The URL `GeocodeAsync` requests, on the geocoder path. */
  method GeocodeRequestUrl(options: TencentLocationOptions, address: Option<string>, sign: Signer,
                           city: Option<string> := None)
    returns (parameters: seq<Param>, url: string)
    ensures 4 <= |parameters|
    ensures parameters[..4] == [("address", address), ("callback", options.callback),
                                ("key", options.accessKey), ("output", options.output)]
    ensures "region" in Keys(parameters) <==> !IsNullOrWhiteSpace(city)
    ensures !IsNullOrWhiteSpace(city) ==> parameters[4] == ("region", city)
    ensures "sig" in Keys(parameters) <==> !IsNullOrWhiteSpace(options.secretKey)
    ensures var n := if IsNullOrWhiteSpace(city) then 4 else 5;
      n <= |parameters| &&
      SignedAsRequired(parameters, parameters[..n], GeocoderPath, options.secretKey, sign)
    ensures DistinctKeys(parameters)
    ensures url == TencentMapApiUrl + GeocoderPath + "?" + Join(parameters)
  {
    parameters := GeocodeParameters(options, address, sign, city);
    url := BuildRequestUrl(TencentMapApiUrl, GeocoderPath, parameters);
  }

  /** The URL `ReGeocodeAsync` requests, on the geocoder path. */
  method ReGeocodeRequestUrl(options: TencentLocationOptions, location: string, sign: Signer,
                             radius: int := 1000)
    returns (parameters: seq<Param>, url: string)
    ensures 6 <= |parameters|
    ensures parameters[..6] == [("callback", options.callback), ("get_poi", options.getPoi),
                                ("key", options.accessKey), ("location", Some(location)),
                                ("output", options.output),
                                ("poi_options", Some("radius=" + IntToText(radius)))]
    ensures SignedAsRequired(parameters, parameters[..6], GeocoderPath, options.secretKey, sign)
    ensures "sig" in Keys(parameters) <==> !IsNullOrWhiteSpace(options.secretKey)
    ensures DistinctKeys(parameters)
    ensures url == TencentMapApiUrl + GeocoderPath + "?" + Join(parameters)
  {
    parameters := ReGeocodeParameters(options, location, sign, radius);
    url := BuildRequestUrl(TencentMapApiUrl, GeocoderPath, parameters);
  }

  // ---------------------------------------------------------------------------
  // Points of interest and the address fallback
  // ---------------------------------------------------------------------------

  /** A point of interest as the reverse-geocode response gives it; the
      distance is already converted to an integer. */
  datatype TencentPoi = TencentPoi(
    id: Option<string>,
    title: Option<string>,
    address: Option<string>,
    category: Option<string>,
    distance: int)

  /** A point of interest as the client returns it. */
  datatype Poi = Poi(
    address: Option<string>,
    name: Option<string>,
    tag: Option<string>,
    poiType: Option<string>,
    distance: int)

  /** The projection of the response's points of interest, one for one and
      in order. */
  function MapPois(pois: seq<TencentPoi>): (r: seq<Poi>)
    ensures |r| == |pois|
    ensures forall i :: 0 <= i < |pois| ==>
      r[i].address == pois[i].address && r[i].name == pois[i].title &&
      r[i].tag == pois[i].id && r[i].poiType == pois[i].category &&
      r[i].distance == pois[i].distance
  {
    seq(|pois|, i requires 0 <= i < |pois| =>
      Poi(pois[i].address, pois[i].title, pois[i].id, pois[i].category, pois[i].distance))
  }

  /** The position of the first POI of minimum distance: the first element of
      a stable sort by distance. */
  function NearestIndex(pois: seq<Poi>): (k: nat)
    requires pois != []
    ensures k < |pois|
    ensures forall j :: 0 <= j < |pois| ==> pois[k].distance <= pois[j].distance
    ensures forall j :: 0 <= j < k ==> pois[j].distance > pois[k].distance
    decreases |pois|
  {
    if |pois| == 1 then 0
    else
      var k := NearestIndex(pois[..|pois| - 1]);
      if pois[|pois| - 1].distance < pois[k].distance then |pois| - 1 else k
  }

  /** `Pois.OrderBy(x => x.Distance).FirstOrDefault()`. */
  function NearestPoi(pois: seq<Poi>): (r: Option<Poi>)
    ensures r.None? <==> pois == []
    ensures r.Some? ==> r.value == pois[NearestIndex(pois)]
  {
    if pois == [] then None else Some(pois[NearestIndex(pois)])
  }

  /** The reverse-geocode result whose address the fallback may rewrite. */
  class ReGeocodeLocation {
    var address: Option<string>
    var formattedAddress: Option<string>
    var pois: seq<Poi>

    constructor (address: Option<string>, formattedAddress: Option<string>, responsePois: seq<TencentPoi>)
      ensures this.address == address && this.formattedAddress == formattedAddress
      ensures pois == MapPois(responsePois)
    {
      this.address := address;
      this.formattedAddress := formattedAddress;
      pois := MapPois(responsePois);
    }

    /** When the address or the formatted address is blank and there are
        points of interest, both are taken from the nearest one. */
    method ApplyNearestPoiFallback()
      modifies this
      ensures pois == old(pois)
      ensures (IsNullOrWhiteSpace(old(address)) || IsNullOrWhiteSpace(old(formattedAddress))) && pois != [] ==>
        address == pois[NearestIndex(pois)].address &&
        formattedAddress == pois[NearestIndex(pois)].name
      ensures !((IsNullOrWhiteSpace(old(address)) || IsNullOrWhiteSpace(old(formattedAddress))) && pois != []) ==>
        address == old(address) && formattedAddress == old(formattedAddress)
    {
      if (IsNullOrWhiteSpace(address) || IsNullOrWhiteSpace(formattedAddress)) && |pois| > 0 {
        var nearPoi := NearestPoi(pois);
        if nearPoi.Some? {
          address := nearPoi.value.address;
          formattedAddress := nearPoi.value.name;
        }
      }
    }
  }

  // ---------------------------------------------------------------------------
  // The success check of a response
  // ---------------------------------------------------------------------------

  /** The common part of every Tencent response. */
  datatype TencentResponse<T> = TencentResponse(isSuccessed: bool, message: Option<string>, result: T)

  /** The two exceptions a failed response raises: a user-friendly one (its
      localised text is not part of this model), or a plain one with the
      service's message. */
  datatype LocationError = UserFriendlyError | ResolutionFailed(message: string)

  /** `GetTencentMapResponseAsync` after the response has been deserialised. */
  function CheckResponse<T>(response: TencentResponse<T>, visibleErrorToClient: bool)
    : (r: Result<TencentResponse<T>, LocationError>)
    ensures r.Success? <==> response.isSuccessed
    ensures r.Success? ==> r.value == response
    ensures r.Failure? ==> (r.error.UserFriendlyError? <==> visibleErrorToClient)
    ensures r.Failure? && !visibleErrorToClient ==>
      r.error.message == "Resolution address failed:" + Render(response.message) + "!"
  {
    if !response.isSuccessed then
      if visibleErrorToClient then Failure(UserFriendlyError)
      else Failure(ResolutionFailed("Resolution address failed:" + Render(response.message) + "!"))
    else Success(response)
  }
}
