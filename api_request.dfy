/**
 * The URL builder shared by the vehicle and stop requests (class `ApiRequest`
 * in main.py). The HTTP call itself is not part of this model.
 */
module ApiRequest {
  import opened Wrappers

  /** Base URL of the transit agency's API, set by the request constructor. */
  const ApiUrl: string := "https://api-v3.mbta.com/"
  /** Endpoint names used by `Train` and `Stop`. */
  const VehiclesEndpoint: string := "vehicles"
  const StopsEndpoint: string := "stops"
  /** The route filter the polling loop passes in (Orange line). */
  const OrangeFilter: string := "filter%5Broute%5D=Orange"

  /** Python truthiness of the optional filter: `None` and `''` are both false. */
  predicate Truthy(apiFilter: Option<string>) {
    apiFilter.Some? && apiFilter.value != ""
  }

  /**
   * `build_api_url`: the endpoint is appended to the base URL, and a truthy
   * filter is appended after a single `?`.
   */
  function BuildApiUrl(apiUrl: string, endpoint: string, apiFilter: Option<string>): (url: string)
    ensures |apiUrl + endpoint| <= |url| && url[..|apiUrl + endpoint|] == apiUrl + endpoint
    ensures Truthy(apiFilter) <==> |url| > |apiUrl + endpoint|
    ensures Truthy(apiFilter) ==> url[|apiUrl + endpoint|] == '?'
  {
    if Truthy(apiFilter) then apiUrl + endpoint + "?" + apiFilter.value else apiUrl + endpoint
  }

  /** The query string of a URL: everything after its first `?`, if there is one. */
  function QueryOf(url: string): (q: Option<string>)
    ensures q.Some? <==> '?' in url
    ensures q.Some? ==> |q.value| < |url| && q.value == url[|url| - |q.value|..]
  {
    if url == [] then None
    else if url[0] == '?' then Some(url[1..])
    else QueryOf(url[1..])
  }

  /** A prefix without `?` does not change the query string. */
  lemma {:induction false} QueryOfSkipsPrefix(prefix: string, rest: string)
    requires '?' !in prefix
    ensures QueryOf(prefix + rest) == QueryOf(rest)
  {
    if prefix != [] {
      assert (prefix + rest)[0] == prefix[0];
      assert (prefix + rest)[1..] == prefix[1..] + rest;
      QueryOfSkipsPrefix(prefix[1..], rest);
    } else {
      assert prefix + rest == rest;
    }
  }

  /**
   * Round trip: when neither the base URL nor the endpoint contains `?`, the
   * query string of the built URL is exactly the filter if it is truthy, and
   * there is none otherwise.
   */
  lemma QueryRoundTrip(apiUrl: string, endpoint: string, apiFilter: Option<string>)
    requires '?' !in apiUrl && '?' !in endpoint
    ensures QueryOf(BuildApiUrl(apiUrl, endpoint, apiFilter))
            == if Truthy(apiFilter) then apiFilter else None
  {
    var base := apiUrl + endpoint;
    assert '?' !in base;
    if Truthy(apiFilter) {
      assert BuildApiUrl(apiUrl, endpoint, apiFilter) == base + ("?" + apiFilter.value);
      QueryOfSkipsPrefix(base, "?" + apiFilter.value);
      assert ("?" + apiFilter.value)[1..] == apiFilter.value;
    } else {
      assert BuildApiUrl(apiUrl, endpoint, apiFilter) == base + [];
      QueryOfSkipsPrefix(base, []);
    }
  }

  /** The vehicle request of the polling program, written out. */
  lemma OrangeVehiclesUrl()
    ensures BuildApiUrl(ApiUrl, VehiclesEndpoint, Some(OrangeFilter))
            == "https://api-v3.mbta.com/vehicles?filter%5Broute%5D=Orange"
  {
  }

  /** The stop request of the polling program carries the Orange-line filter as its query. */
  lemma OrangeStopsQuery()
    ensures QueryOf(BuildApiUrl(ApiUrl, StopsEndpoint, Some(OrangeFilter))) == Some(OrangeFilter)
  {
    QueryRoundTrip(ApiUrl, StopsEndpoint, Some(OrangeFilter));
  }
}
