/**
 * CACHE_DICT and the two retrievals that memoise through it.
 *
 * get_site_instance looks a detail URL up as given but stores the record under
 * the URL lowered; get_nearby_places looks up and stores under the site's zip
 * code as given. Both share one flat dictionary. The web and the places API are
 * parameters: `web` gives the detail page served for a URL (None when the
 * request fails) and `api` the parsed response to a request (None when the
 * request or the JSON decoding fails). The request for a detail page and the
 * extraction of its record are taken together as one function `fetch`. For
 * the real program, `fetch` is `Retrieve(web)`: the request followed by
 * ParseSite.
 */
module Cache {
  import opened Wrappers
  import opened Text
  import opened Web
  import opened Sites
  import opened Places

  /** What the dictionary holds: a site record or a places-search document. */
  datatype Value = SiteValue(site: NationalSite) | PlacesValue(doc: Document)

  /** The dictionary after one or more retrievals, their result, and how many requests they sent. */
  datatype Step<T> = Step(entries: map<string, Value>, result: Result<T, RetrievalError>, fetches: nat)

  /** What requesting and parsing a detail URL gives. */
  type Fetcher = string -> Result<NationalSite, RetrievalError>

  /** Requesting a URL from `web`, then extracting the site from the page. */
  function Retrieve(web: string -> Option<DetailPage>): Fetcher
  {
    u => FetchSite(web(u))
  }

  /** A failed request raises a network error; a served page is parsed. */
  lemma RetrieveOutcome(web: string -> Option<DetailPage>, url: string)
    ensures web(url).None? ==> Retrieve(web)(url) == Err(NetworkError)
    ensures web(url).Some? ==> Retrieve(web)(url) == ParseSite(web(url).value)
  {
  }

  /** get_site_instance on a dictionary `entries`. */
  function SiteLookup(entries: map<string, Value>, url: string, fetch: Fetcher): (r: Step<Value>)
    ensures r.fetches <= 1 && (r.fetches == 0 <==> url in entries)
    ensures entries.Keys <= r.entries.Keys
    ensures forall k :: k in entries && k != Lower(url) ==> r.entries[k] == entries[k]
    ensures url in entries ==> r.result == Ok(entries[url])
    ensures r.result.Ok? && url !in entries ==> Lower(url) in r.entries && r.entries[Lower(url)] == r.result.value
    ensures r.result.Err? ==> r.entries == entries
  {
    if url in entries then Step(entries, Ok(entries[url]), 0)
    else
      var fetched := fetch(url);
      if fetched.Err? then Step(entries, Err(fetched.error), 1)
      else Step(entries[Lower(url) := SiteValue(fetched.value)], Ok(SiteValue(fetched.value)), 1)
  }

  /** get_nearby_places on a dictionary `entries`. */
  function PlacesLookup(entries: map<string, Value>, site: NationalSite, key: string,
                        api: PlacesRequest -> Option<Document>): (r: Step<Value>)
    ensures r.fetches <= 1 && (r.fetches == 0 <==> site.zipcode in entries)
    ensures entries.Keys <= r.entries.Keys
    ensures forall k :: k in entries && k != site.zipcode ==> r.entries[k] == entries[k]
    ensures r.result.Ok? ==> site.zipcode in r.entries && r.entries[site.zipcode] == r.result.value
    ensures r.result.Err? ==> r.entries == entries
  {
    if site.zipcode in entries then Step(entries, Ok(entries[site.zipcode]), 0)
    else
      var response := api(RadiusSearch(key, site.zipcode));
      if response.None? then Step(entries, Err(PlacesApiError), 1)
      else Step(entries[site.zipcode := PlacesValue(response.value)], Ok(PlacesValue(response.value)), 1)
  }

  /** The full URL of every site heading on a state page, in page order. */
  function SiteUrls(hrefs: seq<string>): (urls: seq<string>)
    ensures |urls| == |hrefs|
    ensures forall i :: 0 <= i < |hrefs| ==> urls[i] == BaseUrl + hrefs[i]
  {
    seq(|hrefs|, i requires 0 <= i < |hrefs| => BaseUrl + hrefs[i])
  }

  /** get_site_instance on the first n URLs in turn, stopping at the first that raises. */
  function LoadFirst(entries: map<string, Value>, urls: seq<string>, n: nat, fetch: Fetcher): (r: Step<seq<Value>>)
    requires n <= |urls|
    ensures r.fetches <= n
    ensures entries.Keys <= r.entries.Keys
  {
    if n == 0 then Step(entries, Ok([]), 0)
    else
      var before := LoadFirst(entries, urls, n - 1, fetch);
      if before.result.Err? then before
      else
        var last := SiteLookup(before.entries, urls[n - 1], fetch);
        Step(last.entries,
             if last.result.Ok? then Ok(before.result.value + [last.result.value]) else Err(last.result.error),
             before.fetches + last.fetches)
  }

  /** get_site_instance on every URL in turn. */
  function LoadSites(entries: map<string, Value>, urls: seq<string>, fetch: Fetcher): (r: Step<seq<Value>>)
    ensures r.fetches <= |urls|
    ensures entries.Keys <= r.entries.Keys
  {
    LoadFirst(entries, urls, |urls|, fetch)
  }

  /** Once a retrieval raises, the later URLs are never visited. */
  lemma {:induction false} LoadFirstStopsAtError(entries: map<string, Value>, urls: seq<string>, n: nat, k: nat,
                                                 fetch: Fetcher)
    requires n <= k <= |urls|
    requires LoadFirst(entries, urls, n, fetch).result.Err?
    ensures LoadFirst(entries, urls, k, fetch) == LoadFirst(entries, urls, n, fetch)
    decreases k
  {
    if n < k {
      LoadFirstStopsAtError(entries, urls, n, k - 1, fetch);
    }
  }

  /** The process-wide dictionary, with a count of the requests sent on a miss. */
  class Cache {
    var entries: map<string, Value>
    ghost var fetches: nat

    constructor ()
      ensures entries == map[] && fetches == 0
    {
      entries := map[];
      fetches := 0;
    }

    /** get_site_instance: a hit returns the stored value, a miss fetches, parses and stores. */
    method GetSiteInstance(siteUrl: string, fetch: Fetcher) returns (r: Result<Value, RetrievalError>)
      modifies this
      ensures var s := SiteLookup(old(entries), siteUrl, fetch);
        r == s.result && entries == s.entries && fetches == old(fetches) + s.fetches
    {
      if siteUrl in entries {
        return Ok(entries[siteUrl]);
      }
      fetches := fetches + 1;
      var site := fetch(siteUrl);
      if site.Err? {
        return Err(site.error);
      }
      entries := entries[Lower(siteUrl) := SiteValue(site.value)];
      r := Ok(SiteValue(site.value));
    }

    /** get_nearby_places: a hit returns the stored value, a miss queries the API and stores its document. */
    method GetNearbyPlaces(site: NationalSite, key: string, api: PlacesRequest -> Option<Document>)
      returns (r: Result<Value, RetrievalError>)
      modifies this
      ensures var s := PlacesLookup(old(entries), site, key, api);
        r == s.result && entries == s.entries && fetches == old(fetches) + s.fetches
    {
      if site.zipcode in entries {
        return Ok(entries[site.zipcode]);
      }
      fetches := fetches + 1;
      var response := api(RadiusSearch(key, site.zipcode));
      if response.None? {
        return Err(PlacesApiError);
      }
      entries := entries[site.zipcode := PlacesValue(response.value)];
      r := Ok(PlacesValue(response.value));
    }
  }

  /** The first loop of get_sites_for_state: each heading's href prefixed with the site origin, in page order. */
  method BuildSiteUrls(hrefs: seq<string>) returns (urls: seq<string>)
    ensures urls == SiteUrls(hrefs)
  {
    urls := [];
    for i := 0 to |hrefs|
      invariant |urls| == i
      invariant forall k :: 0 <= k < i ==> urls[k] == BaseUrl + hrefs[k]
    {
      urls := urls + [BaseUrl + hrefs[i]];
    }
  }

  /** The second loop of get_sites_for_state: get_site_instance on each URL in turn, collecting the results. */
  method RetrieveSites(cache: Cache, urls: seq<string>, fetch: Fetcher)
    returns (r: Result<seq<Value>, RetrievalError>)
    modifies cache
    ensures var s := LoadSites(old(cache.entries), urls, fetch);
      r == s.result && cache.entries == s.entries && cache.fetches == old(cache.fetches) + s.fetches
  {
    var sites: seq<Value> := [];
    for i := 0 to |urls|
      invariant var s := LoadFirst(old(cache.entries), urls, i, fetch);
        s.result == Ok(sites) && cache.entries == s.entries && cache.fetches == old(cache.fetches) + s.fetches
    {
      var site := cache.GetSiteInstance(urls[i], fetch);
      if site.Err? {
        LoadFirstStopsAtError(old(cache.entries), urls, i + 1, |urls|, fetch);
        return Err(site.error);
      }
      sites := sites + [site.value];
    }
    r := Ok(sites);
  }

  /**
   * get_sites_for_state, from the hrefs of the state page's site headings: the
   * full URLs are built first, then each site is retrieved through the cache.
   */
  method GetSitesForState(cache: Cache, hrefs: seq<string>, fetch: Fetcher)
    returns (r: Result<seq<Value>, RetrievalError>)
    modifies cache
    ensures var s := LoadSites(old(cache.entries), SiteUrls(hrefs), fetch);
      r == s.result && cache.entries == s.entries && cache.fetches == old(cache.fetches) + s.fetches
  {
    var urls := BuildSiteUrls(hrefs);
    r := RetrieveSites(cache, urls, fetch);
  }
}
