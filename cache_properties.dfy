/**
 * What the memoisation in proj2_nps.py does and does not achieve: hits and
 * misses of each retrieval, the effect of looking up the raw URL but storing the
 * lowered one, repeated retrievals, and loading a state page in order.
 */
module CacheProperties {
  import opened Wrappers
  import opened Text
  import opened Web
  import opened Sites
  import opened Places
  import opened Cache

  /** A URL already present as a key is served from the dictionary: no request, nothing changes. */
  lemma SiteLookupHit(entries: map<string, Value>, url: string, fetch: Fetcher)
    requires url in entries
    ensures SiteLookup(entries, url, fetch) == Step(entries, Ok(entries[url]), 0)
  {
  }

  /**
   * A URL not present as a key costs one request. When the page parses, its
   * record is returned and stored under the lowered URL and no other key
   * changes; when it does not, the dictionary is left as it was.
   */
  lemma SiteLookupMiss(entries: map<string, Value>, url: string, fetch: Fetcher)
    requires url !in entries
    ensures var s := SiteLookup(entries, url, fetch);
      s.fetches == 1 &&
      (fetch(url).Ok? ==>
        s.result == Ok(SiteValue(fetch(url).value)) &&
        Lower(url) in s.entries && s.entries[Lower(url)] == s.result.value &&
        s.entries.Keys == entries.Keys + {Lower(url)} &&
        (forall k :: k in entries && k != Lower(url) ==> s.entries[k] == entries[k])) &&
      (fetch(url).Err? ==> s.result == Err(fetch(url).error) && s.entries == entries)
  {
  }

  /** With an all-lower-case URL, a call after a successful miss is a hit on the same record. */
  lemma LowercaseUrlHitsAfterMiss(entries: map<string, Value>, url: string, fetch: Fetcher)
    requires !HasUpper(url)
    requires SiteLookup(entries, url, fetch).result.Ok?
    ensures var first := SiteLookup(entries, url, fetch);
      SiteLookup(first.entries, url, fetch) == Step(first.entries, first.result, 0)
  {
    LowerFixedIff(url);
  }

  /**
   * A URL with an upper-case letter is never stored under itself: after a miss
   * it is still not a key, so the next call with it misses again.
   */
  lemma UppercaseUrlStaysAbsent(entries: map<string, Value>, url: string, fetch: Fetcher)
    requires HasUpper(url)
    requires url !in entries
    ensures url !in SiteLookup(entries, url, fetch).entries
  {
    LowerFixedIff(url);
  }

  function Repeat<T>(x: T, n: nat): (r: seq<T>)
    ensures |r| == n && forall i :: 0 <= i < n ==> r[i] == x
  {
    if n == 0 then [] else Repeat(x, n - 1) + [x]
  }

  /**
   * Calls with the same all-lower-case URL, n >= 1 of them, send at most one
   * request and all return the same record.
   */
  lemma {:induction false} LowercaseUrlFetchedOnce(entries: map<string, Value>, url: string, urls: seq<string>,
                                                   n: nat, fetch: Fetcher)
    requires forall i :: 0 <= i < |urls| ==> urls[i] == url
    requires !HasUpper(url) && 1 <= n <= |urls|
    requires url in entries || fetch(url).Ok?
    ensures var first := SiteLookup(entries, url, fetch);
      first.result.Ok? &&
      LoadFirst(entries, urls, n, fetch) ==
        Step(first.entries, Ok(Repeat(first.result.value, n)), if url in entries then 0 else 1)
  {
    var first := SiteLookup(entries, url, fetch);
    if n == 1 {
      assert [] + [first.result.value] == Repeat(first.result.value, 1);
    } else {
      LowercaseUrlFetchedOnce(entries, url, urls, n - 1, fetch);
      LowercaseUrlHitsAfterMiss(entries, url, fetch);
    }
  }

  /**
   * n calls with the same URL holding an upper-case letter, absent at the
   * start, send n requests: every call misses.
   */
  lemma {:induction false} UppercaseUrlFetchedEveryTime(entries: map<string, Value>, url: string, urls: seq<string>,
                                                        n: nat, fetch: Fetcher)
    requires forall i :: 0 <= i < |urls| ==> urls[i] == url
    requires HasUpper(url) && url !in entries && n <= |urls|
    requires fetch(url).Ok?
    ensures var s := LoadFirst(entries, urls, n, fetch);
      s.fetches == n && url !in s.entries && s.result == Ok(Repeat(SiteValue(fetch(url).value), n))
  {
    if n > 0 {
      UppercaseUrlFetchedEveryTime(entries, url, urls, n - 1, fetch);
      var before := LoadFirst(entries, urls, n - 1, fetch);
      UppercaseUrlStaysAbsent(before.entries, url, fetch);
      var last := SiteLookup(before.entries, url, fetch);
      var v := SiteValue(fetch(url).value);
      assert urls[n - 1] == url;
      assert last.fetches == 1 && last.result == Ok(v);
      assert LoadFirst(entries, urls, n, fetch) == Step(last.entries, Ok(Repeat(v, n - 1) + [v]), n);
    }
  }

  /** One more step of a load that succeeds: both the shorter load and the last lookup succeed, and the list grows by one. */
  lemma LoadFirstStep(entries: map<string, Value>, urls: seq<string>, n: nat, fetch: Fetcher)
    requires 0 < n <= |urls|
    requires LoadFirst(entries, urls, n, fetch).result.Ok?
    ensures var before := LoadFirst(entries, urls, n - 1, fetch);
      var last := SiteLookup(before.entries, urls[n - 1], fetch);
      before.result.Ok? && last.result.Ok? &&
      LoadFirst(entries, urls, n, fetch).result.value == before.result.value + [last.result.value]
  {
  }

  /**
   * Loading a state page returns one value per URL, in page order: the i-th is
   * what get_site_instance returns for the i-th URL, given the dictionary left
   * by the URLs before it.
   */
  lemma {:induction false} LoadSitesInOrder(entries: map<string, Value>, urls: seq<string>, n: nat, fetch: Fetcher)
    requires n <= |urls|
    requires LoadFirst(entries, urls, n, fetch).result.Ok?
    ensures |LoadFirst(entries, urls, n, fetch).result.value| == n
    ensures forall i {:trigger LoadFirst(entries, urls, n, fetch).result.value[i]} :: 0 <= i < n ==>
      LoadFirst(entries, urls, i, fetch).result.Ok? &&
      SiteLookup(LoadFirst(entries, urls, i, fetch).entries, urls[i], fetch).result.Ok? &&
      LoadFirst(entries, urls, n, fetch).result.value[i] ==
        SiteLookup(LoadFirst(entries, urls, i, fetch).entries, urls[i], fetch).result.value
  {
    if n > 0 {
      LoadFirstStep(entries, urls, n, fetch);
      LoadSitesInOrder(entries, urls, n - 1, fetch);
      var before := LoadFirst(entries, urls, n - 1, fetch).result.value;
      var values := LoadFirst(entries, urls, n, fetch).result.value;
      forall i | 0 <= i < n - 1
        ensures LoadFirst(entries, urls, i, fetch).result.Ok? &&
          SiteLookup(LoadFirst(entries, urls, i, fetch).entries, urls[i], fetch).result.Ok? &&
          values[i] == SiteLookup(LoadFirst(entries, urls, i, fetch).entries, urls[i], fetch).result.value
      {
        assert values[i] == before[i];
      }
    }
  }

  /**
   * After loading a page of all-lower-case URLs, every URL is a key holding the
   * value returned for it, and every key present before keeps its value.
   */
  lemma {:induction false} LoadSitesRecords(entries: map<string, Value>, urls: seq<string>, n: nat, fetch: Fetcher)
    requires forall i :: 0 <= i < |urls| ==> !HasUpper(urls[i])
    requires n <= |urls|
    requires LoadFirst(entries, urls, n, fetch).result.Ok?
    ensures var s := LoadFirst(entries, urls, n, fetch);
      (forall k :: k in entries ==> k in s.entries && s.entries[k] == entries[k]) &&
      |s.result.value| == n &&
      (forall i :: 0 <= i < n ==> urls[i] in s.entries && s.entries[urls[i]] == s.result.value[i])
  {
    if n > 0 {
      LoadFirstStep(entries, urls, n, fetch);
      LoadSitesRecords(entries, urls, n - 1, fetch);
      var before := LoadFirst(entries, urls, n - 1, fetch);
      var u := urls[n - 1];
      var last := SiteLookup(before.entries, u, fetch);
      LowerFixedIff(u);
      assert u in last.entries && last.entries[u] == last.result.value;
      var s := LoadFirst(entries, urls, n, fetch);
      assert s.entries == last.entries;
      forall i | 0 <= i < n - 1
        ensures urls[i] in s.entries && s.entries[urls[i]] == s.result.value[i]
      {
        assert s.result.value[i] == before.result.value[i];
      }
    }
  }

  /** When every URL is already a key, loading the page sends no request and changes nothing. */
  lemma {:induction false} LoadSitesAllHits(entries: map<string, Value>, urls: seq<string>, n: nat, fetch: Fetcher)
    requires forall i :: 0 <= i < |urls| ==> urls[i] in entries
    requires n <= |urls|
    ensures var s := LoadFirst(entries, urls, n, fetch);
      s.entries == entries && s.fetches == 0 && s.result.Ok? && |s.result.value| == n &&
      forall i :: 0 <= i < n ==> s.result.value[i] == entries[urls[i]]
  {
    if n > 0 {
      LoadSitesAllHits(entries, urls, n - 1, fetch);
    }
  }

  /**
   * Loading the same page of all-lower-case URLs a second time is served from
   * the dictionary: the same values, no request, no change.
   */
  lemma SecondLoadFromCache(entries: map<string, Value>, urls: seq<string>, fetch: Fetcher)
    requires forall i :: 0 <= i < |urls| ==> !HasUpper(urls[i])
    requires LoadSites(entries, urls, fetch).result.Ok?
    ensures var first := LoadSites(entries, urls, fetch);
      LoadSites(first.entries, urls, fetch) == Step(first.entries, first.result, 0)
  {
    var first := LoadSites(entries, urls, fetch);
    LoadSitesRecords(entries, urls, |urls|, fetch);
    LoadSitesAllHits(first.entries, urls, |urls|, fetch);
    assert LoadSites(first.entries, urls, fetch).result.value == first.result.value;
  }

  /** A zip code already present as a key is served from the dictionary: no request, nothing changes. */
  lemma PlacesLookupHit(entries: map<string, Value>, site: NationalSite, key: string,
                        api: PlacesRequest -> Option<Document>)
    requires site.zipcode in entries
    ensures PlacesLookup(entries, site, key, api) == Step(entries, Ok(entries[site.zipcode]), 0)
  {
  }

  /**
   * A zip code not present costs one request, for up to ten places within ten miles
   * of that zip code; its document is stored under the zip code as given and no
   * other key changes.
   */
  lemma PlacesLookupMiss(entries: map<string, Value>, site: NationalSite, key: string,
                         api: PlacesRequest -> Option<Document>)
    requires site.zipcode !in entries
    ensures var s := PlacesLookup(entries, site, key, api);
      var response := api(RadiusSearch(key, site.zipcode));
      s.fetches == 1 &&
      (response.Some? ==>
        s.result == Ok(PlacesValue(response.value)) &&
        s.entries == entries[site.zipcode := PlacesValue(response.value)] &&
        s.entries.Keys == entries.Keys + {site.zipcode}) &&
      (response.None? ==> s.result == Err(PlacesApiError) && s.entries == entries)
  {
  }

  /** After a successful miss, a call for a site with the same zip code returns the same document with no request. */
  lemma PlacesSecondCallHits(entries: map<string, Value>, site: NationalSite, other: NationalSite, key: string,
                             api: PlacesRequest -> Option<Document>)
    requires other.zipcode == site.zipcode
    requires PlacesLookup(entries, site, key, api).result.Ok?
    ensures var first := PlacesLookup(entries, site, key, api);
      PlacesLookup(first.entries, other, key, api) == Step(first.entries, first.result, 0)
  {
  }

  /**
   * Site URLs and zip codes share one key space: a site whose zip code equals a
   * site URL already retrieved gets that site record back in place of a places
   * document.
   */
  lemma KeySpacesCollide(entries: map<string, Value>, url: string, fetch: Fetcher,
                         site: NationalSite, key: string, api: PlacesRequest -> Option<Document>)
    requires !HasUpper(url) && url !in entries && fetch(url).Ok?
    requires site.zipcode == url
    ensures var s := PlacesLookup(SiteLookup(entries, url, fetch).entries, site, key, api);
      s.fetches == 0 && s.result == Ok(SiteValue(fetch(url).value))
  {
    LowerFixedIff(url);
  }
}
