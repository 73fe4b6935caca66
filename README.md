# National parks browser — verified model

`proj2_nps.py` is a command-line browser for the US National Park Service
website. The user picks a state. The program lists that state's national sites,
scraping each site's detail page into a `NationalSite` record. The user then
picks a site by its number, and the program shows up to ten places within ten
miles of its zip code, found through a places-search web API. Every scraped record and
every API response is memoised in one process-wide dictionary, `CACHE_DICT`.

This project models the logic around the network calls:

- `Sites`: the `NationalSite` record, with its default field values and its
  `info()` line, and the extraction of a record from a detail page.
- `Cache`: `CACHE_DICT` as a class. Its two retrievals, `get_site_instance` and
  `get_nearby_places`, are methods. Pure functions `SiteLookup`, `PlacesLookup`
  and `LoadSites` specify them, and each method's `ensures` ties its result and
  new state to those functions. `get_sites_for_state`'s two loops are methods
  proved against `SiteUrls` and `LoadSites`.
- `CacheProperties`: hits, misses, "nothing else changes", and repeated calls.
  A URL is looked up as given but stored lowered. So an all-lower-case URL is
  fetched at most once, and a URL with an upper-case letter is fetched on every
  call.
- `Directory`: `build_state_url_dict`'s loop, proved against the fold
  `StateUrls`. Its lemmas cover when it succeeds, what its keys are, and which
  link wins for a repeated key.
- `Menu`: the main loop's two prompts. The state prompt lowers its input. The
  site prompt checks digits and a 1-based range before it indexes the list.
- `Places`: the places-search request and the in-place "No ..." substitution
  for empty fields.
- `Web`: the site origin and the ways a retrieval can raise.
- `Text`: ASCII models of Python's `str.strip`, `str.lower`, `str.isdigit`,
  `int` and `str` on naturals.

The web and the API are parameters:

- `web: string -> Option<DetailPage>` gives the page served for a URL, or `None`
  when the request fails. A `DetailPage` holds the text of each element the
  parser looks for.
- `api: PlacesRequest -> Option<Document>` gives the decoded response, or `None`
  when the request or the JSON decoding fails.
- The cache methods take a `fetch` function for "request, then parse". For the
  real program this is `Retrieve(web)`, the request followed by `ParseSite`.

A ghost counter `fetches` counts the requests sent on a miss, whether or not
the retrieval then succeeds.

Where a Python call raises, the model returns `Err`. A raising
`get_site_instance` stores nothing, and a raising `get_sites_for_state`
returns nothing.

## Model

| member | source | states |
|---|---|---|
| Sites.DefaultSite | proj2_nps.py:38-43 | each omitted constructor argument defaults to "No Category", "No Name", "No Address", "No Zip-Code" or "No Phone Number"; arguments given are stored as given |
| Sites.Info | proj2_nps.py:46-47 | the info line is the name, " (", the category, "): ", the address, one space and the zip code, at exactly those positions, and its length is their sum |
| Sites.InfoIgnoresPhone | proj2_nps.py:46-47 | changing the phone number never changes the info line |
| Sites.InfoDeterminesName | proj2_nps.py:46-47 | for equal category, address and zip code, two info lines are equal iff the names are |
| Sites.ParseSite | proj2_nps.py:101-112 | a record comes out iff title, postal code, locality, region and phone are all present; the name, zip code and phone are the stripped texts; the address is "locality, region" unstripped; the category is the stripped designation or "None"; a missing title raises first |
| Sites.MissingDesignationIsNone | proj2_nps.py:104-106 | a page without a designation gives the category "None", which differs from the constructor default "No Category" |
| Sites.ParsedFieldsTrimmed | proj2_nps.py:103-111 | the extracted name, zip code and phone have no leading or trailing whitespace |
| Sites.IsleRoyaleExample | proj2_nps.py:103-112 | the Isle Royale page gives the name "Isle Royale", the category "None", the address "Houghton, MI" and the zip code "49931" |
| Sites.FetchSite | proj2_nps.py:101-102 | a failed request raises a network error before any parsing |
| Cache.RetrieveOutcome | proj2_nps.py:101-112 | retrieving a URL is a network error when no page is served, and otherwise the parse of the served page |
| Cache.SiteLookup | proj2_nps.py:94-115 | at most one request, sent exactly when the URL is not a key; a hit returns the stored value; a successful miss leaves the record under the lowered URL; no key is removed, no key other than the lowered URL changes, and a raise changes nothing |
| Cache.PlacesLookup | proj2_nps.py:164-179 | at most one request, sent exactly when the zip code is not a key; a success leaves the returned value under the zip code; no key is removed, no other key changes, and a failure changes nothing |
| Cache.LoadSites | proj2_nps.py:143-148 | loading a state page sends at most one request per URL and removes no key |
| Cache.LoadFirstStopsAtError | proj2_nps.py:145-146 | once one retrieval of the loop raises, later URLs change neither the result nor the dictionary |
| Cache.Cache.constructor | proj2_nps.py:50 | the dictionary starts empty and no request has been sent |
| Cache.Cache.GetSiteInstance | proj2_nps.py:94-115 | the returned value, the new dictionary and the request count are those of SiteLookup on the old dictionary |
| Cache.Cache.GetNearbyPlaces | proj2_nps.py:164-179 | the returned value, the new dictionary and the request count are those of PlacesLookup on the old dictionary |
| Cache.BuildSiteUrls | proj2_nps.py:136-141 | one URL per heading, in heading order, each the site origin followed by the heading's href |
| Cache.RetrieveSites | proj2_nps.py:143-148 | the collected list, the new dictionary and the request count are those of LoadSites: get_site_instance on each URL in turn, stopping at the first that raises |
| Cache.GetSitesForState | proj2_nps.py:118-148 | the result is LoadSites on the old dictionary and the URLs built from the hrefs |
| CacheProperties.SiteLookupHit | proj2_nps.py:95-97 | a URL already present as a key returns its stored value with no request and no change |
| CacheProperties.SiteLookupMiss | proj2_nps.py:100-115 | a miss costs one request; on success the record is returned and stored under the lowered URL, exactly that key is added or replaced, and every other key keeps its value; on failure nothing is stored |
| CacheProperties.LowercaseUrlHitsAfterMiss | proj2_nps.py:95-113 | with an all-lower-case URL, the call after a successful miss is a hit returning the same record |
| CacheProperties.UppercaseUrlStaysAbsent | proj2_nps.py:95-113 | a URL with an upper-case letter is still not a key after its miss |
| CacheProperties.LowercaseUrlFetchedOnce | proj2_nps.py:95-113 | n calls with the same all-lower-case URL send at most one request and all return the same record |
| CacheProperties.UppercaseUrlFetchedEveryTime | proj2_nps.py:95-113 | n calls with the same URL containing an upper-case letter send n requests, none stores the URL as given, and each returns a record equal in value to the others |
| CacheProperties.LoadSitesInOrder | proj2_nps.py:143-148 | the list has one value per URL, and the i-th is what get_site_instance returns for the i-th URL on the dictionary left by the URLs before it |
| CacheProperties.LoadSitesRecords | proj2_nps.py:143-146 | after loading all-lower-case URLs, every URL is a key holding the value returned for it, and earlier keys keep their values |
| CacheProperties.LoadSitesAllHits | proj2_nps.py:143-146 | when every URL is already a key, loading sends no request, changes nothing and returns the stored values in order |
| CacheProperties.SecondLoadFromCache | proj2_nps.py:95-113 | loading the same all-lower-case state page twice returns the same list the second time with no request and no change |
| CacheProperties.PlacesLookupHit | proj2_nps.py:165-167 | a zip code already present returns the stored document with no request and no change |
| CacheProperties.PlacesLookupMiss | proj2_nps.py:170-179 | a miss sends one request for up to ten places within ten miles of the zip code; a decoded document is stored under the zip code as given, and only that key changes |
| CacheProperties.PlacesSecondCallHits | proj2_nps.py:165-178 | after a successful miss, any site with the same zip code gets the same document with no request |
| CacheProperties.KeySpacesCollide | proj2_nps.py:113-167 | site URLs and zip codes share one dictionary: a zip code equal to a stored site URL returns that site record with no request |
| Places.RadiusSearch | proj2_nps.py:172-173 | the request goes to the radius endpoint with the given key and origin, radius 10, units "m", at most 10 matches, ambiguities "ignore" and JSON output |
| Places.FillFields | proj2_nps.py:221-226 | afterwards each of category, address and city is non-empty; an empty one becomes its sentinel and a non-empty one is unchanged |
| Places.FillPlace | proj2_nps.py:220-226 | a place keeps its name and its fields are filled in as FillFields says |
| Places.FillIdempotent | proj2_nps.py:220-226 | substituting twice is substituting once |
| Places.FillKeepsComplete | proj2_nps.py:221-226 | a place with every field filled in is left unchanged |
| Places.SubstituteSentinels | proj2_nps.py:220-226 | every result in the list is overwritten, in place, with its filled-in form |
| Directory.StateUrls | proj2_nps.py:72-78 | the dictionary has at most one key per link and every value starts with the site origin; the only error is a link without text |
| Directory.BuildStateUrlDict | proj2_nps.py:72-78 | the loop's dictionary is the fold StateUrls over all the state links |
| Directory.StateUrlsStopsAtError | proj2_nps.py:74-77 | once a link without text raises, later links make no difference |
| Directory.StateUrlsOkIff | proj2_nps.py:74-77 | the dictionary is built iff every link has a string as its text |
| Directory.StateUrlsKeys | proj2_nps.py:77 | every key is the lowered text of some link, so no key has an upper-case letter |
| Directory.StateUrlsLastWins | proj2_nps.py:74-77 | every link's lowered text is a key, and it maps to the site origin plus the href of the last link with that lowered text |
| Menu.ClassifyState | proj2_nps.py:185-192 | input that lowers to "exit" quits; otherwise input whose lowered form is a key opens that key's page; anything else is rejected |
| Menu.StatePromptIgnoresCase | proj2_nps.py:185 | two inputs that lower alike are treated alike |
| Menu.StateLinkSelectsItsPage | proj2_nps.py:185-192 | typing a state link's text in any case opens the page that link points to, unless a later link lowers to the same text or the text is "exit" |
| Menu.Classify | proj2_nps.py:205-214 | the empty line leaves the detail loop, "back" goes back and "exit" quits; a selection is picked iff it is all digits with a value from 1 to the list length, and the 0-based index is then in range; any other line is invalid |
| Menu.ValidSelection | proj2_nps.py:210 | a valid selection is none of "", "back" and "exit", and exists only when the list is non-empty |
| Menu.ShownNumberSelects | proj2_nps.py:199-214 | typing the number printed beside the k-th site selects the k-th site |
| Menu.InvalidSelections | proj2_nps.py:210-211 | "0", "-1", a word and the number after the last site are all rejected |
| Text.Strip | proj2_nps.py:103-111 | strip's result has no whitespace at either end and is no longer than its input |
| Text.StripPadded | proj2_nps.py:103-111 | stripping text padded with whitespace gives back the trimmed text |
| Text.StripIdempotent | proj2_nps.py:103-111 | stripping twice is stripping once |
| Text.Lower | proj2_nps.py:113 | lower keeps the length and lowers each character |
| Text.LowerFixedIff | proj2_nps.py:113 | lowering leaves a string unchanged iff it has no upper-case letter |
| Text.LowerIdempotent | proj2_nps.py:77 | lowering twice is lowering once |
| Text.ShowNat | proj2_nps.py:201 | the printed number is a non-empty string of digits with no leading zero |
| Text.ShowNatRoundTrip | proj2_nps.py:201-210 | reading back a printed number gives the number |

## Left out

- HTTP requests, HTML parsing with BeautifulSoup, the `re.compile("state")` link filter and `json.loads` are parameters or inputs, as described above. The home page's state links arrive as a list of `Anchor`s, and a state page's site headings as a list of hrefs.
- The `secrets` module and the API key: the key is a parameter of `GetNearbyPlaces`.
- Console output, the "Using Cache" / "Fetching" messages and the rendering of the site and place lines. The ghost `fetches` counter counts the requests sent on a miss. It is not a count of the messages: a `get_site_instance` miss that raises prints nothing, because its "Fetching" follows the store (line 114). `get_nearby_places` prints "Fetching" before its request (line 171), so for it the count and the messages agree. A hit prints "Using Cache" but is not counted.
- The `input()` / `quit()` loop itself: only its decisions are modelled, in `Menu`.
- Python's Unicode `str.strip`, `str.lower` and `str.isdigit` are modelled on ASCII. Whitespace is space, tab to carriage return, and the four separator controls. Letters are A-Z. Digits are 0-9.
- Python object identity: the model compares records by value. On a hit, value equality stands for "the identical object", since the program returns the stored object. Each miss builds a new `NationalSite`, and the class defines no `__eq__`. So the equal records of repeated misses (`UppercaseUrlFetchedEveryTime`) are distinct, unequal objects in the program.
- The web is a fixed function of the URL: `fetch`, `web` and `api` give the same answer every time they are asked. A page or API response that changes between two requests is not modelled. Results that say repeated misses return equal records rely on this.
- Sites.ParseSite: an element whose text is not a single string (BeautifulSoup's `.string` is None) is treated as a missing element. A missing `tel` element raises, as the code does, even though the constructor gives the phone a default of "No Phone Number" (line 38). A title of only whitespace gives the empty name, not a sentinel.
- Places.SubstituteSentinels: the rewritten list is the one stored in `CACHE_DICT`, so the real program also rewrites the cached document. The model works on a separate array and does not capture that aliasing. By `FillIdempotent`, rendering the same document again is unaffected. A JSON `null` field, which Python's `not` also treats as empty, is not modelled: fields are strings.
- A response without a `searchResults` key, or a place without `fields` or without one of its `group_sic_code_name`, `address` and `city` keys, raises `KeyError` in the program (lines 220-227). This is not modelled: a `Document` always has the list, and a `Fields` always holds the three strings.
- Text.Strip: strips ASCII whitespace only.
