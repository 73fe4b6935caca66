/**
 * The places-search side: the request that get_nearby_places sends for a zip
 * code, the part of the response document the program reads, and the "No ..."
 * substitution the main loop applies to each place before rendering it.
 */
module Places {

  /** The "fields" object of one search result. */
  datatype Fields = Fields(groupSicCodeName: string, address: string, city: string)

  datatype Place = Place(name: string, fields: Fields)

  /** The parsed JSON response; only its "searchResults" list is read. */
  datatype Document = Document(searchResults: seq<Place>)

  /** The GET request to the places-search endpoint, with its query parameters. */
  datatype PlacesRequest = PlacesRequest(
    endpoint: string, key: string, origin: string, radius: nat, units: string,
    maxMatches: nat, ambiguities: string, outFormat: string)

  const RadiusEndpoint: string := "http://www.mapquestapi.com/search/v2/radius"

  /** The one request get_nearby_places issues: up to ten places within ten miles of `origin`. */
  function RadiusSearch(key: string, origin: string): (q: PlacesRequest)
    ensures q.origin == origin && q.key == key && q.endpoint == RadiusEndpoint
    ensures q.radius == 10 && q.units == "m" && q.maxMatches == 10
    ensures q.ambiguities == "ignore" && q.outFormat == "json"
  {
    PlacesRequest(RadiusEndpoint, key, origin, 10, "m", 10, "ignore", "json")
  }

  /** An empty field is replaced by its sentinel; a non-empty one is kept. */
  function OrSentinel(value: string, sentinel: string): string
  {
    if value == "" then sentinel else value
  }

  /** The three in-place replacements of the main loop, for one place. */
  function FillFields(f: Fields): (r: Fields)
    ensures r.groupSicCodeName != "" && r.address != "" && r.city != ""
    ensures f.groupSicCodeName != "" ==> r.groupSicCodeName == f.groupSicCodeName
    ensures f.address != "" ==> r.address == f.address
    ensures f.city != "" ==> r.city == f.city
    ensures f.groupSicCodeName == "" ==> r.groupSicCodeName == "No Category"
    ensures f.address == "" ==> r.address == "No Address"
    ensures f.city == "" ==> r.city == "No City"
  {
    Fields(OrSentinel(f.groupSicCodeName, "No Category"),
           OrSentinel(f.address, "No Address"),
           OrSentinel(f.city, "No City"))
  }

  function FillPlace(p: Place): (r: Place)
    ensures r.name == p.name && r.fields == FillFields(p.fields)
  {
    p.(fields := FillFields(p.fields))
  }

  /**
   * Substituting twice is substituting once, so a document that already went
   * through the loop (the cached one, on a later hit) renders the same.
   */
  lemma FillIdempotent(p: Place)
    ensures FillPlace(FillPlace(p)) == FillPlace(p)
  {
  }

  /** A place whose fields are all filled in is left alone. */
  lemma FillKeepsComplete(p: Place)
    requires p.fields.groupSicCodeName != "" && p.fields.address != "" && p.fields.city != ""
    ensures FillPlace(p) == p
  {
  }

  /**
   * The main loop over mapquest_result['searchResults']: each place's empty
   * fields are overwritten with their sentinels, in place.
   */
  method SubstituteSentinels(results: array<Place>)
    modifies results
    ensures forall i :: 0 <= i < results.Length ==> results[i] == FillPlace(old(results[i]))
  {
    for i := 0 to results.Length
      invariant forall k :: 0 <= k < i ==> results[k] == FillPlace(old(results[k]))
      invariant forall k :: i <= k < results.Length ==> results[k] == old(results[k])
    {
      var fields := results[i].fields;
      if fields.groupSicCodeName == "" {
        fields := fields.(groupSicCodeName := "No Category");
      }
      if fields.address == "" {
        fields := fields.(address := "No Address");
      }
      if fields.city == "" {
        fields := fields.(city := "No City");
      }
      results[i] := results[i].(fields := fields);
    }
  }
}
