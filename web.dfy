/**
 * What every retrieval from the parks website and the places-search API
 * shares: the origin that relative links are resolved against, and the ways a
 * retrieval can raise.
 */
module Web {
  /** Origin that every relative link on the parks website is prefixed with. */
  const BaseUrl: string := "https://www.nps.gov"

  /**
   * Why a retrieval raised: the request for a detail page failed, a required
   * element of the page is missing, a state link has no text, or the places
   * request failed or its answer did not decode.
   */
  datatype RetrievalError = NetworkError | MissingElement(selector: string) | LinkWithoutText | PlacesApiError
}
