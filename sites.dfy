/**
 * The national-site record (class NationalSite in proj2_nps.py) and the
 * extraction of one record from a site's detail page (the miss branch of
 * get_site_instance). Fetching and HTML parsing are not modelled: a detail page
 * arrives as the strings that BeautifulSoup would hand back for each element.
 */
module Sites {
  import opened Wrappers
  import opened Text
  import opened Web

  /**
   * A national site. Fields are set once, by the constructor, and never changed;
   * each omitted constructor argument takes its "No ..." sentinel.
   */
  datatype NationalSite = NationalSite(
    category: string := "No Category",
    name: string := "No Name",
    address: string := "No Address",
    zipcode: string := "No Zip-Code",
    phone: string := "No Phone Number")

  /** Constructing with no arguments gives the five sentinels. */
  lemma DefaultSite()
    ensures NationalSite() == NationalSite("No Category", "No Name", "No Address", "No Zip-Code", "No Phone Number")
    ensures NationalSite(name := "Isle Royale").category == "No Category"
    ensures NationalSite(name := "Isle Royale").phone == "No Phone Number"
  {
  }

  /**
   * NationalSite.info(): "<name> (<category>): <address> <zipcode>". The phone
   * number is not part of it.
   */
  function Info(site: NationalSite): (r: string)
    ensures |r| == |site.name| + |site.category| + |site.address| + |site.zipcode| + 6
    ensures var n, c, a := |site.name|, |site.category|, |site.address|;
      r[..n] == site.name && r[n..n + 2] == " (" && r[n + 2..n + 2 + c] == site.category &&
      r[n + 2 + c..n + 5 + c] == "): " && r[n + 5 + c..n + 5 + c + a] == site.address &&
      r[n + 5 + c + a] == ' ' && r[n + 6 + c + a..] == site.zipcode
  {
    site.name + " (" + site.category + "): " + site.address + " " + site.zipcode
  }

  /** The phone number has no effect on the info line. */
  lemma InfoIgnoresPhone(site: NationalSite, phone: string)
    ensures Info(site.(phone := phone)) == Info(site)
  {
  }

  /**
   * Two sites with the same category, address and zip code have the same info
   * line exactly when they have the same name.
   */
  lemma InfoDeterminesName(a: NationalSite, b: NationalSite)
    requires a.category == b.category && a.address == b.address && a.zipcode == b.zipcode
    ensures Info(a) == Info(b) <==> a.name == b.name
  {
    if Info(a) == Info(b) {
      assert |a.name| == |b.name|;
      assert a.name == Info(a)[..|a.name|] == Info(b)[..|b.name|] == b.name;
    }
  }

  /**
   * What the parser finds on a detail page: for each element it looks for, the
   * element's text when the element exists and holds a single string, None otherwise.
   */
  datatype DetailPage = DetailPage(
    heroTitle: Option<string>,        // class "Hero-title"
    heroDesignation: Option<string>,  // class "Hero-designation" (optional)
    postalCode: Option<string>,       // class "postal-code"
    addressLocality: Option<string>,  // itemprop "addressLocality"
    region: Option<string>,           // class "region"
    tel: Option<string>)              // class "tel"

  /** The category taken from the designation element, "None" when there is none. */
  function Category(designation: Option<string>): string
  {
    if designation.None? then "None" else Strip(designation.value)
  }

  /**
   * Builds the site record from a detail page. Title, zip code and phone are
   * stripped of surrounding whitespace; the address joins locality and region
   * unstripped. A missing required element raises, reported for the first one
   * looked at in source order.
   */
  function ParseSite(page: DetailPage): (r: Result<NationalSite, RetrievalError>)
    ensures r.Ok? <==>
      page.heroTitle.Some? && page.postalCode.Some? && page.addressLocality.Some? &&
      page.region.Some? && page.tel.Some?
    ensures r.Ok? ==>
      r.value.name == Strip(page.heroTitle.value) &&
      r.value.zipcode == Strip(page.postalCode.value) &&
      r.value.address == page.addressLocality.value + ", " + page.region.value &&
      r.value.phone == Strip(page.tel.value) &&
      (page.heroDesignation.None? ==> r.value.category == "None") &&
      (page.heroDesignation.Some? ==> r.value.category == Strip(page.heroDesignation.value))
    ensures page.heroTitle.None? ==> r == Err(MissingElement("Hero-title"))
  {
    if page.heroTitle.None? then Err(MissingElement("Hero-title"))
    else if page.postalCode.None? then Err(MissingElement("postal-code"))
    else if page.addressLocality.None? then Err(MissingElement("addressLocality"))
    else if page.region.None? then Err(MissingElement("region"))
    else if page.tel.None? then Err(MissingElement("tel"))
    else
      Ok(NationalSite(
        Category(page.heroDesignation),
        Strip(page.heroTitle.value),
        page.addressLocality.value + ", " + page.region.value,
        Strip(page.postalCode.value),
        Strip(page.tel.value)))
  }

  /**
   * A page without a designation gives the category "None", which is not the
   * constructor's own default "No Category".
   */
  lemma MissingDesignationIsNone(page: DetailPage)
    requires page.heroDesignation.None?
    requires ParseSite(page).Ok?
    ensures ParseSite(page).value.category == "None"
    ensures ParseSite(page).value.category != NationalSite().category
  {
  }

  /** The extracted name, zip code and phone have no surrounding whitespace. */
  lemma ParsedFieldsTrimmed(page: DetailPage)
    requires ParseSite(page).Ok?
    ensures Trimmed(ParseSite(page).value.name)
    ensures Trimmed(ParseSite(page).value.zipcode)
    ensures Trimmed(ParseSite(page).value.phone)
  {
  }

  /** Isle Royale: locality and region are joined into the address, the zip code is kept as text. */
  lemma IsleRoyaleExample()
    ensures
      var page := DetailPage(Some("Isle Royale"), None, Some("49931"), Some("Houghton"), Some("MI"), Some("906-482-0984"));
      var r := ParseSite(page);
      r.Ok? && r.value.name == "Isle Royale" && r.value.category == "None" &&
      r.value.address == "Houghton, MI" && r.value.zipcode == "49931"
  {
    assert Trimmed("Isle Royale") && Trimmed("49931");
    StripTrimmed("Isle Royale");
    StripTrimmed("49931");
    assert "Houghton" + ", " + "MI" == "Houghton, MI";
  }

  /** Reads the page the web serves for a URL; no page means the request failed. */
  function FetchSite(page: Option<DetailPage>): (r: Result<NationalSite, RetrievalError>)
    ensures page.None? ==> r == Err(NetworkError)
  {
    if page.None? then Err(NetworkError) else ParseSite(page.value)
  }
}
