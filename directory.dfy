/**
 * build_state_url_dict: the map from state name to state page URL, built from
 * the links of the parks website's index page. Fetching the page and finding the
 * links are not modelled: the links arrive as a list of anchors.
 */
module Directory {
  import opened Wrappers
  import opened Text
  import opened Web

  /** A link whose target mentions "state": its text when it is a single string, and its href. */
  datatype Anchor = Anchor(text: Option<string>, href: string)

  /**
   * The dictionary built from the first n anchors: lowered text to the full
   * URL, a later anchor overwriting an earlier one with the same lowered text.
   * An anchor without a single string as text raises.
   */
  function StateUrls(anchors: seq<Anchor>, n: nat): (r: Result<map<string, string>, RetrievalError>)
    requires n <= |anchors|
    ensures r.Ok? ==> |r.value.Keys| <= n
    ensures r.Ok? ==> forall key :: key in r.value ==> BaseUrl <= r.value[key]
    ensures r.Err? ==> r == Err(LinkWithoutText)
  {
    if n == 0 then Ok(map[])
    else
      var before := StateUrls(anchors, n - 1);
      var a := anchors[n - 1];
      if before.Err? then before
      else if a.text.None? then Err(LinkWithoutText)
      else Ok(before.value[Lower(a.text.value) := BaseUrl + a.href])
  }

  /** The loop of build_state_url_dict. */
  method BuildStateUrlDict(anchors: seq<Anchor>) returns (r: Result<map<string, string>, RetrievalError>)
    ensures r == StateUrls(anchors, |anchors|)
  {
    var stateUrls: map<string, string> := map[];
    for i := 0 to |anchors|
      invariant StateUrls(anchors, i) == Ok(stateUrls)
    {
      var currentUrl := anchors[i].href;
      var fullUrl := BaseUrl + currentUrl;
      if anchors[i].text.None? {
        StateUrlsStopsAtError(anchors, i + 1, |anchors|);
        return Err(LinkWithoutText);
      }
      stateUrls := stateUrls[Lower(anchors[i].text.value) := fullUrl];
    }
    r := Ok(stateUrls);
  }

  /** Once an anchor without text is met, the later anchors make no difference. */
  lemma {:induction false} StateUrlsStopsAtError(anchors: seq<Anchor>, n: nat, k: nat)
    requires n <= k <= |anchors|
    requires StateUrls(anchors, n).Err?
    ensures StateUrls(anchors, k) == StateUrls(anchors, n)
    decreases k
  {
    if n < k {
      StateUrlsStopsAtError(anchors, n, k - 1);
    }
  }

  /** The dictionary is built exactly when every anchor has a string as text. */
  lemma {:induction false} StateUrlsOkIff(anchors: seq<Anchor>, n: nat)
    requires n <= |anchors|
    ensures StateUrls(anchors, n).Ok? <==> forall i :: 0 <= i < n ==> anchors[i].text.Some?
  {
    if n > 0 {
      StateUrlsOkIff(anchors, n - 1);
      if StateUrls(anchors, n - 1).Err? {
        var i :| 0 <= i < n - 1 && anchors[i].text.None?;
      }
    }
  }

  /** Every key is the lowered text of some anchor, so none has an upper-case letter. */
  lemma {:induction false} StateUrlsKeys(anchors: seq<Anchor>, n: nat)
    requires n <= |anchors|
    requires StateUrls(anchors, n).Ok?
    ensures forall key :: key in StateUrls(anchors, n).value ==>
      !HasUpper(key) && exists i :: 0 <= i < n && anchors[i].text.Some? && Lower(anchors[i].text.value) == key
  {
    if n > 0 {
      StateUrlsKeys(anchors, n - 1);
      var t := anchors[n - 1].text.value;
      LowerIdempotent(t);
      LowerFixedIff(Lower(t));
    }
  }

  /**
   * Every anchor's lowered text is a key, mapped to the URL of the LAST anchor
   * with that lowered text.
   */
  lemma {:induction false} StateUrlsLastWins(anchors: seq<Anchor>, n: nat, i: nat)
    requires i < n <= |anchors|
    requires StateUrls(anchors, n).Ok?
    requires anchors[i].text.Some?
    requires forall j :: i < j < n && anchors[j].text.Some? ==> Lower(anchors[j].text.value) != Lower(anchors[i].text.value)
    ensures var key := Lower(anchors[i].text.value);
      key in StateUrls(anchors, n).value && StateUrls(anchors, n).value[key] == BaseUrl + anchors[i].href
    decreases n
  {
    StateUrlsOkIff(anchors, n);
    if i < n - 1 {
      StateUrlsLastWins(anchors, n - 1, i);
    }
  }
}
