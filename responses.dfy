/** The shapes of the JSON and markup the core reads, and the loops that turn a
    cached value into what the program prints and returns.  Numbers (latitude,
    longitude, postal code) travel as the text `str()` gives them, since building
    request parameters and cache keys is all the core does with them. */
module Responses {
  import opened Python

  /** One element of the search provider's `businesses` array; the core reads `name` and `url`. */
  datatype Business = Business(name: string, url: string)

  /** The `latLng` object of a geocoding location. */
  datatype LatLng = LatLng(lat: string, lng: string)

  /** One element of a geocoding result's `locations` array. */
  datatype GeoLocation = GeoLocation(latLng: LatLng)

  /** One element of the geocoding provider's `results` array. */
  datatype GeoResult = GeoResult(locations: seq<GeoLocation>)

  /** What `CACHE_DICT` holds under a key: a `businesses` array, a geocoding
      `results` array, or the text of a fetched page. */
  datatype CacheValue =
    | Businesses(businesses: seq<Business>)
    | GeoResults(results: seq<GeoResult>)
    | Markup(text: string)

  /** The query parameters of a business search; `sortBy` is sent under the key `sortby`. */
  datatype SearchParams =
    | ByLocation(term: string, location: string, limit: nat, sortBy: string)
    | ByCoordinates(term: string, latitude: string, longitude: string, limit: nat, sortBy: string)

  /** A decoded search response: its first top-level key (`None` for an empty
      object) and the value under `businesses`, if that key is present. */
  datatype SearchResponse = SearchResponse(firstKey: Option<string>, businesses: Option<seq<Business>>)

  /** A decoded geocoding response: the value under `results`, if present. */
  datatype GeoResponse = GeoResponse(results: Option<seq<GeoResult>>)

  /** The `params` dictionary of `get_yelp_data`: the caller's sentinel `"NA"`
      for the location selects a search by coordinates. */
  function SearchParamsFor(location: string, latitude: string, longitude: string, foodInput: string): (p: SearchParams)
    ensures p.term == foodInput && p.limit == 5 && p.sortBy == "rating"
    ensures p.ByCoordinates? <==> location == "NA"
    ensures p.ByCoordinates? ==> p.latitude == latitude && p.longitude == longitude
    ensures p.ByLocation? ==> p.location == location
  {
    if location == "NA" then ByCoordinates(foodInput, latitude, longitude, 5, "rating")
    else ByLocation(foodInput, location, 5, "rating")
  }

  /** What `get_yelp_data` makes of a fresh response: `None` when its first key
      is `"error"` (nothing is cached, an empty list is returned), otherwise the
      `businesses` array to cache. */
  function BusinessesIn(response: SearchResponse): (r: Result<Option<seq<Business>>>)
    ensures r == Raised(IndexError) <==> response.firstKey.None?
    ensures r == Ok(None) <==> response.firstKey == Some("error")
    ensures r == Raised(KeyError) <==>
      response.firstKey.Some? && response.firstKey != Some("error") && response.businesses.None?
    ensures r.Ok? && r.value.Some? <==>
      response.firstKey.Some? && response.firstKey != Some("error") && response.businesses.Some?
    ensures r.Ok? && r.value.Some? ==> r.value.value == response.businesses.value
  {
    match response.firstKey
    case None => Raised(IndexError)
    case Some(k) =>
      if k == "error" then Ok(None)
      else match response.businesses
        case None => Raised(KeyError)
        case Some(bs) => Ok(Some(bs))
  }

  /** Iterating a cached value as a list of businesses (`i['name']` for each `i`):
      a results array or a page of text gets as far as its first element. */
  function AsBusinesses(v: CacheValue): (r: Result<seq<Business>>)
    ensures v.Businesses? ==> r == Ok(v.businesses)
    ensures r.Ok? <==> v.Businesses? || v == GeoResults([]) || v == Markup("")
    ensures r.Ok? && !v.Businesses? ==> r.value == []
  {
    match v
    case Businesses(bs) => Ok(bs)
    case GeoResults(rs) => if rs == [] then Ok([]) else Raised(KeyError)
    case Markup(t) => if t == "" then Ok([]) else Raised(TypeError)
  }

  /** Iterating a cached value as geocoding results (`j['locations']` for each `j`). */
  function AsGeoResults(v: CacheValue): (r: Result<seq<GeoResult>>)
    ensures v.GeoResults? ==> r == Ok(v.results)
    ensures r.Ok? <==> v.GeoResults? || v == Businesses([]) || v == Markup("")
    ensures r.Ok? && !v.GeoResults? ==> r.value == []
  {
    match v
    case GeoResults(rs) => Ok(rs)
    case Businesses(bs) => if bs == [] then Ok([]) else Raised(KeyError)
    case Markup(t) => if t == "" then Ok([]) else Raised(TypeError)
  }

  /** The numbered listing printed for `bs`: the i-th line is `(i + 1, name)`. */
  ghost predicate NumbersNames(lines: seq<(int, string)>, bs: seq<Business>)
  {
    |lines| == |bs| && forall i :: 0 <= i < |bs| ==> lines[i] == (i + 1, bs[i].name)
  }

  /** `urls` lists the page of every business of `bs`, in the same order. */
  ghost predicate ListsUrls(urls: seq<string>, bs: seq<Business>)
  {
    |urls| == |bs| && forall i :: 0 <= i < |bs| ==> urls[i] == bs[i].url
  }

  /** The first loop of `get_yelp_data`: print each name after a running count. */
  method ListNames(bs: seq<Business>) returns (lines: seq<(int, string)>)
    ensures NumbersNames(lines, bs)
  {
    var count := 1;
    lines := [];
    for k := 0 to |bs|
      invariant count == k + 1
      invariant NumbersNames(lines, bs[..k])
    {
      lines := lines + [(count, bs[k].name)];
      count := count + 1;
    }
    assert bs[..|bs|] == bs;
  }

  /** The second loop of `get_yelp_data`: append each business's `url`. */
  method ListUrls(bs: seq<Business>) returns (urls: seq<string>)
    ensures ListsUrls(urls, bs)
  {
    urls := [];
    for k := 0 to |bs|
      invariant ListsUrls(urls, bs[..k])
    {
      urls := urls + [bs[k].url];
    }
    assert bs[..|bs|] == bs;
  }

  /** Reading a cached value back as a search listing: the printed lines and the
      returned list of pages, or the exception the loops run into. */
  ghost predicate ListingOf(v: CacheValue, lines: seq<(int, string)>, urls: Result<seq<string>>)
  {
    match AsBusinesses(v)
    case Raised(e) => lines == [] && urls == Raised(e)
    case Ok(bs) => urls.Ok? && NumbersNames(lines, bs) && ListsUrls(urls.value, bs)
  }

  /** A cached value determines its listing: a second read prints and returns the same. */
  lemma ListingDetermined(v: CacheValue, lines1: seq<(int, string)>, urls1: Result<seq<string>>,
                          lines2: seq<(int, string)>, urls2: Result<seq<string>>)
    requires ListingOf(v, lines1, urls1) && ListingOf(v, lines2, urls2)
    ensures lines1 == lines2 && urls1 == urls2
  {
    if AsBusinesses(v).Ok? {
      assert lines1 == lines2;
      assert urls1.value == urls2.value;
    }
  }

  /** What the loop of `get_coords` ends with: the first location of the LAST
      result, since each pass overwrites the coordinates; a result without
      locations fails at `loc[0]`, and no results leave the coordinates unbound. */
  ghost function LastResultCoords(results: seq<GeoResult>): Result<LatLng>
  {
    if exists j :: 0 <= j < |results| && results[j].locations == [] then Raised(IndexError)
    else if results == [] then Raised(UnboundLocalError)
    else Ok(results[|results| - 1].locations[0].latLng)
  }

  /** The loop of `get_coords` over the cached results. */
  method LastCoords(results: seq<GeoResult>) returns (coords: Result<LatLng>)
    ensures coords == LastResultCoords(results)
  {
    var bound := false;
    var latLng := LatLng("", "");
    for k := 0 to |results|
      invariant bound <==> k > 0
      invariant forall j :: 0 <= j < k ==> results[j].locations != []
      invariant bound ==> latLng == results[k - 1].locations[0].latLng
    {
      var loc := results[k].locations;
      if loc == [] {
        return Raised(IndexError);
      }
      latLng := loc[0].latLng;
      bound := true;
    }
    if !bound {
      return Raised(UnboundLocalError);
    }
    coords := Ok(latLng);
  }

  /** Reading a cached value back as coordinates. */
  ghost function CoordsIn(v: CacheValue): (r: Result<LatLng>)
    ensures r.Ok? ==>
      && v.GeoResults? && v.results != [] && v.results[|v.results| - 1].locations != []
      && r.value == v.results[|v.results| - 1].locations[0].latLng
    ensures !v.GeoResults? ==> r.Raised?
  {
    match AsGeoResults(v)
    case Raised(e) => Raised(e)
    case Ok(rs) => LastResultCoords(rs)
  }

  /** The fallback of `scrape_yelp`: a first link containing neither `https` nor
      `http` means there is no menu, and the business's own page is used instead.
      Since `https` contains `http`, only the `http` test decides. */
  function MenuOrPage(links: seq<string>, url: string): (menu: seq<string>)
    requires links != []
    ensures Contains(links[0], "http") ==> menu == links
    ensures !Contains(links[0], "http") ==> menu == [url]
  {
    HttpsContainsHttp(links[0]);
    if !Contains(links[0], "https") && !Contains(links[0], "http") then [url] else links
  }

  /** What `scrape_yelp` returns for the page cached under `url`, given the links
      of the menu region of a page (`None` when the page has no such region). */
  function MenuIn(v: CacheValue, url: string, menuRegion: string -> Option<seq<string>>): (r: Result<seq<string>>)
    ensures r.Ok? ==> r.value != [] && (r.value == [url] || Contains(r.value[0], "http"))
    ensures r.Ok? <==> v.Markup? && menuRegion(v.text).Some? && menuRegion(v.text).value != []
  {
    match v
    case Markup(t) =>
      (match menuRegion(t)
       case None => Raised(AttributeError)
       case Some(links) => if links == [] then Raised(IndexError) else Ok(MenuOrPage(links, url)))
    case _ => Raised(TypeError)
  }
}
