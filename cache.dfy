/** The memoising lookups of the program around its global cache dictionary
    `CACHE_DICT`.  Each lookup builds a key, answers from the dictionary when the
    key is present, and otherwise calls the remote service, stores what it got
    under the key and rewrites the cache file.  The remote services are function
    parameters: `search` (business search), `geocode` (geocoding request URL to
    decoded response), `download` (page URL to page text) and `menuRegion` (page
    text to the links of its menu region, `None` when the region is missing). */
module Cache {
  import opened Python
  import opened Responses
  import opened CacheKeys

  /** Whether a lookup answered from the dictionary ("Using Cache") or called the
      remote service ("Fetching"). */
  datatype CacheStatus = UsedCache | Fetched

  /** `m1` keeps every entry of `m0` unchanged: entries are never updated or deleted. */
  ghost predicate Extends(m0: map<string, CacheValue>, m1: map<string, CacheValue>)
  {
    m0.Keys <= m1.Keys && forall k :: k in m0 ==> m1[k] == m0[k]
  }

  class ResponseCache {
    /** `CACHE_DICT`. */
    var entries: map<string, CacheValue>
    /** The mapping the cache file holds: what `save_cache` last wrote, or what was loaded. */
    var persisted: map<string, CacheValue>

    /** `CACHE_DICT = open_cache()`, given the mapping read from the cache file
        (the empty mapping when the file is absent or unreadable). */
    constructor (loaded: map<string, CacheValue>)
      ensures entries == loaded && persisted == loaded
    {
      entries := loaded;
      persisted := loaded;
    }

    /** `save_cache(CACHE_DICT)`: the file is rewritten with the whole dictionary. */
    method SaveCache()
      modifies this`persisted
      ensures persisted == entries
    {
      persisted := entries;
    }

    /** `get_yelp_data(location, latitude, longitude, food_input)`. */
    method GetYelpData(location: string, latitude: string, longitude: string, foodInput: string,
                       search: SearchParams -> SearchResponse)
      returns (status: CacheStatus, lines: seq<(int, string)>, urls: Result<seq<string>>)
      modifies this
      ensures Extends(old(entries), entries)
      ensures status == if SearchKey(location, latitude, longitude, foodInput) in old(entries) then UsedCache else Fetched
      // Hit: nothing is fetched or stored; the listing is read from the cached value.
      ensures SearchKey(location, latitude, longitude, foodInput) in old(entries) ==>
        && entries == old(entries) && persisted == old(persisted)
        && ListingOf(old(entries)[SearchKey(location, latitude, longitude, foodInput)], lines, urls)
      // Miss: one request; an error response stores nothing and yields the empty
      // list, a payload adds exactly one entry and is saved to the file.
      ensures SearchKey(location, latitude, longitude, foodInput) !in old(entries) ==>
        match BusinessesIn(search(SearchParamsFor(location, latitude, longitude, foodInput)))
        case Raised(e) =>
          entries == old(entries) && persisted == old(persisted) && lines == [] && urls == Raised(e)
        case Ok(None) =>
          entries == old(entries) && persisted == old(persisted) && lines == [] && urls == Ok([])
        case Ok(Some(bs)) =>
          && entries == old(entries)[SearchKey(location, latitude, longitude, foodInput) := Businesses(bs)]
          && persisted == entries
          && urls.Ok? && NumbersNames(lines, bs) && ListsUrls(urls.value, bs)
    {
      var params := SearchParamsFor(location, latitude, longitude, foodInput);
      var key := SearchKey(location, latitude, longitude, foodInput);
      lines := [];
      if key in entries {
        status := UsedCache;
      } else {
        status := Fetched;
        var response := search(params);
        match BusinessesIn(response) {
          case Raised(e) =>
            urls := Raised(e);
            return;
          case Ok(None) =>
            urls := Ok([]);
            return;
          case Ok(Some(bs)) =>
            entries := entries[key := Businesses(bs)];
            SaveCache();
        }
      }
      match AsBusinesses(entries[key]) {
        case Raised(e) =>
          urls := Raised(e);
        case Ok(bs) =>
          lines := ListNames(bs);
          var pages := ListUrls(bs);
          urls := Ok(pages);
      }
    }

    /** `scrape_yelp(url_list, choice_input)`. */
    method ScrapeYelp(urlList: seq<string>, choiceInput: int,
                      download: string -> string, menuRegion: string -> Option<seq<string>>)
      returns (status: Option<CacheStatus>, menu: Result<seq<string>>)
      modifies this
      ensures Extends(old(entries), entries)
      // `url_list[choice_input - 1]` fails before the cache is consulted.
      ensures Index(urlList, choiceInput - 1).Raised? ==>
        status == None && menu == Raised(IndexError) && entries == old(entries) && persisted == old(persisted)
      ensures Index(urlList, choiceInput - 1).Ok? ==>
        var url := Index(urlList, choiceInput - 1).value;
        && status == Some(if url in old(entries) then UsedCache else Fetched)
        && (url in old(entries) ==> entries == old(entries) && persisted == old(persisted))
        && (url !in old(entries) ==> entries == old(entries)[url := Markup(download(url))] && persisted == entries)
        && menu == MenuIn(entries[url], url, menuRegion)
      // The caller opens `menu[0]`: an absolute link of the menu region, or the business page itself.
      ensures menu.Ok? ==> menu.value != []
      ensures menu.Ok? && !Contains(menu.value[0], "http") ==> menu.value == [Index(urlList, choiceInput - 1).value]
    {
      var selected := Index(urlList, choiceInput - 1);
      if selected.Raised? {
        return None, Raised(IndexError);
      }
      var url := selected.value;
      if url in entries {
        status := Some(UsedCache);
      } else {
        status := Some(Fetched);
        entries := entries[url := Markup(download(url))];
        SaveCache();
      }
      menu := MenuIn(entries[url], url, menuRegion);
    }

    /** `get_coords(city, state)`. */
    method GetCoords(city: string, state: string, apiKey: string, geocode: string -> GeoResponse)
      returns (status: CacheStatus, coords: Result<LatLng>)
      modifies this
      ensures Extends(old(entries), entries)
      ensures status == if CoordsUrl(apiKey, city, state) in old(entries) then UsedCache else Fetched
      ensures CoordsUrl(apiKey, city, state) in old(entries) ==>
        && entries == old(entries) && persisted == old(persisted)
        && coords == CoordsIn(old(entries)[CoordsUrl(apiKey, city, state)])
      // Miss: the whole `results` array is stored, whatever its length.
      ensures CoordsUrl(apiKey, city, state) !in old(entries) ==>
        match geocode(CoordsUrl(apiKey, city, state)).results
        case None =>
          entries == old(entries) && persisted == old(persisted) && coords == Raised(KeyError)
        case Some(rs) =>
          && entries == old(entries)[CoordsUrl(apiKey, city, state) := GeoResults(rs)]
          && persisted == entries
          && coords == LastResultCoords(rs)
    {
      var url := CoordsUrl(apiKey, city, state);
      if url in entries {
        status := UsedCache;
      } else {
        status := Fetched;
        var response := geocode(url);
        if response.results.None? {
          return status, Raised(KeyError);
        }
        entries := entries[url := GeoResults(response.results.value)];
        SaveCache();
      }
      match AsGeoResults(entries[url]) {
        case Raised(e) =>
          coords := Raised(e);
        case Ok(rs) =>
          coords := LastCoords(rs);
      }
    }
  }

  /** Running the same search twice in a row, as the outer loop of the program does
      when it is given the same answers again: the second run prints and returns
      exactly what the first did, and it calls the service again only when the
      first run stored nothing. */
  method RepeatSearch(cache: ResponseCache, location: string, latitude: string, longitude: string,
                      foodInput: string, search: SearchParams -> SearchResponse)
    returns (first: CacheStatus, lines1: seq<(int, string)>, urls1: Result<seq<string>>,
             second: CacheStatus, lines2: seq<(int, string)>, urls2: Result<seq<string>>)
    modifies cache
    ensures lines2 == lines1 && urls2 == urls1
    ensures second == UsedCache || (first == Fetched && cache.entries == old(cache.entries))
  {
    first, lines1, urls1 := cache.GetYelpData(location, latitude, longitude, foodInput, search);
    second, lines2, urls2 := cache.GetYelpData(location, latitude, longitude, foodInput, search);
    var key := SearchKey(location, latitude, longitude, foodInput);
    if key in cache.entries {
      ListingDetermined(cache.entries[key], lines1, urls1, lines2, urls2);
    }
  }
}
