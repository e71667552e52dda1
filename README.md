# Restaurant search core, modelled in Dafny

The program (`final.py`) asks for a postal code or a city and state and a
food category. It lists up to five matching restaurants from a business-search
service, requested sorted by rating (the parameter is sent under the key
`sortby`), and opens the menu link of the one the user picks.
Around the remote calls sits a small core, and this project models it:

- **`check_input`**, the sanitiser applied to the city, state and food category
  typed at the console, and to a menu answer that is not a number
  (module `Sanitizer`, with the Python string built-ins it uses in module `Python`).
- **The memoising lookups** `get_yelp_data`, `get_coords` and `scrape_yelp`
  over the global dictionary `CACHE_DICT` (module `Cache`). The dictionary is the
  `entries` field of class `ResponseCache`. The cache file's content is the
  `persisted` field. Each lookup is a method that changes both fields in place.
  The loops that read a cached value back (the printed numbered listing, the list
  of business pages, the coordinates) are methods in module `Responses`.
- **The cache keys** (module `CacheKeys`): the concatenated search parameters
  and the geocoding request URL.
- **The menu-link fallback** of `scrape_yelp` (`Responses.MenuOrPage`).

The remote services are parameters of the methods:
- `search` maps the search parameters to the decoded response.
- `geocode` maps the geocoding request URL to the decoded response.
- `download` maps a page URL to the page text.
- `menuRegion` maps page text to the `href`s of the links in the page's menu
  region, or to `None` when the page has no such region.

The exceptions the core lets escape (`IndexError`, `KeyError`, `TypeError`,
`AttributeError`, `UnboundLocalError`) are modelled as the `Raised` case of
`Python.Result`, not excluded by preconditions. The "Using Cache" / "Fetching"
messages are the `status` result of each lookup.

Numbers are carried as the text `str()` gives them: the postal code, latitude and
longitude. The core only ever concatenates them into keys or passes them on as
request parameters.

Three behaviours of the code that are easy to misread:
- `get_coords` returns the first location of the **last** geocoding result, not
  of the first one. The loop at `final.py:115-120` overwrites the coordinates on
  every pass.
- The menu fallback tests whether `http` occurs **anywhere** in the first link
  (`in` on strings), not whether the link starts with a scheme.
- A geocoding response with no results makes the code fail at `return` with
  `UnboundLocalError`; the loop itself does not fail.

## Model

| member | source | states |
|---|---|---|
| `Sanitizer.CheckInput` | final.py:93-98 | every character of the result is a lower-case ASCII letter, and the result is never longer than the input |
| `Sanitizer.LettersOnly` | final.py:95 | the regular-expression filter keeps only ASCII letters and never lengthens its input |
| `Sanitizer.LettersOnlyConcat` | final.py:95 | the filter distributes over concatenation |
| `Sanitizer.LettersOnlySubsequence` | final.py:95 | the filter's output is a subsequence of its input |
| `Sanitizer.LettersOnlyKeepsLetters` | final.py:95 | a string of letters passes the filter unchanged |
| `Sanitizer.LettersOnlyMembership` | final.py:95 | a character survives the filter iff it is in the input and is an ASCII letter |
| `Sanitizer.LettersOnlyShrinks` | final.py:95 | the filter keeps the length iff every input character is an ASCII letter |
| `Sanitizer.CheckInputStripIsNoOp` | final.py:95-97 | `strip()` removes nothing: the result is the lower-cased filter output |
| `Sanitizer.CheckInputLowersLetterSubsequence` | final.py:95-96 | the result is the input's ASCII letters, lower-cased, in their original order, and they form a subsequence of the input |
| `Sanitizer.CheckInputLength` | final.py:95-97 | the result is as long as the input iff the input is letters only |
| `Sanitizer.CheckInputMembership` | final.py:95-96 | a character is in the result iff an ASCII letter of the input lower-cases to it |
| `Sanitizer.CheckInputConcat` | final.py:95-97 | sanitising the concatenation of two inputs gives the concatenation of their sanitised forms |
| `Sanitizer.CheckInputFixedPoints` | final.py:93-98 | `check_input(t) == t` iff `t` consists of lower-case letters only |
| `Sanitizer.CheckInputIdempotent` | final.py:93-98 | sanitising a sanitised input changes nothing |
| `Python.LStrip` | final.py:97 | the leading part that `strip()` removes is all white space, and what remains is empty or starts with a non-space |
| `Python.RStrip` | final.py:97 | the trailing part that `strip()` removes is all white space, and what remains is empty or ends with a non-space |
| `Python.Strip` | final.py:97 | `strip()` never lengthens its input, and its result is empty or neither starts nor ends with white space |
| `Python.Lower` | final.py:96 | `lower()` keeps the length, maps each ASCII capital to the small letter 32 code points above it, and leaves every other character alone |
| `Python.StripKeeps` | final.py:97 | `strip()` leaves a string alone when it neither starts nor ends with white space |
| `Python.Index` | final.py:67 | `url_list[choice_input-1]` selects element `choice_input-1`, counts from the end for a negative index (so choice 0 picks the last element), and raises `IndexError` outside `-len..len-1` |
| `Python.Contains` | final.py:85 | a text found in a string is no longer than the string, and the empty text is found in every string |
| `Python.ContainsWitness` | final.py:85 | when the `in` test holds, some window of the string spells the searched text |
| `Python.OccursContains` | final.py:85 | a window of the string that spells the searched text makes the `in` test hold |
| `Python.ContainsIffOccurs` | final.py:85 | the `in` test on strings holds iff some window of the link spells the searched text |
| `Python.ContainsPrefix` | final.py:85 | a string containing a text also contains every prefix of that text |
| `Python.HttpsContainsHttp` | final.py:85 | a link containing `https` also contains `http` |
| `Responses.SearchParamsFor` | final.py:24-28 | the request has the food as its term, limit 5 and sort by rating; it searches by coordinates iff the location is `"NA"`, else by location |
| `Responses.BusinessesIn` | final.py:41-50 | a fresh response with no keys raises `IndexError`; iff its first key is `error`, nothing is to be cached; otherwise a missing `businesses` key raises `KeyError`, and iff it is present that array is what gets cached |
| `Responses.AsBusinesses` | final.py:54-55 | a cached business list is iterated as itself; another cached value gets through the loops iff it is empty, yielding no businesses, and otherwise raises |
| `Responses.AsGeoResults` | final.py:115-116 | a cached results array is iterated as itself; another cached value gets through the loop iff it is empty, yielding no results, and otherwise raises |
| `Responses.CoordsIn` | final.py:115-122 | coordinates come back only from a non-empty cached results array whose last result has a location, and they are that location's `latLng`; any other kind of cached value raises |
| `Responses.ListNames` | final.py:54-58 | the printed listing has one line per cached business, numbered from 1, with its name, in cached order |
| `Responses.ListUrls` | final.py:60-63 | the returned list has one entry per cached business, whose i-th element is the i-th business's `url` |
| `Responses.ListingDetermined` | final.py:54-63 | a cached value determines the printed listing and the returned list completely |
| `Responses.LastCoords` | final.py:115-122 | the result is the first location of the last result. It is `IndexError` if any result has no locations and `UnboundLocalError` if there are no results |
| `Responses.MenuOrPage` | final.py:85-91 | if the first link does not contain `http`, the result is exactly `[url]`; otherwise it is the link list unchanged |
| `Responses.MenuIn` | final.py:78-91 | the menu list is returned iff the cached value is page text and its menu region exists with at least one link. The returned list is never empty, and its first element contains `http` or the list is the business page alone |
| `CacheKeys.SearchKey` | final.py:30 | the search key is as long as its four parts together, starts with the location and ends with the food category |
| `CacheKeys.CoordsUrl` | final.py:102 | the geocoding URL is the fixed prefix with the key, then city, `+`, state, then the fixed suffix: its length, prefix and suffix are stated |
| `CacheKeys.CoordsUrlTail` | final.py:102 | what follows the fixed prefix is the city, `+`, the state and the fixed suffix |
| `CacheKeys.CoordsUrlInjective` | final.py:102 | for cities without `+` (every sanitised city), two geocoding keys are equal iff city and state are equal |
| `CacheKeys.ZipSearchKeyInjective` | final.py:30 | for searches by postal code, two search keys are equal iff the postal codes and food categories are equal |
| `Cache.ResponseCache.constructor` | final.py:167 | the dictionary starts as the mapping loaded from the cache file, and the file holds that mapping |
| `Cache.ResponseCache.SaveCache` | final.py:148-163 | the cache file afterwards holds the whole dictionary |
| `Cache.ResponseCache.GetYelpData` | final.py:19-63 | on a hit nothing changes and the listing comes from the cached businesses. On a miss an `error` response stores nothing and returns `[]`, and a payload adds exactly the one key, which is saved to the file. Existing entries are never changed |
| `Cache.ResponseCache.ScrapeYelp` | final.py:65-91 | a bad selection raises `IndexError` and changes nothing. A miss stores the page text under its URL and saves the file. The result is the menu decision on the cached page, and a returned list is never empty |
| `Cache.ResponseCache.GetCoords` | final.py:100-122 | on a hit nothing changes. On a miss the whole `results` array is stored under the request URL and saved. The coordinates are those of the last result's first location |
| `Cache.RepeatSearch` | final.py:177-222 | the search at line 222 is repeated with the same arguments when the outer loop at line 177 comes round again with the same answers; for two such runs with no other lookup in between, the repeat prints and returns the same as the first run, and it calls the service again only when the first run stored nothing |

## Left out

- The HTTP requests (`final.py:40`, `74`, `109`) are function parameters. Network failures and responses that are not valid JSON are not modelled.
- BeautifulSoup parsing and the CSS-class lookup (`final.py:78-79`) are the `menuRegion` parameter. It yields the `href`s the loop at `final.py:82-83` collects, so that copying loop is folded into it. When the cached value is not page text, the parser's failure is modelled as `TypeError`.
- `open_cache` and `save_cache` (`final.py:125-163`) are reduced to their effect on the file's content (`persisted`). The JSON encoding and file I/O are not modelled, and neither is the swallowed read error.
- The interactive loop (`final.py:166-254`), console output other than the numbered listing and the cache messages, `webbrowser.open` and the API keys in `secrets` are not modelled. The geocoding key is a parameter.
- Business records keep only `name` and `url`, and geocoding locations keep only `latLng`. A record missing one of these keys (a `KeyError` in the source) cannot be expressed.
- `Python.Lower` lower-cases ASCII letters only. In `check_input` its argument has only ASCII letters, so nothing is lost.
- `Cache.RepeatSearch` assumes that the remote service answers the same request the same way.
- The paginated variant of the program, its result table and its charts are not part of this model.
