/** The keys under which responses are cached: the concatenated search
    parameters of `get_yelp_data` and the request URL of `get_coords`
    (the page URL itself serves as the key in `scrape_yelp`). */
module CacheKeys {

  /** `str(location) + str(latitude) + str(longitude) + str(food_input)`. */
  function SearchKey(location: string, latitude: string, longitude: string, foodInput: string): (key: string)
    ensures |key| == |location| + |latitude| + |longitude| + |foodInput|
    ensures key[..|location|] == location
    ensures key[|key| - |foodInput|..] == foodInput
  {
    location + latitude + longitude + foodInput
  }

  /** The geocoding request URL for a city and state. */
  function CoordsUrl(apiKey: string, city: string, state: string): (url: string)
    ensures |url| == |CoordsUrlPrefix(apiKey)| + |city| + 1 + |state| + |COORDS_URL_SUFFIX|
    ensures url[..|CoordsUrlPrefix(apiKey)|] == CoordsUrlPrefix(apiKey)
    ensures url[|url| - |COORDS_URL_SUFFIX|..] == COORDS_URL_SUFFIX
  {
    CoordsUrlPrefix(apiKey) + city + "+" + state + COORDS_URL_SUFFIX
  }

  /** The part of the geocoding request URL before the location. */
  function CoordsUrlPrefix(apiKey: string): string
  {
    "https://www.mapquestapi.com/geocoding/v1/address?key=" + apiKey + "&inFormat=kvp&outFormat=json&location="
  }

  const COORDS_URL_SUFFIX := "&thumbMaps=false"

  /** The text `str()` gives an integer: an optional minus sign, then digits. */
  predicate IsIntText(z: string)
  {
    && z != [] && (z[0] == '-' ==> |z| > 1)
    && forall i :: 0 <= i < |z| ==> '0' <= z[i] <= '9' || (i == 0 && z[i] == '-')
  }

  /** Two concatenations agree on where the first `m` falls when neither left
      part contains `m` and both right parts start with it. */
  lemma {:induction false} SplitAtMarker(a: string, b: string, x: string, y: string, m: char)
    requires m !in a && m !in x
    requires b != [] && b[0] == m && y != [] && y[0] == m
    requires a + b == x + y
    ensures a == x && b == y
    decreases |a|
  {
    assert (a + b)[0] == if a == [] then b[0] else a[0];
    assert (x + y)[0] == if x == [] then y[0] else x[0];
    if a == [] {
      assert x == [];
      assert a + b == b && x + y == y;
    } else {
      assert a[1..] + b == (a + b)[1..] == (x + y)[1..] == x[1..] + y;
      SplitAtMarker(a[1..], b, x[1..], y, m);
      assert a == [a[0]] + a[1..] && x == [x[0]] + x[1..];
    }
  }

  /** What follows the fixed prefix of a geocoding URL. */
  lemma CoordsUrlTail(apiKey: string, city: string, state: string)
    ensures CoordsUrl(apiKey, city, state)[|CoordsUrlPrefix(apiKey)|..] == city + ("+" + state + COORDS_URL_SUFFIX)
  {
    var prefix, rest := CoordsUrlPrefix(apiKey), "+" + state + COORDS_URL_SUFFIX;
    assert CoordsUrl(apiKey, city, state) == prefix + city + rest;
    assert (prefix + city + rest)[|prefix|..] == city + rest;
  }

  /** Sanitised cities contain no `+`, so distinct city/state pairs never share a
      geocoding cache entry (and equal ones always do). */
  lemma CoordsUrlInjective(apiKey: string, city1: string, state1: string, city2: string, state2: string)
    requires '+' !in city1 && '+' !in city2
    ensures CoordsUrl(apiKey, city1, state1) == CoordsUrl(apiKey, city2, state2) <==> city1 == city2 && state1 == state2
  {
    if CoordsUrl(apiKey, city1, state1) == CoordsUrl(apiKey, city2, state2) {
      var rest1 := "+" + state1 + COORDS_URL_SUFFIX;
      var rest2 := "+" + state2 + COORDS_URL_SUFFIX;
      CoordsUrlTail(apiKey, city1, state1);
      CoordsUrlTail(apiKey, city2, state2);
      SplitAtMarker(city1, rest1, city2, rest2, '+');
      assert state1 == rest1[1..|rest1| - |COORDS_URL_SUFFIX|];
      assert state2 == rest2[1..|rest2| - |COORDS_URL_SUFFIX|];
    }
  }

  /** Searches by postal code: the key `<zip>NANA<food>` tells both the postal
      code and the food category apart. */
  lemma ZipSearchKeyInjective(zip1: string, food1: string, zip2: string, food2: string)
    requires IsIntText(zip1) && IsIntText(zip2)
    ensures SearchKey(zip1, "NA", "NA", food1) == SearchKey(zip2, "NA", "NA", food2) <==> zip1 == zip2 && food1 == food2
  {
    if SearchKey(zip1, "NA", "NA", food1) == SearchKey(zip2, "NA", "NA", food2) {
      var na := "NA";
      var rest1, rest2 := na + na + food1, na + na + food2;
      assert SearchKey(zip1, na, na, food1) == zip1 + rest1;
      assert SearchKey(zip2, na, na, food2) == zip2 + rest2;
      assert rest1[0] == rest2[0] == na[0] == 'N';
      assert 'N' !in zip1 && 'N' !in zip2;
      SplitAtMarker(zip1, rest1, zip2, rest2, 'N');
      assert food1 == rest1[4..] && food2 == rest2[4..];
    }
  }
}
