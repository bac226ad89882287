/**
 * The place search behind the destination field
 * (src/services/placesService.ts): city suggestions for a typed text and
 * the details of a chosen suggestion, from the Google Places web service
 * when a key is configured, and from a built-in table of fifteen cities
 * otherwise. The web service's answers are given as parameters.
 * Coordinates are kept in units of 1/10000 of a degree.
 */
module Places {
  import opened Wrappers
  import opened Text
  import opened Lists

  const PhotosUrl: string := "https://maps.googleapis.com/maps/api/place/photo"

  datatype Suggestion = Suggestion(placeId: string, description: string, mainText: string, secondaryText: string)

  datatype PlaceDetails = PlaceDetails(
    name: string, city: string, country: string, formattedAddress: string,
    latitude: int, longitude: int, photoUrl: Option<string>)

  datatype MockPlace = MockPlace(city: string, country: string)

  /** The cities offered when the web service cannot be used, in the order the suggestions list them. */
  const MockPlaces: seq<MockPlace> := [
    MockPlace("Paris", "França"),
    MockPlace("Londres", "Reino Unido"),
    MockPlace("Roma", "Itália"),
    MockPlace("Barcelona", "Espanha"),
    MockPlace("Amsterdã", "Holanda"),
    MockPlace("Tóquio", "Japão"),
    MockPlace("Nova York", "Estados Unidos"),
    MockPlace("Rio de Janeiro", "Brasil"),
    MockPlace("São Paulo", "Brasil"),
    MockPlace("Buenos Aires", "Argentina"),
    MockPlace("Lisboa", "Portugal"),
    MockPlace("Dubai", "Emirados Árabes"),
    MockPlace("Bangkok", "Tailândia"),
    MockPlace("Cancún", "México"),
    MockPlace("Praga", "República Tcheca")
  ]

  /** `mock_${n}`. */
  function MockId(n: nat): string {
    "mock_" + NatToString(n)
  }

  /** Different numbers give different mock ids. */
  lemma MockIdInjective(m: nat, n: nat)
    requires MockId(m) == MockId(n)
    ensures m == n
  {
    assert NatToString(m) == MockId(m)[5..];
    NatToStringInjective(m, n);
  }

  /** The city or the country contains the typed text, ignoring case. */
  function MatchesInput(input: string): MockPlace -> bool {
    (p: MockPlace) => Contains(Lower(p.city), Lower(input)) || Contains(Lower(p.country), Lower(input))
  }

  /** The suggestion shown for a table city under a given number. */
  function Suggest(p: MockPlace, n: nat): (s: Suggestion)
    ensures s.placeId == MockId(n) && s.mainText == p.city && s.secondaryText == p.country
    ensures s.description == p.city + ", " + p.country
  {
    Suggestion(MockId(n), p.city + ", " + p.country, p.city, p.country)
  }

  /** The matching places numbered by their position among the matches. */
  function NumberedByMatch(places: seq<MockPlace>, input: string): (r: seq<Suggestion>)
    ensures |r| == |Filter(places, MatchesInput(input))|
    ensures forall i :: 0 <= i < |r| ==> r[i] == Suggest(Filter(places, MatchesInput(input))[i], i)
  {
    var filtered := Filter(places, MatchesInput(input));
    seq(|filtered|, i requires 0 <= i < |filtered| => Suggest(filtered[i], i))
  }

  /** The positions of the matching places, in order. */
  function MatchingIndices(places: seq<MockPlace>, input: string): (ix: seq<int>)
    ensures forall j :: 0 <= j < |ix| ==> 0 <= ix[j] < |places| && MatchesInput(input)(places[ix[j]])
  {
    Filter(seq(|places|, k => k), InTable(places, input))
  }

  function InTable(places: seq<MockPlace>, input: string): int -> bool {
    (k: int) => 0 <= k < |places| && MatchesInput(input)(places[k])
  }

  /** The matching places numbered by their position in the table. */
  function NumberedByTable(places: seq<MockPlace>, input: string): (r: seq<Suggestion>)
    ensures |r| == |MatchingIndices(places, input)|
    ensures forall j :: 0 <= j < |r| ==>
      var k := MatchingIndices(places, input)[j]; r[j] == Suggest(places[k], k) && MatchesInput(input)(places[k])
  {
    var ix := MatchingIndices(places, input);
    seq(|ix|, j requires 0 <= j < |ix| => Suggest(places[ix[j]], ix[j]))
  }

  /**
   * `getMockSuggestions` as written: the matching cities are numbered by
   * their position among the matches, not by their place in the table.
   */
  function MockSuggestionsAsWritten(input: string): (r: seq<Suggestion>)
    ensures r == NumberedByMatch(MockPlaces, input)
    ensures forall i :: 0 <= i < |r| ==> r[i].placeId == MockId(i)
  {
    NumberedByMatch(MockPlaces, input)
  }

  /** `getMockSuggestions` with each city numbered by its place in the table, the number the details table uses. */
  function MockSuggestions(input: string): (r: seq<Suggestion>)
    ensures |r| == |MatchingIndices(MockPlaces, input)|
    ensures forall j :: 0 <= j < |r| ==>
      var k := MatchingIndices(MockPlaces, input)[j];
      0 <= k < |MockPlaces| && r[j] == Suggest(MockPlaces[k], k) && MatchesInput(input)(MockPlaces[k])
  {
    NumberedByTable(MockPlaces, input)
  }

  const UnknownPlace: PlaceDetails := PlaceDetails("Destino Desconhecido", "Cidade", "País", "Endereço desconhecido", 0, 0, None)

  /** `getMockPlaceDetails`: the three fixed records, and the unknown place for any other id. */
  function MockPlaceDetails(placeId: string): (d: PlaceDetails)
    ensures d.photoUrl.None?
    ensures placeId !in {MockId(0), MockId(1), MockId(7)} ==> d == UnknownPlace
  {
    if placeId == MockId(0) then PlaceDetails("Paris", "Paris", "França", "Paris, França", 488566, 23522, None)
    else if placeId == MockId(1) then PlaceDetails("Londres", "Londres", "Reino Unido", "Londres, Reino Unido", 515074, -1278, None)
    else if placeId == MockId(7) then
      PlaceDetails("Rio de Janeiro", "Rio de Janeiro", "Brasil", "Rio de Janeiro - RJ, Brasil", -229068, -431729, None)
    else UnknownPlace
  }

  /** A character missing from `s` in both cases is missing from `s.toLowerCase()`. */
  lemma AbsentFromLower(s: string, lower: char, upper: char)
    requires 'a' <= lower <= 'z' && upper as int == lower as int - 32
    requires lower !in s && upper !in s
    ensures lower !in Lower(s)
  {
    forall i | 0 <= i < |s| ensures Lower(s)[i] != lower {
      assert s[i] in s;
    }
  }

  /** A text that lacks one of the characters of `sub` does not contain `sub`. */
  lemma MissingCharNotContained(s: string, sub: string, k: int)
    requires 0 <= k < |sub| && sub[k] !in s
    ensures !Contains(s, sub)
  {
    forall i | 0 <= i <= |s| - |sub| ensures !OccursAt(s, sub, i) {
      assert s[i + k] in s;
    }
  }

  /** Paris matches nothing that has an `l`: neither `Paris` nor `França` has one. */
  lemma ParisMissesLondres()
    ensures !MatchesInput("londres")(MockPlace("Paris", "França"))
  {
    assert Lower("londres") == "londres";
    AbsentFromLower("Paris", 'l', 'L');
    AbsentFromLower("França", 'l', 'L');
    MissingCharNotContained(Lower("Paris"), "londres", 0);
    MissingCharNotContained(Lower("França"), "londres", 0);
  }

  /** London matches `londres` through its own name. */
  lemma LondonMatchesLondres()
    ensures MatchesInput("londres")(MockPlace("Londres", "Reino Unido"))
  {
    assert Lower("londres") == "londres";
    assert Lower("Londres") == "londres";
    assert OccursAt(Lower("Londres"), "londres", 0);
  }

  /**
   * Typing `londres` without a key: as written, London is offered as
   * `mock_0`, the first match, and `mock_0` resolves to Paris.
   */
  lemma AsWrittenLondonResolvesToParis()
    ensures |MockSuggestionsAsWritten("londres")| >= 1
    ensures MockSuggestionsAsWritten("londres")[0] == Suggest(MockPlace("Londres", "Reino Unido"), 0)
    ensures MockSuggestionsAsWritten("londres")[0].mainText == "Londres"
    ensures MockSuggestionsAsWritten("londres")[0].placeId == MockId(0)
    ensures MockPlaceDetails(MockSuggestionsAsWritten("londres")[0].placeId).city == "Paris"
  {
    var p := MatchesInput("londres");
    var paris := MockPlace("Paris", "França");
    var london := MockPlace("Londres", "Reino Unido");
    var rest := MockPlaces[2..];
    assert MockPlaces == [paris] + ([london] + rest);
    ParisMissesLondres();
    LondonMatchesLondres();
    FilterCons(paris, [london] + rest, p);
    FilterCons(london, rest, p);
    assert Filter(MockPlaces, p)[0] == london;
  }

  /** With table numbering, London is offered as `mock_1`, which resolves to London. */
  lemma LondonResolvesToLondon()
    ensures |MockSuggestions("londres")| >= 1
    ensures MockSuggestions("londres")[0].mainText == "Londres"
    ensures MockPlaceDetails(MockSuggestions("londres")[0].placeId).city == "Londres"
  {
    AsWrittenLondonResolvesToParis();
    SameCitiesOffered(MockPlaces, "londres");
    var first := MockSuggestions("londres")[0];
    var k := MatchingIndices(MockPlaces, "londres")[0];
    assert first == Suggest(MockPlaces[k], k);
    assert first.description == "Londres" + ", " + "Reino Unido";
    TableIndexOfLondon(k, first.description);
    assert first.placeId == MockId(1);
    MockIdsDistinct();
  }

  lemma MockIdsDistinct()
    ensures MockId(1) != MockId(0)
  {
    assert NatToString(1) == "1" && NatToString(0) == "0";
    assert MockId(1)[5] != MockId(0)[5];
  }

  /** London is the only city of the table described as `Londres, Reino Unido`, at position 1. */
  lemma TableIndexOfLondon(k: int, description: string)
    requires 0 <= k < |MockPlaces| && description == Suggest(MockPlaces[k], k).description
    requires description == "Londres" + ", " + "Reino Unido"
    ensures k == 1
  {
    assert description[0] == MockPlaces[k].city[0] && description[1] == MockPlaces[k].city[1];
  }

  /** A table position with a fixed details record resolves to that position's city and country. */
  lemma TableIdResolves(k: nat)
    requires k < |MockPlaces| && MockPlaceDetails(MockId(k)) != UnknownPlace
    ensures MockPlaceDetails(MockId(k)).city == MockPlaces[k].city
    ensures MockPlaceDetails(MockId(k)).country == MockPlaces[k].country
  {
    if MockId(k) == MockId(0) {
      MockIdInjective(k, 0);
    } else if MockId(k) == MockId(1) {
      MockIdInjective(k, 1);
    } else {
      MockIdInjective(k, 7);
    }
  }

  /**
   * With table numbering, every suggestion that has a fixed details record
   * resolves to the city and country it showed.
   */
  lemma SuggestionsResolveToTheirCity(input: string, j: int)
    requires 0 <= j < |MockSuggestions(input)|
    requires MockPlaceDetails(MockSuggestions(input)[j].placeId) != UnknownPlace
    ensures MockPlaceDetails(MockSuggestions(input)[j].placeId).city == MockSuggestions(input)[j].mainText
    ensures MockPlaceDetails(MockSuggestions(input)[j].placeId).country == MockSuggestions(input)[j].secondaryText
  {
    var k := MatchingIndices(MockPlaces, input)[j];
    TableIdResolves(k);
  }

  /** Both numberings offer the same places, in the same order. */
  lemma SameCitiesOffered(places: seq<MockPlace>, input: string)
    ensures |NumberedByTable(places, input)| == |NumberedByMatch(places, input)|
    ensures forall j :: 0 <= j < |NumberedByTable(places, input)| ==>
      NumberedByTable(places, input)[j].description == NumberedByMatch(places, input)[j].description
  {
    IndexFilter(places, MatchesInput(input), InTable(places, input), 0);
    assert seq(|places| - 0, i => 0 + i) == seq(|places|, k => k);
    assert places[0..] == places;
  }

  /** Filtering positions and then reading the table is filtering the table. */
  lemma {:induction false} IndexFilter(places: seq<MockPlace>, p: MockPlace -> bool, q: int -> bool, from: nat)
    requires from <= |places|
    requires forall k :: q(k) == (0 <= k < |places| && p(places[k]))
    ensures var ix := Filter(seq(|places| - from, i => from + i), q);
      |ix| == |Filter(places[from..], p)|
      && forall j :: 0 <= j < |ix| ==> 0 <= ix[j] < |places| && places[ix[j]] == Filter(places[from..], p)[j]
    decreases |places| - from
  {
    var ks := seq(|places| - from, i => from + i);
    if from < |places| {
      var h, tail := places[from], places[from + 1..];
      var rest := seq(|places| - (from + 1), i => from + 1 + i);
      IndexFilter(places, p, q, from + 1);
      assert ks == [from] + rest;
      assert places[from..] == [h] + tail;
      FilterCons(from, rest, q);
      FilterCons(h, tail, p);
      if p(h) {
        var ixRest, kept := Filter(rest, q), Filter(tail, p);
        var ix, found := [from] + ixRest, [h] + kept;
        forall j | 0 <= j < |ix|
          ensures 0 <= ix[j] < |places| && places[ix[j]] == found[j]
        {
          if j > 0 {
            assert ix[j] == ixRest[j - 1] && found[j] == kept[j - 1];
          }
        }
      }
    } else {
      assert ks == [];
      assert places[from..] == [];
    }
  }

  /** A component of an address, as the details answer lists it. */
  datatype AddressComponent = AddressComponent(longName: string, types: seq<string>)

  /** The fields of a details answer the client reads; `photos` holds each photo's reference. */
  datatype PlaceResult = PlaceResult(
    name: string, formattedAddress: string, latitude: int, longitude: int,
    components: seq<AddressComponent>, photos: Option<seq<string>>)

  datatype AutocompleteAnswer = PredictionsOk(predictions: seq<Suggestion>) | PredictionsStatus(status: string) | PredictionsThrew
  datatype DetailsAnswer = DetailsOk(result: PlaceResult) | DetailsStatus(status: string) | DetailsThrew

  /** The first element satisfying `p`, as `Array.prototype.find`. */
  function FindFirst(xs: seq<AddressComponent>, p: AddressComponent -> bool): (r: Option<AddressComponent>)
    ensures r.Some? ==> r.value in xs && p(r.value)
    ensures r.Some? ==> exists k :: 0 <= k < |xs| && xs[k] == r.value && forall i :: 0 <= i < k ==> !p(xs[i])
    ensures r.None? <==> forall i :: 0 <= i < |xs| ==> !p(xs[i])
  {
    if xs == [] then None
    else if p(xs[0]) then Some(xs[0])
    else
      var r := FindFirst(xs[1..], p);
      assert forall i :: 1 <= i < |xs| ==> xs[i] == xs[1..][i - 1];
      if r.Some? then
        assert exists k :: 0 <= k < |xs| - 1 && xs[1..][k] == r.value && forall i :: 0 <= i < k ==> !p(xs[1..][i]);
        var k :| 0 <= k < |xs| - 1 && xs[1..][k] == r.value && forall i :: 0 <= i < k ==> !p(xs[1..][i]);
        assert xs[k + 1] == r.value && forall i :: 0 <= i < k + 1 ==> !p(xs[i]);
        r
      else r
  }

  function IsCityComponent(): AddressComponent -> bool {
    (c: AddressComponent) => "locality" in c.types || "administrative_area_level_2" in c.types
  }

  function IsCountryComponent(): AddressComponent -> bool {
    (c: AddressComponent) => "country" in c.types
  }

  /** `a?.long_name || b`. */
  function LongNameOr(c: Option<AddressComponent>, fallback: string): string {
    if c.Some? && c.value.longName != "" then c.value.longName else fallback
  }

  /** The details of a successful answer: city and country from the address components, a photo link only when there is a photo. */
  function DetailsOf(result: PlaceResult, key: string): (d: PlaceDetails)
    ensures d.name == result.name && d.formattedAddress == result.formattedAddress
    ensures d.latitude == result.latitude && d.longitude == result.longitude
    ensures d.city == LongNameOr(FindFirst(result.components, IsCityComponent()), result.name)
    ensures d.country == LongNameOr(FindFirst(result.components, IsCountryComponent()), "")
    ensures d.photoUrl.Some? <==> result.photos.Some? && |result.photos.value| > 0
    ensures d.photoUrl.Some? ==> d.photoUrl.value == PhotosUrl + "?maxwidth=800&photo_reference=" + result.photos.value[0] + "&key=" + key
  {
    var city := FindFirst(result.components, IsCityComponent());
    var country := FindFirst(result.components, IsCountryComponent());
    var photo := if result.photos.Some? && |result.photos.value| > 0
      then Some(PhotosUrl + "?maxwidth=800&photo_reference=" + result.photos.value[0] + "&key=" + key)
      else None;
    PlaceDetails(result.name, LongNameOr(city, result.name), LongNameOr(country, ""), result.formattedAddress,
      result.latitude, result.longitude, photo)
  }

  /** The city falls back to the place's name only when no component is a locality or second-level area with a name. */
  lemma CityFallback(result: PlaceResult, key: string)
    ensures (forall i :: 0 <= i < |result.components| ==> !IsCityComponent()(result.components[i])) ==>
      DetailsOf(result, key).city == result.name
    ensures (forall i :: 0 <= i < |result.components| ==> !IsCountryComponent()(result.components[i])) ==>
      DetailsOf(result, key).country == ""
  {
  }

  /**
   * `searchPlaces(input)`: nothing for fewer than three characters, before
   * any request; without a key, or when the service fails or answers with
   * another status than `OK`, the table's suggestions; otherwise the
   * service's predictions. `key` is the configured key, `""` for none.
   * The table's suggestions are the corrected `MockSuggestions`; the
   * numbering as written is `MockSuggestionsAsWritten`, which offers the
   * same cities in the same order (`SameCitiesOffered`).
   */
  function SearchPlaces(input: string, key: string, answer: AutocompleteAnswer): (r: seq<Suggestion>)
    ensures |input| < 3 ==> r == []
    ensures |input| >= 3 && (key == "" || !answer.PredictionsOk?) ==> r == MockSuggestions(input)
    ensures |input| >= 3 && key != "" && answer.PredictionsOk? ==> r == answer.predictions
  {
    if input == "" || |input| < 3 then []
    else if key == "" then MockSuggestions(input)
    else match answer
      case PredictionsOk(predictions) => predictions
      case PredictionsStatus(_) => MockSuggestions(input)
      case PredictionsThrew => MockSuggestions(input)
  }

  /** `getPlaceDetails(placeId)`: the table's record without a key; no details when the service fails or answers with another status. */
  function GetPlaceDetails(placeId: string, key: string, answer: DetailsAnswer): (r: Option<PlaceDetails>)
    ensures key == "" ==> r == Some(MockPlaceDetails(placeId))
    ensures key != "" ==> (r.Some? <==> answer.DetailsOk?)
    ensures key != "" && answer.DetailsOk? ==> r == Some(DetailsOf(answer.result, key))
  {
    if key == "" then Some(MockPlaceDetails(placeId))
    else match answer
      case DetailsOk(result) => Some(DetailsOf(result, key))
      case DetailsStatus(_) => None
      case DetailsThrew => None
  }
}
