/** The place search over the map: a fixed list of four places filtered by a
    case-insensitive substring match, with the query, results and searching flag it keeps. */
module MapSearchBar {
  import opened Common
  import opened Text

  datatype Place = Place(id: string, name: string, coordinate: Coordinate)

  /** The places the search draws on. */
  const Places: seq<Place> := [
    Place("1", "Barangay 1, Manila", Coordinate(14.5995, 120.9842)),
    Place("2", "Barangay 2, Manila", Coordinate(14.6000, 120.9850)),
    Place("3", "Barangay 3, Manila", Coordinate(14.5980, 120.9830)),
    Place("4", "Manila Bay", Coordinate(14.5970, 120.9820))
  ]

  /** A place matches when its lower-cased name contains the lower-cased query. */
  predicate Matches(query: string, p: Place) {
    Includes(Lower(p.name), Lower(query))
  }

  /** A search over a list of places: exactly the matching places, in the list's order. */
  function Search(places: seq<Place>, query: string): (r: seq<Place>)
    ensures |r| <= |places|
    ensures forall i :: 0 <= i < |r| ==> r[i] in places && Matches(query, r[i])
    ensures forall i :: 0 <= i < |places| && Matches(query, places[i]) ==> places[i] in r
  {
    Filter(places, p => Matches(query, p))
  }

  /** The results of a search: `Search` over the fixed places. */
  function SearchResults(query: string): (r: seq<Place>)
    ensures |r| <= |Places|
    ensures forall i :: 0 <= i < |r| ==> r[i] in Places && Matches(query, r[i])
    ensures forall i :: 0 <= i < |Places| && Matches(query, Places[i]) ==> Places[i] in r
  {
    Search(Places, query)
  }

  /** An empty query matches every place. */
  lemma EmptyQueryFindsAll()
    ensures SearchResults("") == Places
  {
    forall i | 0 <= i < |Places| ensures Matches("", Places[i]) {
      IncludesEmpty(Lower(Places[i].name));
    }
    FilterAll(Places, p => Matches("", p));
  }

  /** Queries that lower-case alike find the same places. */
  lemma CaseInsensitive(q1: string, q2: string)
    requires Lower(q1) == Lower(q2)
    ensures SearchResults(q1) == SearchResults(q2)
  {
    FilterSame(Places, p => Matches(q1, p), p => Matches(q2, p));
  }

  /** A place as a one-element result when it matches, else nothing. */
  function IfMatches(query: string, p: Place): (r: seq<Place>)
    ensures r == [p] <==> Matches(query, p)
    ensures r == [] <==> !Matches(query, p)
  {
    if Matches(query, p) then [p] else []
  }

  /** The search keeps the places' order: searching a concatenation searches each part and
      keeps them in order. */
  lemma SearchConcat(a: seq<Place>, b: seq<Place>, query: string)
    ensures Search(a + b, query) == Search(a, query) + Search(b, query)
  {
    FilterConcat(a, b, p => Matches(query, p));
  }

  /** Together with `SearchConcat`, this pins the search down: nothing from nothing, and a
      single place is found exactly when it matches. */
  lemma SearchSingle(p: Place, query: string)
    ensures Search([], query) == []
    ensures Search([p], query) == IfMatches(query, p)
  {
  }

  /** So the results list the fixed places in their order, each once if it matches. */
  lemma {:induction false} SearchResultsInOrder(query: string)
    ensures SearchResults(query) ==
            IfMatches(query, Places[0]) + IfMatches(query, Places[1])
            + IfMatches(query, Places[2]) + IfMatches(query, Places[3])
  {
    var p0, p1, p2, p3 := Places[0], Places[1], Places[2], Places[3];
    assert Places == [p0] + [p1] + [p2] + [p3];
    SearchConcat([p0] + [p1] + [p2], [p3], query);
    SearchConcat([p0] + [p1], [p2], query);
    SearchConcat([p0], [p1], query);
    SearchSingle(p0, query);
    SearchSingle(p1, query);
    SearchSingle(p2, query);
    SearchSingle(p3, query);
  }

  /** Lower-casing the query first changes nothing, since the search lower-cases it anyway. */
  lemma LowerCasedQuerySame(query: string)
    ensures SearchResults(Lower(query)) == SearchResults(query)
  {
    LowerIdempotent(query);
    CaseInsensitive(Lower(query), query);
  }

  /** "manila" matches "Manila Bay", though the name starts with a capital. */
  lemma LowerCaseQueryMatchesCapitalised()
    ensures Places[3] in SearchResults("manila")
    ensures Places[3] in SearchResults("MANILA")
  {
    var name := Lower(Places[3].name);
    assert name[..6] == Lower("manila");
    assert StartsWith(name, Lower("manila"));
    assert Lower("MANILA") == Lower("manila");
    CaseInsensitive("MANILA", "manila");
  }

  /** The search bar's state. */
  class SearchBar {
    var searchQuery: string
    var isSearching: bool
    var searchResults: seq<Place>

    constructor ()
      ensures searchQuery == "" && !isSearching && searchResults == []
    {
      searchQuery, isSearching, searchResults := "", false, [];
    }

    /** `handleSearch`: records the query and its results and ends with the searching flag
        cleared; the query is what is handed to `onSearch`. */
    method HandleSearch(query: string) returns (searched: string)
      modifies this
      ensures searchQuery == query && searchResults == SearchResults(query) && !isSearching
      ensures searched == query
    {
      searchQuery := query;
      isSearching := true;
      searchResults := SearchResults(query);
      isSearching := false;
      searched := query;
    }

    /** `handleLocationSelect`: the query becomes the place's name, the results close, and
        the place's coordinate is handed to `onLocationSelect`. */
    method HandleLocationSelect(place: Place) returns (selected: Coordinate)
      modifies this
      ensures searchQuery == place.name && searchResults == [] && !isSearching
      ensures selected == place.coordinate
    {
      searchQuery := place.name;
      searchResults := [];
      isSearching := false;
      selected := place.coordinate;
    }

    /** `clearSearch`: back to the empty query with no results. */
    method ClearSearch()
      modifies this
      ensures searchQuery == "" && searchResults == [] && !isSearching
    {
      searchQuery := "";
      searchResults := [];
      isSearching := false;
    }
  }

  /** Clearing twice leaves the same state as clearing once. */
  method ClearTwice(bar: SearchBar)
    modifies bar
    ensures bar.searchQuery == "" && bar.searchResults == [] && !bar.isSearching
  {
    bar.ClearSearch();
    bar.ClearSearch();
  }

  /** The results panel is shown exactly when there are results. */
  function ResultsPanelShown(results: seq<Place>): (shown: bool)
    ensures shown <==> results != []
  {
    |results| > 0
  }

  /** The clear button is shown exactly when the query is not empty. */
  function ClearButtonShown(query: string): (shown: bool)
    ensures shown <==> query != ""
  {
    |query| > 0
  }

  /** After any search the results panel is shown exactly when some place matches. */
  lemma PanelAfterSearch(query: string)
    ensures ResultsPanelShown(SearchResults(query)) <==>
              exists i :: 0 <= i < |Places| && Matches(query, Places[i])
  {
    var r := SearchResults(query);
    if r != [] {
      assert r[0] in Places;
    }
  }
}
