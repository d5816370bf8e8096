/**
 * The catalog page (public/app.js): request URLs for the movie database,
 * the null-or-results outcome of a fetch, movie cards with their field
 * fallbacks, the movie rows and the hero carousel, and the decisions of the
 * page's initialisation.
 */
module Catalog {
  import opened JsValues

  const API_BASE_URL := "https://api.themoviedb.org/3"
  const IMAGE_BASE_URL := "https://image.tmdb.org/t/p/w500"
  const BACKDROP_BASE_URL := "https://image.tmdb.org/t/p/original"

  const TITLE_PLACEHOLDER := "Movie Title"
  const OVERVIEW_PLACEHOLDER := "No description available."
  const POSTER_PLACEHOLDER := "https://via.placeholder.com/500x750?text=No+Image"
  const BACKDROP_PLACEHOLDER := "https://via.placeholder.com/1920x1080?text=No+Image"

  const TRENDING := "/trending/movie/week"
  const TOP_RATED := "/movie/top_rated"
  const POPULAR := "/movie/popular"
  const FAMILY_ANIMATION := "/discover/movie?with_genres=10751&with_genres=16"

  // ---------------------------------------------------------------------
  // Request URLs
  // ---------------------------------------------------------------------

  /** How often `c` occurs in `s`. */
  function CountChar(c: char, s: string): (n: nat)
    ensures n <= |s|
    ensures n == 0 <==> c !in s
  {
    if s == [] then 0
    else
      assert s == [s[0]] + s[1..];
      (if s[0] == c then 1 else 0) + CountChar(c, s[1..])
  }

  lemma {:induction false} CountCharAppend(c: char, a: string, b: string)
    ensures CountChar(c, a + b) == CountChar(c, a) + CountChar(c, b)
  {
    if a == [] {
      assert a + b == b;
    } else {
      assert (a + b)[0] == a[0];
      assert (a + b)[1..] == a[1..] + b;
      CountCharAppend(c, a[1..], b);
    }
  }

  /** The query separator: '&' when the endpoint already has a query string, else '?'. */
  function Separator(endpoint: string): string {
    if '?' in endpoint then "&" else "?"
  }

  /** The URL fetchData requests for `endpoint` with the API key appended. */
  function RequestUrl(endpoint: string, apiKey: string): (url: string)
    ensures |url| == |API_BASE_URL| + |endpoint| + 9 + |apiKey|
    ensures url[..|API_BASE_URL|] == API_BASE_URL
    ensures url[|API_BASE_URL|..|API_BASE_URL| + |endpoint|] == endpoint
    ensures url[|API_BASE_URL| + |endpoint|] == (if '?' in endpoint then '&' else '?')
    ensures url[|API_BASE_URL| + |endpoint| + 1..|url| - |apiKey|] == "api_key="
    ensures url[|url| - |apiKey|..] == apiKey
  {
    API_BASE_URL + endpoint + Separator(endpoint) + "api_key=" + apiKey
  }

  /**
   * An endpoint with at most one '?' and a key without one give a URL with
   * exactly one '?': the key always lands in a well-formed query string.
   */
  lemma OneQueryMark(endpoint: string, apiKey: string)
    requires CountChar('?', endpoint) <= 1
    requires '?' !in apiKey
    ensures CountChar('?', RequestUrl(endpoint, apiKey)) == 1
  {
    var u2 := API_BASE_URL + endpoint + Separator(endpoint);
    var u3 := u2 + "api_key=";
    assert RequestUrl(endpoint, apiKey) == u3 + apiKey;
    SeparatedMarks(endpoint);
    NoQueryMarkInConstants();
    CountCharAppend('?', u2, "api_key=");
    CountCharAppend('?', u3, apiKey);
  }

  /** Base, endpoint and separator hold exactly one '?' when the endpoint holds at most one. */
  lemma SeparatedMarks(endpoint: string)
    requires CountChar('?', endpoint) <= 1
    ensures CountChar('?', API_BASE_URL + endpoint + Separator(endpoint)) == 1
  {
    var sep := Separator(endpoint);
    var u1 := API_BASE_URL + endpoint;
    NoQueryMarkInConstants();
    CountCharAppend('?', API_BASE_URL, endpoint);
    CountCharAppend('?', u1, sep);
    assert CountChar('?', sep) == (if '?' in endpoint then 0 else 1);
  }

  lemma NoQueryMarkInConstants()
    ensures CountChar('?', API_BASE_URL) == 0 && CountChar('?', "api_key=") == 0
    ensures CountChar('?', "&") == 0 && CountChar('?', "?") == 1
  {
    NoQueryMarkInBase();
    assert '?' !in "api_key=";
  }

  lemma NoQueryMarkInBase()
    ensures '?' !in API_BASE_URL
  {
    assert forall i :: 0 <= i < |API_BASE_URL| ==> API_BASE_URL[i] != '?';
  }

  // ---------------------------------------------------------------------
  // Fetch outcome
  // ---------------------------------------------------------------------

  /** A movie record of a list response; every field but the id may be absent. */
  datatype MovieSummary = MovieSummary(
    id: int,
    title: Option<string>,
    name: Option<string>,
    overview: Option<string>,
    posterPath: Option<string>,
    backdropPath: Option<string>)

  /** A response body: not JSON, or a JSON object whose `results` field may be absent. */
  datatype Body = Malformed | Json(results: Option<seq<MovieSummary>>)

  /** What the network gives back for one request: an exception, or a status and a body. */
  datatype FetchOutcome = NetworkError | Response(status: int, body: Body)

  /** `response.ok`: a status in the range 200-299. */
  predicate Ok(status: int) {
    200 <= status <= 299
  }

  /**
   * fetchData's value for one outcome: null (here None) on a thrown error,
   * a non-ok status or an unparsable body; otherwise the body's `results`
   * field unchanged.
   */
  function FetchResults(outcome: FetchOutcome): (r: Option<seq<MovieSummary>>)
    ensures r.Some? ==> outcome.Response? && Ok(outcome.status) && outcome.body == Json(r)
    ensures outcome.Response? && Ok(outcome.status) && outcome.body.Json? ==> r == outcome.body.results
    ensures outcome.NetworkError? || !Ok(outcome.status) || outcome.body.Malformed? ==> r == None
  {
    match outcome
    case NetworkError => None
    case Response(status, body) =>
      if !Ok(status) then None
      else match body
        case Malformed => None
        case Json(results) => results
  }

  /** fetchData(endpoint) with the key injected and the network as a function from URL to outcome. */
  function FetchData(endpoint: string, apiKey: string, network: string -> FetchOutcome): (r: Option<seq<MovieSummary>>)
    ensures var o := network(RequestUrl(endpoint, apiKey));
      r.Some? <==> o.Response? && Ok(o.status) && o.body.Json? && o.body.results.Some?
    ensures var o := network(RequestUrl(endpoint, apiKey));
      r.Some? ==> o.body == Json(r)
  {
    FetchResults(network(RequestUrl(endpoint, apiKey)))
  }

  // ---------------------------------------------------------------------
  // Cards and field fallbacks
  // ---------------------------------------------------------------------

  /** A card as the row shows it: the link target id and the fallback-resolved fields. */
  datatype Card = Card(id: int, title: string, overview: string, poster: string)

  /** `title || name || "Movie Title"`. */
  function DisplayTitle(m: MovieSummary): (t: string)
    ensures t != ""
    ensures Truthy(m.title) ==> t == m.title.value
    ensures !Truthy(m.title) && Truthy(m.name) ==> t == m.name.value
    ensures !Truthy(m.title) && !Truthy(m.name) ==> t == TITLE_PLACEHOLDER
  {
    Or(m.title, Or(m.name, TITLE_PLACEHOLDER))
  }

  /** `overview || "No description available."`. */
  function DisplayOverview(m: MovieSummary): (o: string)
    ensures o != ""
    ensures Truthy(m.overview) ==> o == m.overview.value
    ensures !Truthy(m.overview) ==> o == OVERVIEW_PLACEHOLDER
  {
    Or(m.overview, OVERVIEW_PLACEHOLDER)
  }

  /** A partial image path resolved verbatim against `base`, or the placeholder when the path is falsy. */
  function ImageUrl(base: string, path: Option<string>, placeholder: string): (url: string)
    ensures Truthy(path) ==> |url| == |base| + |path.value| && url[..|base|] == base && url[|base|..] == path.value
    ensures !Truthy(path) ==> url == placeholder
  {
    if Truthy(path) then base + path.value else placeholder
  }

  /** createMovieCard: every field falls back to a non-empty value. */
  function CreateMovieCard(m: MovieSummary): (c: Card)
    ensures c.id == m.id
    ensures c.title != "" && c.overview != "" && c.poster != ""
    ensures c.title == DisplayTitle(m) && c.overview == DisplayOverview(m)
    ensures c.poster == ImageUrl(IMAGE_BASE_URL, m.posterPath, POSTER_PLACEHOLDER)
  {
    Card(m.id, DisplayTitle(m), DisplayOverview(m), ImageUrl(IMAGE_BASE_URL, m.posterPath, POSTER_PLACEHOLDER))
  }

  /** One card per movie, in input order. */
  function CardsOf(movies: seq<MovieSummary>): (cards: seq<Card>)
    ensures |cards| == |movies|
    ensures forall i :: 0 <= i < |movies| ==> cards[i] == CreateMovieCard(movies[i])
  {
    if movies == [] then []
    else CardsOf(movies[..|movies| - 1]) + [CreateMovieCard(movies[|movies| - 1])]
  }

  // ---------------------------------------------------------------------
  // Rows and carousel
  // ---------------------------------------------------------------------

  /**
   * The row containers after populateMovieRow(containerId, movies): a
   * missing container changes nothing; a present one holds exactly the
   * movies' cards in order, whatever it held before; no other row changes.
   */
  function RowAfter(rows: map<string, seq<Card>>, containerId: string, movies: seq<MovieSummary>): (r: map<string, seq<Card>>)
    ensures r.Keys == rows.Keys
    ensures containerId !in rows ==> r == rows
    ensures containerId in rows ==>
      |r[containerId]| == |movies| && forall i :: 0 <= i < |movies| ==> r[containerId][i] == CreateMovieCard(movies[i])
    ensures forall id :: id in rows && id != containerId ==> r[id] == rows[id]
  {
    if containerId in rows then rows[containerId := CardsOf(movies)] else rows
  }

  /** Populating a row twice with the same movies is the same as once: earlier content never survives. */
  lemma RowIdempotent(rows: map<string, seq<Card>>, containerId: string, movies: seq<MovieSummary>)
    ensures RowAfter(RowAfter(rows, containerId, movies), containerId, movies) == RowAfter(rows, containerId, movies)
  {
  }

  /** An empty list leaves a present container empty. */
  lemma EmptyRow(rows: map<string, seq<Card>>, containerId: string)
    requires containerId in rows
    ensures RowAfter(rows, containerId, [])[containerId] == []
  {
  }

  /** An image element of a carousel slot. */
  datatype Image = Image(src: string, alt: string)

  /**
   * A pre-existing carousel slot. Each child element may be missing; when
   * present the image has a source and alt text and the heading and
   * paragraph have text.
   */
  datatype Slot = Slot(img: Option<Image>, heading: Option<string>, paragraph: Option<string>)

  /** One slot filled from one movie: only the children that exist are written. */
  function FillSlot(s: Slot, m: MovieSummary): (r: Slot)
    ensures r.img.Some? == s.img.Some? && r.heading.Some? == s.heading.Some? && r.paragraph.Some? == s.paragraph.Some?
    ensures s.img.Some? ==> r.img.value == Image(ImageUrl(BACKDROP_BASE_URL, m.backdropPath, BACKDROP_PLACEHOLDER), DisplayTitle(m))
    ensures s.heading.Some? ==> r.heading.value == DisplayTitle(m)
    ensures s.paragraph.Some? ==> r.paragraph.value == DisplayOverview(m)
  {
    var title := DisplayTitle(m);
    Slot(
      if s.img.Some? then Some(Image(ImageUrl(BACKDROP_BASE_URL, m.backdropPath, BACKDROP_PLACEHOLDER), title)) else None,
      if s.heading.Some? then Some(title) else None,
      if s.paragraph.Some? then Some(DisplayOverview(m)) else None)
  }

  /**
   * The carousel after populateCarousel(movies): slot i is filled from
   * movie i for i < min(|movies|, |slots|); further slots are untouched.
   */
  function FillSlots(slots: seq<Slot>, movies: seq<MovieSummary>): (r: seq<Slot>)
    ensures |r| == |slots|
    ensures forall i :: 0 <= i < |slots| && i < |movies| ==> r[i] == FillSlot(slots[i], movies[i])
    ensures forall i :: |movies| <= i < |slots| ==> r[i] == slots[i]
    decreases |slots|
  {
    if slots == [] then []
    else if movies == [] then slots
    else [FillSlot(slots[0], movies[0])] + FillSlots(slots[1..], movies[1..])
  }

  /** Rows to populate only when the section's fetch result is present. */
  function RowIfPresent(rows: map<string, seq<Card>>, containerId: string, result: Option<seq<MovieSummary>>): (r: map<string, seq<Card>>)
    ensures r.Keys == rows.Keys
    ensures result.None? || containerId !in rows ==> r == rows
    ensures result.Some? && containerId in rows ==>
      |r[containerId]| == |result.value|
      && forall i :: 0 <= i < |result.value| ==> r[containerId][i] == CreateMovieCard(result.value[i])
    ensures forall id :: id in rows && id != containerId ==> r[id] == rows[id]
  {
    if result.Some? then RowAfter(rows, containerId, result.value) else rows
  }

  /** The page's dynamic content: the movie rows by element id, and the carousel slots in page order. */
  class HomePage {
    var rows: map<string, seq<Card>>
    var slots: seq<Slot>

    constructor (rows: map<string, seq<Card>>, slots: seq<Slot>)
      ensures this.rows == rows && this.slots == slots
    {
      this.rows := rows;
      this.slots := slots;
    }

    /** populateMovieRow: clear the container, then append one card per movie. */
    method PopulateMovieRow(containerId: string, movies: seq<MovieSummary>)
      modifies this
      ensures rows == RowAfter(old(rows), containerId, movies)
      ensures slots == old(slots)
    {
      if containerId !in rows {
        return;
      }
      rows := rows[containerId := []];
      var i := 0;
      while i < |movies|
        invariant 0 <= i <= |movies|
        invariant rows == old(rows)[containerId := CardsOf(movies[..i])]
        invariant slots == old(slots)
      {
        assert movies[..i + 1][..i] == movies[..i];
        rows := rows[containerId := rows[containerId] + [CreateMovieCard(movies[i])]];
        i := i + 1;
      }
      assert movies[..i] == movies;
    }

    /** populateCarousel: fill each existing slot in place from the movie at the same position, if any. */
    method PopulateCarousel(movies: seq<MovieSummary>)
      modifies this
      ensures slots == FillSlots(old(slots), movies)
      ensures rows == old(rows)
    {
      var carouselMovies := if |movies| <= |slots| then movies else movies[..|slots|];
      var index := 0;
      while index < |slots|
        invariant 0 <= index <= |slots| == |old(slots)|
        invariant forall j :: 0 <= j < index && j < |movies| ==> slots[j] == FillSlot(old(slots)[j], movies[j])
        invariant forall j :: 0 <= j < index && |movies| <= j ==> slots[j] == old(slots)[j]
        invariant forall j :: index <= j < |slots| ==> slots[j] == old(slots)[j]
        invariant rows == old(rows)
      {
        if index < |carouselMovies| {
          slots := slots[index := FillSlot(slots[index], carouselMovies[index])];
        }
        index := index + 1;
      }
    }

    /**
     * initializePage once the key is loaded and the four requests have
     * settled: halt on a falsy key; otherwise populate each section only
     * when its own fetch result is present.
     */
    method InitializePage(apiKey: Option<string>, network: string -> FetchOutcome)
      modifies this
      ensures !Truthy(apiKey) ==> rows == old(rows) && slots == old(slots)
      ensures Truthy(apiKey) ==>
        var trending := FetchData(TRENDING, apiKey.value, network);
        slots == (if trending.Some? then FillSlots(old(slots), trending.value) else old(slots))
      ensures Truthy(apiKey) ==>
        rows == RowIfPresent(
                  RowIfPresent(
                    RowIfPresent(old(rows), "recommended-container", FetchData(TOP_RATED, apiKey.value, network)),
                    "popular-container", FetchData(POPULAR, apiKey.value, network)),
                  "family-container", FetchData(FAMILY_ANIMATION, apiKey.value, network))
    {
      if !Truthy(apiKey) {
        return;
      }
      var key := apiKey.value;
      var trending := FetchData(TRENDING, key, network);
      var topRated := FetchData(TOP_RATED, key, network);
      var popular := FetchData(POPULAR, key, network);
      var familyAnimation := FetchData(FAMILY_ANIMATION, key, network);
      if trending.Some? {
        PopulateCarousel(trending.value);
      }
      if topRated.Some? {
        PopulateMovieRow("recommended-container", topRated.value);
      }
      if popular.Some? {
        PopulateMovieRow("popular-container", popular.value);
      }
      if familyAnimation.Some? {
        PopulateMovieRow("family-container", familyAnimation.value);
      }
    }
  }
}
