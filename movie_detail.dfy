/**
 * The movie detail page (public/movie.js): runtime and currency text, the
 * watch link, the genre badges, the two-tier trailer choice and the embed
 * URL, and the page elements these are written into.
 */
module MovieDetail {
  import opened JsValues
  import Catalog

  const NOT_AVAILABLE := "N/A"
  const IMDB_TITLE_URL := "https://www.imdb.com/title/"
  const YOUTUBE_EMBED_URL := "https://www.youtube.com/embed/"
  const EMBED_PARAMS := "?autoplay=1&mute=1&controls=1&rel=0&modestbranding=1"

  // ---------------------------------------------------------------------
  // Runtime
  // ---------------------------------------------------------------------

  /** JavaScript's `%` on integers: the remainder takes the dividend's sign. */
  function JsRem(a: int, b: int): (r: int)
    requires b > 0
    ensures a >= 0 ==> 0 <= r < b
    ensures a < 0 ==> -b < r <= 0
    ensures (a - r) % b == 0
  {
    if a >= 0 then
      ModUnique(a - a % b, b, a / b, 0);
      a % b
    else
      ModUnique(a + (-a) % b, b, -((-a) / b), 0);
      -((-a) % b)
  }

  /**
   * Hours and minutes of a runtime: `Math.floor(m / 60)` and `m % 60`. For
   * a positive runtime they decompose it exactly, minutes under an hour.
   */
  function SplitRuntime(total: int): (hm: (int, int))
    ensures total > 0 ==> hm.0 >= 0 && 0 <= hm.1 < 60 && hm.0 * 60 + hm.1 == total
    ensures total < 0 ==> hm.0 < 0 && -60 < hm.1 <= 0
  {
    (total / 60, JsRem(total, 60))
  }

  /** formatRuntime: "N/A" for an absent or zero runtime, else "{h}h {m}m". */
  function FormatRuntime(total: Option<int>): (s: string)
    ensures !TruthyNumber(total) ==> s == NOT_AVAILABLE
    ensures TruthyNumber(total) && total.value > 0 ==>
      exists h, m :: 0 <= h && 0 <= m < 60 && h * 60 + m == total.value
        && s == IntToString(h) + "h " + IntToString(m) + "m"
  {
    if !TruthyNumber(total) then NOT_AVAILABLE
    else
      var hm := SplitRuntime(total.value);
      IntToString(hm.0) + "h " + IntToString(hm.1) + "m"
  }

  /** The number of leading decimal digits of `s`. */
  function DigitPrefix(s: string): (n: nat)
    ensures n <= |s| && AllDigits(s[..n])
    ensures n < |s| ==> !IsDigit(s[n])
  {
    if s == [] || !IsDigit(s[0]) then 0
    else
      var n := 1 + DigitPrefix(s[1..]);
      assert forall i :: 1 <= i < n ==> s[..n][i] == s[1..][..n - 1][i - 1];
      n
  }

  lemma {:induction false} DigitPrefixOf(digits: string, rest: string)
    requires AllDigits(digits)
    requires rest != [] && !IsDigit(rest[0])
    ensures DigitPrefix(digits + rest) == |digits|
  {
    if digits == [] {
      assert digits + rest == rest;
    } else {
      assert (digits + rest)[1..] == digits[1..] + rest;
      DigitPrefixOf(digits[1..], rest);
    }
  }

  /** Decimal digits as NatToString writes them: at least one, and no leading zero. */
  predicate Canonical(d: string) {
    d != [] && AllDigits(d) && (|d| > 1 ==> d[0] != '0')
  }

  /** The hours and minutes texts of "{h}h {m}m", when `s` has that shape with digits before the 'h'. */
  function RuntimeParts(s: string): Option<(string, string)> {
    var i := DigitPrefix(s);
    if 0 < i && i + 2 < |s| && s[i] == 'h' && s[i + 1] == ' ' && s[|s| - 1] == 'm'
    then Some((s[..i], s[i + 2..|s| - 1]))
    else None
  }

  /**
   * Reads a canonical runtime text "{h}h {m}m" back into minutes: both parts
   * without leading zeros and the minutes under an hour. None for any other
   * text, "N/A" and "0h 125m" among them.
   */
  function ReadRuntime(s: string): Option<int> {
    match RuntimeParts(s)
    case None => None
    case Some((hd, md)) =>
      if Canonical(hd) && Canonical(md) && ParseNat(md) < 60
      then Some(ParseNat(hd) * 60 + ParseNat(md))
      else None
  }

  /** Text made of a non-empty digit string, "h ", any minutes text and "m" splits back into those parts. */
  lemma PartsOf(h: string, m: string)
    requires h != [] && AllDigits(h)
    ensures RuntimeParts(h + "h " + m + "m") == Some((h, m))
  {
    var rest := "h " + m + "m";
    var s := h + rest;
    assert h + "h " + m + "m" == s;
    DigitPrefixOf(h, rest);
    var i := |h|;
    assert s[i] == 'h' && s[i + 1] == ' ' && s[|s| - 1] == 'm';
    assert s[..i] == h;
    assert s[i + 2..|s| - 1] == m;
  }

  /** A positive runtime's text reads back as the same number of minutes; "N/A" reads as nothing. */
  lemma RuntimeRoundTrip(total: Option<int>)
    requires total.None? || total.value >= 0
    ensures ReadRuntime(FormatRuntime(total)) == if TruthyNumber(total) then total else None
  {
    if TruthyNumber(total) {
      var hm := SplitRuntime(total.value);
      var h, m := NatToString(hm.0), NatToString(hm.1);
      assert FormatRuntime(total) == h + "h " + m + "m";
      ParseNatToString(hm.0);
      ParseNatToString(hm.1);
      PartsOf(h, m);
    } else {
      assert FormatRuntime(total) == "N/A";
      assert !IsDigit('N');
    }
  }

  /**
   * The reader accepts nothing but the formatter's own texts: whatever it
   * reads as a positive runtime is exactly that runtime's text.
   */
  lemma ReadRuntimeOnlyCanonical(s: string)
    requires ReadRuntime(s).Some? && ReadRuntime(s).value > 0
    ensures FormatRuntime(ReadRuntime(s)) == s
  {
    var i := DigitPrefix(s);
    var hd, md := s[..i], s[i + 2..|s| - 1];
    assert RuntimeParts(s) == Some((hd, md));
    SplitOf(ParseNat(hd), ParseNat(md));
    NatToStringParse(hd);
    NatToStringParse(md);
    assert s == hd + "h " + md + "m";
  }

  /** Hours and minutes under an hour are what SplitRuntime recovers from their total. */
  lemma SplitOf(h: nat, m: nat)
    requires m < 60
    ensures SplitRuntime(h * 60 + m) == (h, m)
  {
    ModUnique(h * 60 + m, 60, h, m);
  }

  /** The example of the detail page: 125 minutes is "2h 5m". */
  lemma RuntimeExample()
    ensures FormatRuntime(Some(125)) == "2h 5m"
    ensures FormatRuntime(Some(0)) == "N/A"
  {
    assert SplitRuntime(125) == (2, 5);
  }

  // ---------------------------------------------------------------------
  // Currency and links
  // ---------------------------------------------------------------------

  /**
   * formatCurrency: "N/A" for an absent or zero amount; otherwise the
   * locale formatter's text, which is a parameter here.
   */
  function FormatCurrency(amount: Option<int>, formatUsd: int -> string): (s: string)
    ensures !TruthyNumber(amount) ==> s == NOT_AVAILABLE
    ensures TruthyNumber(amount) ==> s == formatUsd(amount.value)
  {
    if !TruthyNumber(amount) || amount.value == 0 then NOT_AVAILABLE else formatUsd(amount.value)
  }

  /** The "Watch Now" target: the homepage when truthy, else the IMDb title page; never empty. */
  function WatchUrl(homepage: Option<string>, imdbId: string): (url: string)
    ensures url != ""
    ensures Truthy(homepage) ==> url == homepage.value
    ensures !Truthy(homepage) ==>
      |url| == |IMDB_TITLE_URL| + |imdbId| && url[..|IMDB_TITLE_URL|] == IMDB_TITLE_URL && url[|IMDB_TITLE_URL|..] == imdbId
  {
    Or(homepage, IMDB_TITLE_URL + imdbId)
  }

  // ---------------------------------------------------------------------
  // Genres
  // ---------------------------------------------------------------------

  datatype Genre = Genre(name: string)

  /** A child of the genre list: a badge with a genre's name, or plain text. */
  datatype GenreNode = Badge(name: string) | Text(text: string)

  /** One badge per genre, in input order. */
  function BadgesOf(genres: seq<Genre>): (nodes: seq<GenreNode>)
    ensures |nodes| == |genres|
    ensures forall i :: 0 <= i < |genres| ==> nodes[i] == Badge(genres[i].name)
  {
    if genres == [] then []
    else BadgesOf(genres[..|genres| - 1]) + [Badge(genres[|genres| - 1].name)]
  }

  /** The genre list's children after rebuilding: the badges, or the text "N/A" when there are no genres. */
  function GenreNodes(genres: Option<seq<Genre>>): (nodes: seq<GenreNode>)
    ensures nodes != []
    ensures genres.Some? && genres.value != [] ==>
      |nodes| == |genres.value| && forall i :: 0 <= i < |nodes| ==> nodes[i] == Badge(genres.value[i].name)
    ensures genres.None? || genres.value == [] ==> nodes == [Text(NOT_AVAILABLE)]
  {
    if genres.Some? && |genres.value| > 0 then BadgesOf(genres.value) else [Text(NOT_AVAILABLE)]
  }

  // ---------------------------------------------------------------------
  // Trailer
  // ---------------------------------------------------------------------

  /** A video of the `/movie/{id}/videos` list (`type` is a reserved word here, hence `kind`). */
  datatype Video = Video(site: string, kind: string, key: string)

  /** The two search criteria, strongest first. */
  datatype Criterion = YouTubeTrailer | AnyYouTube

  predicate Matches(c: Criterion, v: Video) {
    v.site == "YouTube" && (c == YouTubeTrailer ==> v.kind == "Trailer")
  }

  /** Index `i` holds the first video that meets `c`. */
  predicate IsFirstMatch(videos: seq<Video>, c: Criterion, i: nat) {
    i < |videos| && Matches(c, videos[i]) && forall j :: 0 <= j < i ==> !Matches(c, videos[j])
  }

  /** `Array.prototype.find`, as the index of the first video meeting `c`. */
  function FindFirst(videos: seq<Video>, c: Criterion): (r: Option<nat>)
    ensures r.Some? ==> IsFirstMatch(videos, c, r.value)
    ensures r.None? ==> forall j :: 0 <= j < |videos| ==> !Matches(c, videos[j])
  {
    if videos == [] then None
    else if Matches(c, videos[0]) then Some(0)
    else match FindFirst(videos[1..], c)
      case None => None
      case Some(i) => Some(i + 1)
  }

  /**
   * The trailer choice `find(YouTube && Trailer) || find(YouTube)`, as an
   * index: the first YouTube trailer wherever other YouTube videos sit;
   * failing that the first YouTube video; None when there is none.
   */
  function SelectTrailer(videos: seq<Video>): (r: Option<nat>)
    ensures r.None? <==> forall j :: 0 <= j < |videos| ==> !Matches(AnyYouTube, videos[j])
    ensures (exists j :: 0 <= j < |videos| && Matches(YouTubeTrailer, videos[j])) ==>
      r.Some? && IsFirstMatch(videos, YouTubeTrailer, r.value)
    ensures (forall j :: 0 <= j < |videos| ==> !Matches(YouTubeTrailer, videos[j])) && r.Some? ==>
      IsFirstMatch(videos, AnyYouTube, r.value)
  {
    var trailer := FindFirst(videos, YouTubeTrailer);
    if trailer.Some? then trailer else FindFirst(videos, AnyYouTube)
  }

  /** The embed source for a YouTube key, with autoplay, mute, controls, no related videos, modest branding. */
  function EmbedUrl(key: string): (src: string)
    ensures |src| == |YOUTUBE_EMBED_URL| + |key| + |EMBED_PARAMS|
    ensures src[..|YOUTUBE_EMBED_URL|] == YOUTUBE_EMBED_URL
    ensures src[|YOUTUBE_EMBED_URL|..|src| - |EMBED_PARAMS|] == key
    ensures src[|src| - |EMBED_PARAMS|..] == EMBED_PARAMS
  {
    YOUTUBE_EMBED_URL + key + EMBED_PARAMS
  }

  /** The JSON of the videos request; its `results` field may be absent. */
  datatype VideoList = VideoList(results: Option<seq<Video>>)

  /** What the trailer area ends up showing. */
  datatype TrailerView = Embed(src: string) | NoTrailer

  /**
   * renderMovieTrailer's decision for a fetch result (None when the fetch
   * failed): an embed of the selected video, else the no-trailer message.
   */
  function ChooseTrailer(videoData: Option<VideoList>): (v: TrailerView)
    ensures v.NoTrailer? <==>
      videoData.None? || videoData.value.results.None? || SelectTrailer(videoData.value.results.value).None?
    ensures v.Embed? ==>
      var videos := videoData.value.results.value;
      var i := SelectTrailer(videos).value;
      i < |videos| && v.src == EmbedUrl(videos[i].key)
  {
    if videoData.Some? && videoData.value.results.Some? && |videoData.value.results.value| > 0 then
      var videos := videoData.value.results.value;
      match SelectTrailer(videos)
      case Some(i) => Embed(EmbedUrl(videos[i].key))
      case None => NoTrailer
    else NoTrailer
  }

  /** A trailer beats an earlier YouTube clip; a lone clip is still chosen. */
  lemma TrailerBeatsEarlierClip(clip: Video, trailer: Video)
    requires clip.site == "YouTube" && clip.kind == "Clip"
    requires trailer.site == "YouTube" && trailer.kind == "Trailer"
    ensures SelectTrailer([clip, trailer]) == Some(1)
    ensures SelectTrailer([clip]) == Some(0)
    ensures SelectTrailer([]) == None
  {
    assert Matches(YouTubeTrailer, [clip, trailer][1]);
  }

  // ---------------------------------------------------------------------
  // The page
  // ---------------------------------------------------------------------

  /** The movie detail object of the `/movie/{id}` request. `imdbId` is the text it interpolates to. */
  datatype Details = Details(
    title: string,
    tagline: Option<string>,
    overview: string,
    posterPath: Option<string>,
    backdropPath: Option<string>,
    homepage: Option<string>,
    imdbId: string,
    runtime: Option<int>,
    releaseDate: Option<string>,
    budget: Option<int>,
    revenue: Option<int>,
    originalLanguage: Option<string>,
    genres: Option<seq<Genre>>)

  /** A child of the trailer container: the initial placeholder, or an embedded player. */
  datatype TrailerNode = Placeholder | Iframe(src: string)

  /** The fixed elements of the detail page that the script writes. */
  class DetailPage {
    var titleText: string
    var taglineText: string
    var taglineHidden: bool
    var overviewText: string
    var posterSrc: string
    var backdropImage: string
    var watchHref: string
    var runtimeText: string
    var releaseDateText: string
    var budgetText: string
    var revenueText: string
    var languageText: string
    var genres: seq<GenreNode>
    var loadingHidden: bool
    var detailsHidden: bool
    var trailerChildren: seq<TrailerNode>
    var noTrailerHidden: bool

    /** The page as loaded: spinner shown, details and no-trailer message hidden, trailer placeholder in place. */
    constructor ()
      ensures !loadingHidden && detailsHidden && noTrailerHidden && !taglineHidden
      ensures trailerChildren == [Placeholder] && genres == []
    {
      titleText, taglineText, taglineHidden, overviewText := "", "", false, "";
      posterSrc, backdropImage, watchHref := "", "", "";
      runtimeText, releaseDateText, budgetText, revenueText, languageText := "", "", "", "", "";
      genres := [];
      loadingHidden, detailsHidden := false, true;
      trailerChildren, noTrailerHidden := [Placeholder], true;
    }

    /** renderMovieDetails: write every field with its fallback, rebuild the genre list, reveal the details. */
    method RenderMovieDetails(movie: Details, formatUsd: int -> string)
      modifies this
      ensures titleText == movie.title && overviewText == movie.overview
      ensures Truthy(movie.tagline) ==> taglineText == "\"" + movie.tagline.value + "\"" && taglineHidden == old(taglineHidden)
      ensures !Truthy(movie.tagline) ==> taglineText == old(taglineText) && taglineHidden
      ensures posterSrc == (if Truthy(movie.posterPath) then Catalog.IMAGE_BASE_URL + movie.posterPath.value else old(posterSrc))
      ensures backdropImage ==
        (if Truthy(movie.backdropPath) then "url(" + Catalog.BACKDROP_BASE_URL + movie.backdropPath.value + ")" else old(backdropImage))
      ensures watchHref == WatchUrl(movie.homepage, movie.imdbId)
      ensures runtimeText == FormatRuntime(movie.runtime)
      ensures releaseDateText == Or(movie.releaseDate, NOT_AVAILABLE)
      ensures budgetText == FormatCurrency(movie.budget, formatUsd)
      ensures revenueText == FormatCurrency(movie.revenue, formatUsd)
      ensures languageText == Or(movie.originalLanguage, NOT_AVAILABLE)
      ensures genres == GenreNodes(movie.genres)
      ensures loadingHidden && !detailsHidden
      ensures trailerChildren == old(trailerChildren) && noTrailerHidden == old(noTrailerHidden)
    {
      RenderBasicInfo(movie);
      RenderStats(movie, formatUsd);
      RebuildGenres(movie.genres);
      loadingHidden := true;
      detailsHidden := false;
    }

    /** The title, tagline, overview, images and watch link of renderMovieDetails. */
    method RenderBasicInfo(movie: Details)
      modifies this`titleText, this`taglineText, this`taglineHidden, this`overviewText
      modifies this`posterSrc, this`backdropImage, this`watchHref
      ensures titleText == movie.title && overviewText == movie.overview
      ensures Truthy(movie.tagline) ==> taglineText == "\"" + movie.tagline.value + "\"" && taglineHidden == old(taglineHidden)
      ensures !Truthy(movie.tagline) ==> taglineText == old(taglineText) && taglineHidden
      ensures posterSrc == (if Truthy(movie.posterPath) then Catalog.IMAGE_BASE_URL + movie.posterPath.value else old(posterSrc))
      ensures backdropImage ==
        (if Truthy(movie.backdropPath) then "url(" + Catalog.BACKDROP_BASE_URL + movie.backdropPath.value + ")" else old(backdropImage))
      ensures watchHref == WatchUrl(movie.homepage, movie.imdbId)
    {
      titleText := movie.title;
      if Truthy(movie.tagline) {
        taglineText := "\"" + movie.tagline.value + "\"";
      } else {
        taglineHidden := true;
      }
      overviewText := movie.overview;

      if Truthy(movie.posterPath) {
        posterSrc := Catalog.IMAGE_BASE_URL + movie.posterPath.value;
      }
      if Truthy(movie.backdropPath) {
        backdropImage := "url(" + Catalog.BACKDROP_BASE_URL + movie.backdropPath.value + ")";
      }

      var watchUrl := WatchUrl(movie.homepage, movie.imdbId);
      if watchUrl != "" {
        watchHref := watchUrl;
      }
    }

    /** The sidebar figures of renderMovieDetails, each with its "N/A" fallback. */
    method RenderStats(movie: Details, formatUsd: int -> string)
      modifies this`runtimeText, this`releaseDateText, this`budgetText, this`revenueText, this`languageText
      ensures runtimeText == FormatRuntime(movie.runtime)
      ensures releaseDateText == Or(movie.releaseDate, NOT_AVAILABLE)
      ensures budgetText == FormatCurrency(movie.budget, formatUsd)
      ensures revenueText == FormatCurrency(movie.revenue, formatUsd)
      ensures languageText == Or(movie.originalLanguage, NOT_AVAILABLE)
    {
      runtimeText := FormatRuntime(movie.runtime);
      releaseDateText := Or(movie.releaseDate, NOT_AVAILABLE);
      budgetText := FormatCurrency(movie.budget, formatUsd);
      revenueText := FormatCurrency(movie.revenue, formatUsd);
      languageText := Or(movie.originalLanguage, NOT_AVAILABLE);
    }

    /** The genre list of renderMovieDetails: cleared, then one badge appended per genre, or the text "N/A". */
    method RebuildGenres(list: Option<seq<Genre>>)
      modifies this`genres
      ensures genres == GenreNodes(list)
    {
      genres := [];
      if list.Some? && |list.value| > 0 {
        var gs := list.value;
        var i := 0;
        while i < |gs|
          invariant 0 <= i <= |gs|
          invariant genres == BadgesOf(gs[..i])
        {
          assert gs[..i + 1][..i] == gs[..i];
          genres := genres + [Badge(gs[i].name)];
          i := i + 1;
        }
        assert gs[..i] == gs;
      } else {
        genres := [Text(NOT_AVAILABLE)];
      }
    }

    /**
     * renderMovieTrailer once the videos request has settled: replace the
     * container's content by the chosen video's player, or reveal the
     * no-trailer message and leave the container as it was.
     */
    method RenderMovieTrailer(videoData: Option<VideoList>)
      modifies this`trailerChildren, this`noTrailerHidden
      ensures ChooseTrailer(videoData).Embed? ==>
        trailerChildren == [Iframe(ChooseTrailer(videoData).src)] && noTrailerHidden == old(noTrailerHidden)
      ensures ChooseTrailer(videoData).NoTrailer? ==>
        trailerChildren == old(trailerChildren) && !noTrailerHidden
    {
      if videoData.Some? && videoData.value.results.Some? && |videoData.value.results.value| > 0 {
        var videos := videoData.value.results.value;
        var trailer := SelectTrailer(videos);
        if trailer.Some? {
          var src := EmbedUrl(videos[trailer.value].key);
          trailerChildren := [];
          trailerChildren := trailerChildren + [Iframe(src)];
          return;
        }
      }
      noTrailerHidden := false;
    }
  }
}
