# Movie browser front end: a Dafny model of its sequential core

The repository is a browser front end over a third-party movie database
API. This project models the parts that are deterministic and sequential,
and proves properties about them:

- **The self-advancing slide builder** of the landing page (`app.js`),
  in `slides.dfy`, module `Slides`. A fixed list of five local movies feeds
  a carousel. Each `createSlider` call does four things:
  - it wraps the cursor `slideIndex` to 0 once it has reached the list length;
  - it appends one slide for the movie under the cursor to the ever-growing `sliders` list;
  - it advances the cursor;
  - it sets the left margin of the first slide only, from the slide count `c`.

  Three calls run at start-up; after that one call runs per timer tick.
  - The class `SlideShow` holds `sliders: seq<Slide>` and `slideIndex: nat`, and `CreateSlider` updates them in place.
  - Its ghost call counter ties the state to the pure function `Calls(movies, k)`, which is `k` applications of `Step`.
  - Lemmas about `Calls` give the closed forms: slide `j` shows `movies[j mod N]`; after `k ≥ 1` calls the cursor is `((k-1) mod N) + 1`; only slide 0 carries a margin.
- **The catalog page** (`public/app.js`), in `catalog.dfy`, module `Catalog`. It covers:
  - the request URL and its `?`/`&` separator;
  - the null-or-`results` outcome of a fetch over an abstract response;
  - the field fallbacks of a movie card;
  - the clear-then-append population of a movie row;
  - the slot-wise carousel fill;
  - the halt and skip decisions of the page initialisation.

  The class `HomePage` holds the row containers, a map from element id to cards, and the carousel slots.
- **The movie detail page** (`public/movie.js`), in `movie_detail.dfy`, module `MovieDetail`. It covers:
  - runtime text (`h = m div 60`, `min = m mod 60`, with JavaScript's `%`), read back by a small parser;
  - the "N/A" guards of runtime and currency;
  - the watch link;
  - the genre badge rebuild;
  - the two-tier trailer choice and the embed URL.

  The class `DetailPage` holds the page elements these are written into.
- `js_values.dfy`, module `JsValues`, contains shared definitions:
  - optional fields;
  - JavaScript truthiness (`""`, `0` and an absent value are falsy);
  - `a || b`;
  - the decimal text of an integer, with its parser.

The network is a parameter: `network: string -> FetchOutcome` maps a request
URL to an abstract outcome, which is an exception or a status with a body.
The API key is an optional-string parameter. The locale currency formatter
is the parameter `formatUsd`.

Three behaviours of the code that are easy to misread:
- Cursor after the last entry. The cursor holds `N`, not 0, right after the last entry is shown, and is reset only at the start of the next call. After start-up and `t` ticks it is therefore `(t + 2) mod 5 + 1`; `IndexAfter` and `StartUpThenTicks` state this value.
- Offset at one slide. The code writes `100*(c-2)` and `30*(c-2)` into `calc(-…% - …px)`, so at `c = 1` both terms are negative (`-100` and `-30`) and the written text is `calc(--100% - -30px)`. `MarginFor` keeps the code's integer terms; it does not judge whether that CSS is valid.
- Missing `results` field. `fetchData` returns `data.results`, which is `undefined` when the body has no such field, and `null` on every error path. Both are falsy to the caller, and both are `None` here.

## Model

| member | source | states |
|---|---|---|
| `Slides.WrapIndex` | app.js:34-36 | the cursor read for a slide is always inside the list, and is the stored cursor unless that has reached the end (then 0) |
| `Slides.MarginFor` | app.js:67-71 | the first slide's margin terms keep the fixed ratio of one slide width (100% to 30px), are zero exactly at two slides, and are negative (leftwards) beyond |
| `Slides.MarginStep` | app.js:68-70 | each further slide moves the first one exactly 100% and 30px further left |
| `Slides.Step` | app.js:33-72 | one createSlider call appends exactly one slide, showing the movie under the wrapped cursor with no margin of its own; earlier slides keep their movie, slides other than the first are unchanged; the first gets the margin for the new count; the cursor becomes the wrapped cursor plus one, so it ends in 1..N |
| `Slides.IndexAfter` | app.js:31-64 | the stored cursor never exceeds the list length and is 0 only before the first call |
| `Slides.CallsShape` | app.js:30-72 | after k calls there are k slides, slide j shows movies[j mod N], only slide 0 has a margin (the one for k slides), and the cursor is ((k-1) mod N)+1 |
| `Slides.StartUpThenTicks` | app.js:74-82 | start-up plus t ticks gives t+3 slides, the newest showing Movies[(t+2) mod 5], and the cursor at (t+2) mod 5 + 1 |
| `Slides.SlideShow.constructor` | app.js:29-77 | loading the script sets the empty state (lines 29-31) and runs the three start-up calls (lines 74-77): three slides showing the first three movies, cursor 3, first margin one width left |
| `Slides.SlideShow.CreateSlider` | app.js:33-72 | the in-place call matches Step on the old state and keeps the state equal to Calls(movies, calls); the list grows by one, old slides keep their movie, the new slide shows movies[calls mod N] |
| `JsValues.ParseIntToString` | public/movie.js:43 | the decimal text an integer interpolates to is non-empty, made of digits after an optional '-', and reads back as the same integer |
| `Catalog.RequestUrl` | public/app.js:38-40 | the URL is the API base, then the endpoint verbatim, then '&' when the endpoint already has a '?' and '?' otherwise, then `api_key=` and the key |
| `Catalog.OneQueryMark` | public/app.js:39-40 | an endpoint with at most one '?' and a key with none give a URL with exactly one '?' |
| `Catalog.FetchData` | public/app.js:38-55 | fetchData gives a result exactly when the request for the endpoint with the key appended gets an ok status and a JSON body with a `results` field; that result is the field unchanged |
| `Catalog.FetchResults` | public/app.js:42-54 | a thrown error, a status outside 200-299 or an unparsable body give null; an ok JSON body gives its `results` field unchanged (absent stays absent) |
| `Catalog.DisplayTitle` | public/app.js:63 | the title is `title` if truthy, else `name` if truthy, else "Movie Title"; never empty |
| `Catalog.DisplayOverview` | public/app.js:64 | the overview is `overview` if truthy, else "No description available."; never empty |
| `Catalog.ImageUrl` | public/app.js:65-67 | a truthy partial path follows the base URL verbatim; otherwise the fixed placeholder URL |
| `Catalog.CreateMovieCard` | public/app.js:62-108 | a card keeps the movie id and has a non-empty title, overview and poster, each resolved by its fallback rule |
| `Catalog.CardsOf` | public/app.js:126-129 | one card per movie, card i built from movie i |
| `Catalog.RowAfter` | public/app.js:115-130 | a missing container changes nothing; a present one holds exactly the movies' cards in input order, whatever it held before; other rows are unchanged |
| `Catalog.RowIdempotent` | public/app.js:122-129 | populating a row twice with the same movies equals populating it once |
| `Catalog.EmptyRow` | public/app.js:122-123 | an empty movie list leaves a present container empty |
| `Catalog.FillSlot` | public/app.js:143-166 | a slot keeps which children it has; its image gets the backdrop URL (or placeholder) and the title as alt text, its heading the title, its paragraph the overview |
| `Catalog.FillSlots` | public/app.js:136-168 | the carousel keeps its slot count; slot i is filled from movie i for i < min(movies, slots); slots beyond the movies are untouched |
| `Catalog.RowIfPresent` | public/app.js:282-284 | a section's row is populated only when its fetch result is present and its container exists: then it holds one card per movie in order; otherwise, and for every other row, nothing changes |
| `Catalog.HomePage.PopulateMovieRow` | public/app.js:115-130 | the clear-then-append loop leaves the rows equal to RowAfter of the old rows; the carousel is untouched |
| `Catalog.HomePage.PopulateCarousel` | public/app.js:136-168 | the slot-by-slot loop leaves the slots equal to FillSlots of the old slots; the rows are untouched |
| `Catalog.HomePage.InitializePage` | public/app.js:262-288 | a falsy key changes nothing; otherwise the carousel is filled only when the trending fetch gives a result, and each row only when its own fetch gives a result |
| `MovieDetail.JsRem` | public/movie.js:42 | JavaScript's `%`: the remainder lies strictly within one divisor of zero, takes the dividend's sign, and differs from the dividend by a multiple of the divisor |
| `MovieDetail.SplitRuntime` | public/movie.js:41-42 | for a positive runtime, hours and minutes satisfy h*60 + min == m with 0 <= min < 60; for a negative one both parts are non-positive (JavaScript's `%` keeps the dividend's sign) |
| `MovieDetail.FormatRuntime` | public/movie.js:39-44 | an absent or zero runtime is "N/A"; a positive runtime m is the text "{h}h {min}m" for the h and min with h*60 + min == m and 0 <= min < 60 |
| `MovieDetail.RuntimeRoundTrip` | public/movie.js:39-44 | the text of a positive runtime reads back as the same number of minutes under a reader that accepts only canonical text (no leading zeros, minutes under 60), and "N/A" reads as nothing |
| `MovieDetail.ReadRuntimeOnlyCanonical` | public/movie.js:39-44 | any text the reader accepts as a positive runtime is exactly the formatter's text for that runtime, so the formatter's output is the one canonical split |
| `MovieDetail.RuntimeExample` | public/movie.js:39-44 | 125 minutes is "2h 5m" and 0 is "N/A" |
| `MovieDetail.FormatCurrency` | public/movie.js:46-54 | an absent or zero amount is "N/A"; any other amount is the locale formatter's text |
| `MovieDetail.WatchUrl` | public/movie.js:89-90 | the link is the homepage when truthy, else the IMDb title URL followed verbatim by the id; it is never empty, so the link is always set |
| `MovieDetail.BadgesOf` | public/movie.js:122-129 | one badge per genre, badge i carrying genre i's name |
| `MovieDetail.GenreNodes` | public/movie.js:119-132 | the genre list is never empty: one badge per genre in order, or the single text "N/A" when genres are absent or empty |
| `MovieDetail.FindFirst` | public/movie.js:145-148 | the index found is the first video meeting the criterion; none found means no video meets it |
| `MovieDetail.SelectTrailer` | public/movie.js:145-148 | if any YouTube trailer exists the first one is chosen, wherever other YouTube videos sit; otherwise the first YouTube video; nothing exactly when no video is on YouTube |
| `MovieDetail.TrailerBeatsEarlierClip` | public/movie.js:145-148 | a trailer after a YouTube clip is chosen over it; a lone clip is chosen; an empty list chooses nothing |
| `MovieDetail.EmbedUrl` | public/movie.js:155-158 | the embed source is the YouTube embed base, the key verbatim, then the fixed autoplay, mute, controls, rel and branding parameters |
| `MovieDetail.ChooseTrailer` | public/movie.js:138-174 | the no-trailer outcome happens exactly when the fetch failed, `results` is absent, or no video is on YouTube; otherwise the embed is for the selected video's key |
| `MovieDetail.DetailPage.RenderMovieDetails` | public/movie.js:65-136 | every field is written with its fallback: the tagline is quoted or hidden; the images change only for truthy paths; the watch link, runtime, release date, budget, revenue and language are set as their rules say; the genres are rebuilt; the details are revealed; the trailer area is untouched |
| `MovieDetail.DetailPage.RenderBasicInfo` | public/movie.js:66-93 | the title, tagline, overview, poster, backdrop and watch link as written by renderMovieDetails |
| `MovieDetail.DetailPage.RenderStats` | public/movie.js:95-116 | runtime, release date ("N/A" fallback), budget, revenue and original language ("N/A" fallback) |
| `MovieDetail.DetailPage.RebuildGenres` | public/movie.js:118-132 | the clear-then-append loop leaves the genre list equal to GenreNodes of the genres |
| `MovieDetail.DetailPage.RenderMovieTrailer` | public/movie.js:138-174 | with a chosen video the container holds exactly its player (the placeholder cleared); otherwise the container is unchanged and the no-trailer message is shown |

## Left out

- `getApiKey` (public/app.js:19-35, public/movie.js:14-25): it is a network request to the page's own server. The key it yields is the `apiKey` parameter of `InitializePage`.
- `fetchMovieDetails` (public/app.js:234-259): it is a network request with a hard-coded key, and the page never uses its result.
- The requests themselves: the network is a function from URL to an abstract outcome.
- The `Promise.all` fan-out (public/app.js:273-278): the four results are taken as already settled. Their order does not matter, because each feeds only its own section.
- The `setInterval` timer (app.js:80-82): time is not modelled. A tick is one `CreateSlider` call.
- `Intl.NumberFormat` (public/movie.js:48-53): it is a foreign locale library, passed in as `formatUsd`.
- The rating and vote count texts (`toFixed`, `toLocaleString`, public/movie.js:102-107): floating point and locale formatting.
- `scrollRow` (public/app.js:177-189): it computes with floating point (`clientWidth * 0.8`).
- `initAnimations` (public/app.js:194-232): these are GSAP animations.
- movie.js `init` and `showError` (public/movie.js:56-61, 178-200): they read the URL's query string, and `RenderMovieTrailer` takes the already-fetched video list.
- movie.js `fetchData` (public/movie.js:27-37): it fetches over the network. Its URL always uses '?' as the separator.
- Markup and styling are not modelled: HTML strings, CSS class names, iframe attributes other than `src`, and the margin's CSS text. A card is a record of its resolved fields; a margin is its two integer terms. No escaping is performed by the source, and none is claimed.
- Object identity of DOM elements is not modelled. Slides, slots and page elements are values held in fields and replaced in place, so aliasing between elements is not captured.
- `MovieDetail.Details`: `title` and `overview` are plain strings, so the text of an absent value is not modelled. `imdbId` is the text the id interpolates to.
- `FormatRuntime`: runtimes are integers; a NaN or fractional runtime is not modelled.
- `Catalog.FetchResults`: a `results` field that is not an array, and the difference between null and undefined, are not modelled.
- tailwind.config.js and server.js: static styling and a static file server with a key echo endpoint. They contain no logic to verify.
