/**
 * The self-advancing slide builder of the landing page (app.js).
 *
 * A fixed local list of five movies feeds a carousel. Each call of
 * createSlider wraps the cursor to 0 once it has reached the end of the
 * list, builds one slide from the movie under the cursor, appends it to the
 * ever-growing list of slides, advances the cursor, and moves only the
 * first slide left by an offset computed from the number of slides. Three
 * calls run at start-up; after that one call runs per timer tick.
 */
module Slides {
  import opened JsValues

  /** One entry of the local list: the text and image a slide shows. */
  datatype Movie = Movie(name: string, des: string, image: string)

  /** The fixed local list; nothing ever writes to it. */
  const Movies: seq<Movie> := [
    Movie("Loki",
      "Loki is an American television series created by Michael Waldron for the streaming service Disney.",
      "./images/loki marvel.jpg"),
    Movie("Falcon and the Winter Soldier",
      "Falcon and the Winter Soldier is an American television series created for the streaming platform Disney+.",
      "./images/winter solider.jpg"),
    Movie("Titanic",
      "Titanic is an epic romance and disaster film about a young couple from different social classes who fall in love aboard the ill-fated RMS Titanic.",
      "./images/titanic.jpg"),
    Movie("Maleficent",
      "Maleficent tells the untold story of Disney’s most iconic villain and the betrayal that turned her heart to stone.",
      "./images/meleficent.jpg"),
    Movie("snow white",
      "Anora, a Brooklyn stripper, finds her life upended after marrying a Russian oligarch’s son, leading to chaos and self-discovery.",
      "./images/anora1.jpg")
  ]

  /**
   * A left margin `calc(P% + Qpx)` kept as its two signed integer terms.
   * The script writes `calc(-${100*(c-2)}% - ${30*(c-2)}px)`, that is
   * P == -100*(c-2) and Q == -30*(c-2).
   */
  datatype Margin = Margin(percent: int, pixels: int)

  /** A rendered slide: the movie its title, text and image come from, and its inline left margin if one was set. */
  datatype Slide = Slide(movie: Movie, marginLeft: Option<Margin>)

  /** The builder's state: the slides created so far and the cursor. */
  datatype Builder = Builder(sliders: seq<Slide>, slideIndex: nat)

  /**
   * The first slide's margin when `c` slides exist. One slide width is
   * 100% plus 30px; the margin is (c - 2) widths to the left.
   */
  function MarginFor(c: int): (m: Margin)
    ensures m.percent * 3 == m.pixels * 10
    ensures m == Margin(0, 0) <==> c == 2
    ensures c > 2 ==> m.percent < 0 && m.pixels < 0
  {
    Margin(-(100 * (c - 2)), -(30 * (c - 2)))
  }

  /** Each further slide moves the first one exactly one more width to the left. */
  lemma MarginStep(c: int)
    ensures MarginFor(c + 1) == Margin(MarginFor(c).percent - 100, MarginFor(c).pixels - 30)
  {
  }

  /** The cursor as createSlider reads it: reset to 0 once it has reached the end of the list. */
  function WrapIndex(slideIndex: nat, n: nat): (i: nat)
    requires n > 0
    ensures i < n
    ensures i == slideIndex || i == 0
    ensures slideIndex < n ==> i == slideIndex
  {
    if slideIndex >= n then 0 else slideIndex
  }

  /** One createSlider call on a list of `movies`. */
  function Step(movies: seq<Movie>, b: Builder): (r: Builder)
    requires |movies| > 0
    ensures |r.sliders| == |b.sliders| + 1
    ensures r.sliders[|b.sliders|].movie == movies[WrapIndex(b.slideIndex, |movies|)]
    ensures forall k :: 0 <= k < |b.sliders| ==> r.sliders[k].movie == b.sliders[k].movie
    ensures forall k :: 0 < k < |b.sliders| ==> r.sliders[k] == b.sliders[k]
    ensures |b.sliders| > 0 ==> r.sliders[|b.sliders|].marginLeft == None
    ensures r.sliders[0].marginLeft == Some(MarginFor(|r.sliders|))
    ensures r.slideIndex == WrapIndex(b.slideIndex, |movies|) + 1
    ensures 1 <= r.slideIndex <= |movies|
  {
    var i := WrapIndex(b.slideIndex, |movies|);
    var pushed := b.sliders + [Slide(movies[i], None)];
    // The script guards the margin update with `if (sliders.length)`, which holds right after a push.
    var moved := if |pushed| > 0 then pushed[0 := pushed[0].(marginLeft := Some(MarginFor(|pushed|)))] else pushed;
    Builder(moved, i + 1)
  }

  /** The state after `k` createSlider calls from the initial state (no slides, cursor 0). */
  function Calls(movies: seq<Movie>, k: nat): Builder
    requires |movies| > 0
  {
    if k == 0 then Builder([], 0) else Step(movies, Calls(movies, k - 1))
  }

  /** The cursor after `k` calls: it holds N (not 0) right after the last entry was shown. */
  function IndexAfter(k: nat, n: nat): (i: nat)
    requires n > 0
    ensures i <= n
    ensures i == 0 <==> k == 0
  {
    if k == 0 then 0 else (k - 1) % n + 1
  }

  /** The cursor read by call k + 1 is k mod N, and it stores k mod N + 1. */
  lemma {:induction false} WrapAfter(k: nat, n: nat)
    requires n > 0
    ensures WrapIndex(IndexAfter(k, n), n) == k % n
    ensures IndexAfter(k + 1, n) == k % n + 1
  {
    if k > 0 {
      var q, r := (k - 1) / n, (k - 1) % n;
      assert k - 1 == q * n + r;
      if r + 1 == n {
        ModUnique(k, n, q + 1, 0);
      } else {
        ModUnique(k, n, q, r + 1);
      }
    }
  }

  /**
   * After k calls: k slides, slide j shows movies[j mod N], only the first
   * slide carries a margin (the one for k slides), and the cursor is
   * IndexAfter(k, N).
   */
  lemma {:induction false} CallsShape(movies: seq<Movie>, k: nat)
    requires |movies| > 0
    ensures var b := Calls(movies, k);
      && |b.sliders| == k
      && b.slideIndex == IndexAfter(k, |movies|)
      && (forall j :: 0 <= j < k ==> b.sliders[j].movie == movies[j % |movies|])
      && (k > 0 ==> b.sliders[0].marginLeft == Some(MarginFor(k)))
      && (forall j :: 0 < j < k ==> b.sliders[j].marginLeft == None)
  {
    if k > 0 {
      CallsShape(movies, k - 1);
      WrapAfter(k - 1, |movies|);
    }
  }

  /** Start-up makes three slides; t further ticks make t + 3, and the cursor cycles through 1..5. */
  lemma StartUpThenTicks(t: nat)
    ensures |Calls(Movies, 3 + t).sliders| == t + 3
    ensures Calls(Movies, 3 + t).slideIndex == (t + 2) % 5 + 1
    ensures Calls(Movies, 3 + t).sliders[t + 2].movie == Movies[(t + 2) % 5]
  {
    CallsShape(Movies, 3 + t);
  }

  /**
   * The page's slide builder. The slides list only grows; the cursor is a
   * natural number; the local movie list is a constant.
   */
  class SlideShow {
    const movies: seq<Movie>
    var sliders: seq<Slide>
    var slideIndex: nat
    /** How many createSlider calls have run. */
    ghost var calls: nat

    ghost predicate Valid()
      reads this
    {
      |movies| > 0 && Builder(sliders, slideIndex) == Calls(movies, calls)
    }

    /** Loading the script: empty state, then the three start-up calls. */
    constructor ()
      ensures Valid() && movies == Movies && calls == 3
      ensures |sliders| == 3 && slideIndex == 3
      ensures forall j :: 0 <= j < 3 ==> sliders[j].movie == Movies[j]
      ensures sliders[0].marginLeft == Some(Margin(-100, -30))
    {
      movies := Movies;
      sliders := [];
      slideIndex := 0;
      calls := 0;
      new;
      for i := 0 to 3
        invariant Valid() && movies == Movies && calls == i
      {
        CreateSlider();
      }
      CallsShape(movies, 3);
    }

    /** createSlider, run once at start-up three times and then on every timer tick. */
    method CreateSlider()
      requires Valid()
      modifies this
      ensures Valid() && calls == old(calls) + 1
      ensures Builder(sliders, slideIndex) == Step(movies, old(Builder(sliders, slideIndex)))
      ensures |sliders| == old(|sliders|) + 1
      ensures sliders[|sliders| - 1].movie == movies[old(calls) % |movies|]
      ensures forall k :: 0 <= k < old(|sliders|) ==> sliders[k].movie == old(sliders[k].movie)
      ensures forall k :: 0 < k < |sliders| ==> sliders[k].marginLeft == None
      ensures sliders[0].marginLeft == Some(MarginFor(|sliders|))
      ensures 1 <= slideIndex <= |movies|
    {
      ghost var before := Builder(sliders, slideIndex);
      if slideIndex >= |movies| {
        slideIndex := 0;
      }
      var slide := Slide(movies[slideIndex], None);
      sliders := sliders + [slide];
      slideIndex := slideIndex + 1;
      if |sliders| > 0 {
        sliders := sliders[0 := sliders[0].(marginLeft := Some(MarginFor(|sliders|)))];
      }
      assert Builder(sliders, slideIndex) == Step(movies, before);
      calls := calls + 1;
      CallsShape(movies, calls);
    }
  }
}
