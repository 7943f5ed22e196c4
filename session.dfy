// The state of the application root: the current screen, the selected genre,
// the watchlist, the selected title and whether the player is open, with the
// handlers that update them and the values derived from them.

module App {
  import opened Types
  import opened Seqs
  import opened Catalogue
  import opened Watchlist
  import Hero
  import AISearch

  /** The screens the navigation bar, the brand tiles and the close buttons can switch to. */
  const NavigationTargets: seq<ViewState> := [HOME, SEARCH, WATCHLIST, ORIGINALS, MOVIES, SERIES, CATALOGUE]

  /** The player is an overlay, not a screen: no navigation ever selects PLAYER. */
  lemma PlayerIsNeverNavigated()
    ensures PLAYER !in NavigationTargets
    ensures forall v :: v in NavigationTargets <==> v != PLAYER
  {
  }

  /** What the detail modal shows for a title. */
  datatype Detail = Detail(
    background: string,
    title: string,
    year: int,
    duration: string,
    category: Option<string>,
    description: string,
    inWatchlist: bool)

  /** The modal's fallbacks: backdrop falls back to image, year to 2024, duration to "2h 10m". */
  function DetailOf(m: Movie, watchlist: seq<string>): (d: Detail)
    ensures d.title == m.title && d.description == m.description && d.category == m.category
    ensures d.inWatchlist <==> m.id in watchlist
    ensures d.background == if m.backdrop.Some? && m.backdrop.value != "" then m.backdrop.value else m.image
    ensures d.year == if m.year.Some? && m.year.value != 0 then m.year.value else 2024
    ensures d.duration == if m.duration.Some? && m.duration.value != "" then m.duration.value else "2h 10m"
  {
    Detail(Hero.OrString(m.backdrop, m.image), m.title, Hero.OrNumber(m.year, 2024),
      Hero.OrString(m.duration, "2h 10m"), m.category, m.description, m.id in watchlist)
  }

  /**
   * The carousel and the modal fall back the same way for picture and year,
   * but not for duration: "2h 15m" on the carousel, "2h 10m" in the modal.
   */
  lemma CarouselAndModalFallbacks(m: Movie, watchlist: seq<string>)
    ensures Hero.SlideOf(m, watchlist).background == DetailOf(m, watchlist).background
    ensures Hero.SlideOf(m, watchlist).year == DetailOf(m, watchlist).year
    ensures Hero.SlideOf(m, watchlist).inWatchlist == DetailOf(m, watchlist).inWatchlist
    ensures Hero.SlideOf(m, watchlist).duration == DetailOf(m, watchlist).duration <==>
      m.duration.Some? && m.duration.value != ""
  {
  }

  /** The application root's state. */
  class Session {
    var view: ViewState
    var selectedGenre: string
    var watchlist: seq<string>
    var selectedMovie: Option<Movie>
    var isPlaying: bool

    /** The watchlist never holds an id twice, and the screen is never PLAYER. */
    ghost predicate Valid()
      reads this
    {
      NoDup(watchlist) && view != PLAYER
    }

    /** The initial state: the home screen, every genre, an empty watchlist, nothing selected. */
    constructor ()
      ensures view == HOME && selectedGenre == All && watchlist == []
      ensures selectedMovie == None && !isPlaying
      ensures Valid()
    {
      view := HOME;
      selectedGenre := All;
      watchlist := [];
      selectedMovie := None;
      isPlaying := false;
    }

    /**
     * A screen change together with the effect that follows it: the effect
     * runs only when the screen really changes, and resets the genre unless
     * the new screen is the catalogue.
     */
    method SetView(v: ViewState)
      requires Valid() && v in NavigationTargets
      modifies this
      ensures Valid()
      ensures view == v
      ensures selectedGenre == if v != old(view) && v != CATALOGUE then All else old(selectedGenre)
      ensures watchlist == old(watchlist) && selectedMovie == old(selectedMovie) && isPlaying == old(isPlaying)
    {
      if v != view {
        view := v;
        if v != CATALOGUE {
          selectedGenre := All;
        }
      }
    }

    /** A genre pill, or the "show every title" button of an empty grid. */
    method SelectGenre(genre: string)
      requires Valid()
      modifies this
      ensures Valid()
      ensures selectedGenre == genre
      ensures view == old(view) && watchlist == old(watchlist)
      ensures selectedMovie == old(selectedMovie) && isPlaying == old(isPlaying)
    {
      selectedGenre := genre;
    }

    /** Adds the title's id to the watchlist, or removes every occurrence of it. */
    method ToggleWatchlist(movie: Movie)
      requires Valid()
      modifies this
      ensures watchlist == Toggled(old(watchlist), movie.id)
      ensures movie.id in watchlist <==> movie.id !in old(watchlist)
      ensures Valid()
      ensures view == old(view) && selectedGenre == old(selectedGenre)
      ensures selectedMovie == old(selectedMovie) && isPlaying == old(isPlaying)
    {
      watchlist := Toggled(watchlist, movie.id);
    }

    /** A brand tile's category: select it, then open the catalogue, which keeps it. */
    method HandleBrandSelect(category: string)
      requires Valid()
      modifies this
      ensures Valid()
      ensures view == CATALOGUE && selectedGenre == category
      ensures watchlist == old(watchlist) && selectedMovie == old(selectedMovie) && isPlaying == old(isPlaying)
    {
      selectedGenre := category;
      SetView(CATALOGUE);
    }

    /** A click on a brand tile: only a present, non-empty category is forwarded. */
    method SelectBrand(b: Brand)
      requires Valid()
      modifies this
      ensures Valid()
      ensures BrandTarget(b).Some? ==> view == CATALOGUE && selectedGenre == BrandTarget(b).value
      ensures BrandTarget(b).None? ==> view == old(view) && selectedGenre == old(selectedGenre)
      ensures watchlist == old(watchlist) && selectedMovie == old(selectedMovie) && isPlaying == old(isPlaying)
    {
      match BrandTarget(b)
      case Some(category) => HandleBrandSelect(category);
      case None =>
    }

    /** A click on a title opens its detail modal. */
    method HandleMovieClick(movie: Movie)
      requires Valid()
      modifies this
      ensures Valid()
      ensures selectedMovie == Some(movie)
      ensures view == old(view) && selectedGenre == old(selectedGenre)
      ensures watchlist == old(watchlist) && isPlaying == old(isPlaying)
    {
      selectedMovie := Some(movie);
    }

    /** Play selects the title and opens the player. */
    method HandlePlay(movie: Movie)
      requires Valid()
      modifies this
      ensures Valid()
      ensures selectedMovie == Some(movie) && isPlaying
      ensures ShowsPlayer() && !ShowsDetail()
      ensures view == old(view) && selectedGenre == old(selectedGenre) && watchlist == old(watchlist)
    {
      selectedMovie := Some(movie);
      isPlaying := true;
    }

    /** Closing the detail modal clears the selection. */
    method CloseDetail()
      requires Valid()
      modifies this
      ensures Valid()
      ensures selectedMovie == None
      ensures !ShowsDetail() && !ShowsPlayer()
      ensures view == old(view) && selectedGenre == old(selectedGenre)
      ensures watchlist == old(watchlist) && isPlaying == old(isPlaying)
    {
      selectedMovie := None;
    }

    /** Closing the player only stops playing: a selected title's modal comes back. */
    method ClosePlayer()
      requires Valid()
      modifies this
      ensures Valid()
      ensures !isPlaying && !ShowsPlayer()
      ensures ShowsDetail() <==> selectedMovie.Some?
      ensures selectedMovie == old(selectedMovie)
      ensures view == old(view) && selectedGenre == old(selectedGenre) && watchlist == old(watchlist)
    {
      isPlaying := false;
    }

    /** The titles of the current grid: in catalogue order, each once. */
    function Visible(): (r: seq<Movie>)
      reads this
      ensures r == DisplayMovies(MockMovies, view, selectedGenre, watchlist)
      ensures Subseq(r, MockMovies) && NoDup(r)
      ensures forall m :: m in r ==> m in MockMovies
      ensures view == WATCHLIST ==> forall m :: m in r <==> m in MockMovies && m.id in watchlist
      ensures selectedGenre != All && view != WATCHLIST ==> forall m :: m in r ==> m.category == Some(selectedGenre)
    {
      MockMoviesIds();
      DisplayMovies(MockMovies, view, selectedGenre, watchlist)
    }

    /** The heading of the current screen. */
    function Title(): (r: string)
      reads this
      ensures r == PageTitle(view, selectedGenre)
      ensures r != "" ==> IsGridView(view)
      ensures view == CATALOGUE && selectedGenre != "" ==> r == (if selectedGenre == All then "Catálogo" else selectedGenre)
    {
      PageTitle(view, selectedGenre)
    }

    /** The detail modal is open when a title is selected and the player is closed. */
    predicate ShowsDetail()
      reads this
      ensures ShowsDetail() ==> selectedMovie.Some? && !ShowsPlayer()
    {
      selectedMovie.Some? && !isPlaying
    }

    /** The player is open when playing with a title selected. */
    predicate ShowsPlayer()
      reads this
      ensures ShowsPlayer() ==> selectedMovie.Some? && isPlaying
    {
      isPlaying && selectedMovie.Some?
    }

    /** The open detail modal, if any. */
    function OpenDetail(): (r: Option<Detail>)
      reads this
      ensures r.Some? <==> ShowsDetail()
      ensures r.Some? ==> r.value == DetailOf(selectedMovie.value, watchlist)
      ensures r.Some? ==> r.value.title == selectedMovie.value.title
      ensures r.Some? ==> (r.value.inWatchlist <==> selectedMovie.value.id in watchlist)
    {
      if ShowsDetail() then Some(DetailOf(selectedMovie.value, watchlist)) else None
    }
  }

  /** The detail modal and the player are never open together. */
  lemma DetailAndPlayerExclusive(s: Session)
    ensures !(s.ShowsDetail() && s.ShowsPlayer())
    ensures s.selectedMovie.Some? ==> s.ShowsDetail() != s.ShowsPlayer()
  {
  }

  /** Playing a title and closing the player shows that title's detail modal again. */
  method PlayThenCloseScenario(m: Movie) returns (detail: Option<Detail>)
    ensures detail.Some? && detail.value.title == m.title
  {
    var s := new Session();
    s.HandlePlay(m);
    s.ClosePlayer();
    detail := s.OpenDetail();
  }

  /**
   * Choosing the nature brand opens the catalogue on that genre and shows
   * titles 2 and 8; going home afterwards forgets the genre.
   */
  method BrandThenHomeScenario() returns (ids: seq<string>, title: string, genreAfterHome: string)
    ensures ids == ["2", "8"] && title == "Natureza"
    ensures genreAfterHome == All
  {
    var s := new Session();
    s.SelectBrand(Brands[1]);
    assert BrandTarget(Brands[1]) == Some("Natureza");
    assert s.view == CATALOGUE && s.selectedGenre == "Natureza";
    NatureScenario();
    ids := Ids(s.Visible());
    title := s.Title();
    s.SetView(HOME);
    genreAfterHome := s.selectedGenre;
  }

  /** A genre picked on a grid survives a switch to the catalogue but not to another screen. */
  method GenreAcrossScreensScenario() returns (inCatalogue: string, afterSeries: string)
    ensures inCatalogue == "Drama" && afterSeries == All
  {
    var s := new Session();
    s.SetView(MOVIES);
    s.SelectGenre("Drama");
    s.SetView(CATALOGUE);
    inCatalogue := s.selectedGenre;
    s.SetView(SERIES);
    afterSeries := s.selectedGenre;
  }

  /**
   * Saving title 5 and then title 2 and opening the watchlist shows them in
   * catalogue order, whatever genre was selected before.
   */
  method WatchlistScreenScenario() returns (ids: seq<string>)
    ensures ids == ["2", "5"]
  {
    var s := new Session();
    s.ToggleWatchlist(M5);
    s.ToggleWatchlist(M2);
    ToggleScenario();
    assert s.watchlist == ["5", "2"];
    s.SelectGenre("Ação");
    s.SetView(WATCHLIST);
    WatchlistScenario(s.selectedGenre);
    ids := Ids(s.Visible());
  }

  /**
   * A title from the AI screen opened in the detail modal (after closing its
   * player) shows the larger picture, and the fallback year and duration.
   */
  lemma AiTitleDetail(rec: Recommendation, index: nat, roll: AISearch.Roll, watchlist: seq<string>)
    ensures DetailOf(AISearch.ToMovie(rec, index, roll), watchlist).background ==
      AISearch.BackdropUrl(AISearch.ImageIdFor(rec.visualKey))
    ensures DetailOf(AISearch.ToMovie(rec, index, roll), watchlist).year == 2024
    ensures DetailOf(AISearch.ToMovie(rec, index, roll), watchlist).duration == "2h 10m"
    ensures DetailOf(AISearch.ToMovie(rec, index, roll), watchlist).category == Some(rec.genre)
  {
  }

  /**
   * The modal can add an AI title's id to the watchlist, but the watchlist
   * screen lists catalogue titles only, so that title never appears there.
   */
  lemma AiTitleNeverOnWatchlistScreen(rec: Recommendation, index: nat, roll: AISearch.Roll,
      genre: string, watchlist: seq<string>)
    ensures AISearch.ToMovie(rec, index, roll) !in DisplayMovies(MockMovies, WATCHLIST, genre, watchlist)
  {
    AISearch.AiIdsOutsideCatalogue(index);
  }
}
