// The pure part of the application root: the shipped catalogue, the
// visible-titles computation, the grid-view flag, the page title and the rows
// of the home screen.

module Catalogue {
  import opened Types
  import opened Seqs

  /** The "all categories" sentinel of the genre filter. */
  const All: string := "Todos"

  const M1: Movie := Movie("1", "A Grande Aventura",
    "Uma jornada através das montanhas místicas para encontrar a cidade perdida de ouro antes que o império a destrua.",
    "https://picsum.photos/id/1018/800/450", Some("https://picsum.photos/id/1018/1600/900"),
    Some("Aventura"), None, Some(2023), Some("2h 14m"), Some(Film), Some(false), Some("K_9tX4eHztY"))
  const M2: Movie := Movie("2", "Azul Profundo",
    "Explore as profundezas do oceano onde criaturas desconhecidas espreitam na escuridão.",
    "https://picsum.photos/id/1015/800/450", Some("https://picsum.photos/id/1015/1600/900"),
    Some("Natureza"), None, Some(2022), Some("1h 45m"), Some(Series), Some(true), Some("JkaxUblCGz0"))
  const M3: Movie := Movie("3", "Cidade Cyber",
    "Em 2077, um detetive de IA desonesto tenta resolver o assassinato de um humano sintético.",
    "https://picsum.photos/id/1033/800/450", Some("https://picsum.photos/id/1033/1600/900"),
    Some("Ficção"), None, Some(2024), Some("2h 30m"), Some(Series), Some(true), Some("qEVUtrk8_B4"))
  const M4: Movie := Movie("4", "Sussurros da Floresta",
    "As árvores têm olhos e o vento carrega segredos do passado.",
    "https://picsum.photos/id/1039/800/450", Some("https://picsum.photos/id/1039/1600/900"),
    Some("Fantasia"), None, Some(2021), Some("1h 55m"), Some(Film), Some(false), Some("VngD3Q88dC4"))
  const M5: Movie := Movie("5", "Velocidade Máxima",
    "Corridas de alta octanagem no deserto sem regras.",
    "https://picsum.photos/id/1071/800/450", Some("https://picsum.photos/id/1071/1600/900"),
    Some("Ação"), None, Some(2023), Some("2h 05m"), Some(Film), Some(false), Some("N93j6A020k0"))
  const M6: Movie := Movie("6", "Vida Tranquila",
    "Um drama sobre uma pequena vila nos Alpes.",
    "https://picsum.photos/id/1080/800/450", Some("https://picsum.photos/id/1080/1600/900"),
    Some("Drama"), None, Some(2020), Some("1h 30m"), Some(Series), Some(false), Some("Z9AYPxH5NTM"))
  const M7: Movie := Movie("7", "O Último Guerreiro",
    "Um samurai solitário busca redenção em um mundo esquecido.",
    "https://picsum.photos/id/1060/800/450", Some("https://picsum.photos/id/1060/1600/900"),
    Some("Ação"), None, Some(2021), Some("2h 00m"), Some(Film), Some(true), Some("Y9Jv1sLw5v4"))
  const M8: Movie := Movie("8", "Reino dos Céus",
    "Documentário sobre as aves mais raras do planeta.",
    "https://picsum.photos/id/1025/800/450", Some("https://picsum.photos/id/1025/1600/900"),
    Some("Natureza"), None, Some(2023), Some("50m"), Some(Series), Some(true), Some("F2fR4t7X70U"))

  /** The shipped catalogue, in its canonical order. */
  const MockMovies: seq<Movie> := [M1, M2, M3, M4, M5, M6, M7, M8]

  /** The genre pills, in the order they are offered ("Todos" first). */
  const GenreOptions: seq<string> := ["Todos", "Ação", "Aventura", "Ficção", "Fantasia", "Drama", "Natureza"]

  /** The brand tiles of the home screen. */
  const Brands: seq<Brand> := [
    Brand("1", "Cinema", None, "", "#003366", "#0055A4", Some("Ação")),
    Brand("2", "Natureza", None, "", "#004d00", "#008000", Some("Natureza")),
    Brand("3", "Ficção", None, "", "#008b8b", "#00ced1", Some("Ficção")),
    Brand("4", "Fantasia", None, "", "#1a1a2e", "#16213e", Some("Fantasia")),
    Brand("5", "Desenhos", None, "", "#d4af37", "#ffd700", Some("Aventura"))
  ]

  /** The ids of a list of titles, in order. */
  function Ids(movies: seq<Movie>): (r: seq<string>)
    ensures |r| == |movies|
    ensures forall k :: 0 <= k < |movies| ==> r[k] == movies[k].id
  {
    seq(|movies|, k requires 0 <= k < |movies| => movies[k].id)
  }

  /** The mode-level narrowing a view applies to a title. */
  predicate ModeKeeps(view: ViewState, watchlist: seq<string>, m: Movie)
  {
    match view
    case MOVIES => m.kind == Some(Film)
    case SERIES => m.kind == Some(Series)
    case ORIGINALS => m.isOriginal == Some(true)
    case WATCHLIST => m.id in watchlist
    case _ => true
  }

  function ModeFilter(view: ViewState, watchlist: seq<string>): Movie -> bool
  {
    m => ModeKeeps(view, watchlist, m)
  }

  /** Exact, case-sensitive category match; a title without a category never matches. */
  function GenreFilter(genre: string): Movie -> bool
  {
    (m: Movie) => m.category == Some(genre)
  }

  /** The genre filter applies unless it is the sentinel or the view is the watchlist. */
  predicate GenreApplies(view: ViewState, genre: string)
  {
    genre != All && view != WATCHLIST
  }

  /**
   * The titles shown for a view: the catalogue narrowed by the view's mode
   * predicate, then by exact category match unless GenreApplies is false.
   */
  function DisplayMovies(catalogue: seq<Movie>, view: ViewState, genre: string, watchlist: seq<string>): (r: seq<Movie>)
    ensures Subseq(r, catalogue)
    ensures forall m :: m in r <==>
      m in catalogue && ModeKeeps(view, watchlist, m) && (GenreApplies(view, genre) ==> m.category == Some(genre))
    ensures forall m :: multiset(r)[m] <= multiset(catalogue)[m]
    ensures NoDup(catalogue) ==> NoDup(r)
  {
    var byMode := ModeFilter(view, watchlist);
    var byGenre := GenreFilter(genre);
    var modeOnly := Filter(catalogue, byMode);
    FilterIsSubseq(catalogue, byMode);
    FilterMembersAll(catalogue, byMode);
    FilterCountsAll(catalogue, byMode);
    if GenreApplies(view, genre) then
      FilterIsSubseq(modeOnly, byGenre);
      SubseqTrans(Filter(modeOnly, byGenre), modeOnly, catalogue);
      FilterMembersAll(modeOnly, byGenre);
      FilterCountsAll(modeOnly, byGenre);
      FilterNoDup(catalogue, byMode);
      FilterNoDup(modeOnly, byGenre);
      Filter(modeOnly, byGenre)
    else
      FilterNoDup(catalogue, byMode);
      modeOnly
  }

  /** DisplayMovies as the one or two filters it applies. */
  lemma DisplayUnfold(catalogue: seq<Movie>, view: ViewState, genre: string, watchlist: seq<string>)
    ensures DisplayMovies(catalogue, view, genre, watchlist) ==
      if GenreApplies(view, genre) then Filter(Filter(catalogue, ModeFilter(view, watchlist)), GenreFilter(genre))
      else Filter(catalogue, ModeFilter(view, watchlist))
  {
  }

  lemma FilterMembersAll(s: seq<Movie>, p: Movie -> bool)
    ensures forall m :: m in Filter(s, p) <==> m in s && p(m)
  {
    forall m
      ensures m in Filter(s, p) <==> m in s && p(m)
    {
      FilterMembers(s, p, m);
    }
  }

  lemma FilterCountsAll(s: seq<Movie>, p: Movie -> bool)
    ensures forall m :: multiset(Filter(s, p))[m] <= multiset(s)[m]
  {
    forall m
      ensures multiset(Filter(s, p))[m] <= multiset(s)[m]
    {
      FilterCounts(s, p, m);
    }
  }

  /** The views that show the titles as a grid with a page title. */
  predicate IsGridView(view: ViewState)
    ensures IsGridView(view) <==> !(view.HOME? || view.SEARCH? || view.PLAYER?)
  {
    view in {MOVIES, SERIES, ORIGINALS, WATCHLIST, CATALOGUE}
  }

  /** The heading of a grid view. */
  function PageTitle(view: ViewState, genre: string): (r: string)
    ensures !IsGridView(view) ==> r == ""
    ensures view == CATALOGUE ==> r == if genre == All then "Catálogo" else genre
    ensures IsGridView(view) && view != CATALOGUE ==> r != "" && r != "Catálogo" && r !in GenreOptions
  {
    match view
    case MOVIES => "Filmes"
    case SERIES => "Séries"
    case ORIGINALS => "Originais P+"
    case WATCHLIST => "Minha Lista"
    case CATALOGUE => if genre != All then genre else "Catálogo"
    case _ => ""
  }

  /** Off the catalogue screen the heading is fixed: the selected genre never changes it. */
  lemma HeadingIgnoresGenre(view: ViewState, genre: string, other: string)
    requires view != CATALOGUE
    ensures PageTitle(view, genre) == PageTitle(view, other)
  {
  }

  /** The first five catalogue titles feature in the carousel (slice(0, 5)). */
  function HeroMovies(catalogue: seq<Movie>): (r: seq<Movie>)
    ensures |r| == if |catalogue| < 5 then |catalogue| else 5
    ensures r == catalogue[..|r|]
  {
    if |catalogue| < 5 then catalogue else catalogue[..5]
  }

  /** A titled row of the home screen. */
  datatype Row = Row(title: string, movies: seq<Movie>)

  /** The rows of the home screen below the carousel and the brand tiles. */
  function HomeRows(catalogue: seq<Movie>, watchlist: seq<string>): (rows: seq<Row>)
    ensures |rows| == if |watchlist| > 0 then 4 else 3
    ensures rows[0] == Row("Recomendado para Você", catalogue)
    ensures |watchlist| > 0 ==>
      rows[1] == Row("Minha Lista", DisplayMovies(catalogue, WATCHLIST, All, watchlist))
    ensures rows[|rows| - 2] == Row("Novidades no P+", Reverse(catalogue))
    ensures rows[|rows| - 1] == Row("Originais P+", DisplayMovies(catalogue, ORIGINALS, All, watchlist))
  {
    var recommended := Row("Recomendado para Você", catalogue);
    var mine := Row("Minha Lista", Filter(catalogue, (m: Movie) => m.id in watchlist));
    var newest := Row("Novidades no P+", Reverse(catalogue));
    var originals := Row("Originais P+", Filter(catalogue, (m: Movie) => m.isOriginal == Some(true)));
    FilterExt(catalogue, (m: Movie) => m.id in watchlist, ModeFilter(WATCHLIST, watchlist));
    FilterExt(catalogue, (m: Movie) => m.isOriginal == Some(true), ModeFilter(ORIGINALS, watchlist));
    if |watchlist| > 0 then [recommended, mine, newest, originals]
    else [recommended, newest, originals]
  }

  /** The category a brand tile filters by: only a present, non-empty filterCategory is forwarded. */
  function BrandTarget(b: Brand): (r: Option<string>)
    ensures r.Some? <==> b.filterCategory.Some? && b.filterCategory.value != ""
    ensures r.Some? ==> r.value == b.filterCategory.value
  {
    match b.filterCategory
    case Some(c) => if c != "" then Some(c) else None
    case None => None
  }

  // ---- Properties of the visible-titles computation ----

  /** The three narrowing views keep exactly the films, the series and the originals. */
  lemma ModePredicates(catalogue: seq<Movie>, watchlist: seq<string>)
    ensures forall m :: m in DisplayMovies(catalogue, MOVIES, All, watchlist) <==> m in catalogue && m.kind == Some(Film)
    ensures forall m :: m in DisplayMovies(catalogue, SERIES, All, watchlist) <==> m in catalogue && m.kind == Some(Series)
    ensures forall m :: m in DisplayMovies(catalogue, ORIGINALS, All, watchlist) <==> m in catalogue && m.isOriginal == Some(true)
    ensures forall m :: m in DisplayMovies(catalogue, WATCHLIST, All, watchlist) <==> m in catalogue && m.id in watchlist
  {
  }

  /** Views without a mode predicate show the whole catalogue, in order, when no genre is selected. */
  lemma NoModeNarrowing(catalogue: seq<Movie>, view: ViewState, watchlist: seq<string>)
    requires view in {HOME, SEARCH, CATALOGUE, PLAYER}
    ensures DisplayMovies(catalogue, view, All, watchlist) == catalogue
  {
    FilterTrue(catalogue, ModeFilter(view, watchlist));
  }

  /** With a genre selected outside the watchlist, every visible title has exactly that category. */
  lemma GenreIsExact(catalogue: seq<Movie>, view: ViewState, genre: string, watchlist: seq<string>)
    requires genre != All && view != WATCHLIST
    ensures forall k :: 0 <= k < |DisplayMovies(catalogue, view, genre, watchlist)| ==>
      DisplayMovies(catalogue, view, genre, watchlist)[k].category == Some(genre)
  {
  }

  /** The watchlist view does not depend on the selected genre. */
  lemma WatchlistIgnoresGenre(catalogue: seq<Movie>, genre1: string, genre2: string, watchlist: seq<string>)
    ensures DisplayMovies(catalogue, WATCHLIST, genre1, watchlist) == DisplayMovies(catalogue, WATCHLIST, genre2, watchlist)
  {
  }

  /** Selecting the sentinel removes the category step: the result is the mode filter alone. */
  lemma AllMeansNoGenreStep(catalogue: seq<Movie>, view: ViewState, watchlist: seq<string>)
    ensures DisplayMovies(catalogue, view, All, watchlist) == Filter(catalogue, ModeFilter(view, watchlist))
  {
  }

  /** Applying the same view twice to the visible titles changes nothing. */
  lemma DisplayIdempotent(catalogue: seq<Movie>, view: ViewState, genre: string, watchlist: seq<string>)
    ensures DisplayMovies(DisplayMovies(catalogue, view, genre, watchlist), view, genre, watchlist)
      == DisplayMovies(catalogue, view, genre, watchlist)
  {
    var byMode := ModeFilter(view, watchlist);
    var byGenre := GenreFilter(genre);
    var r := DisplayMovies(catalogue, view, genre, watchlist);
    FilterTrue(r, byMode);
    if GenreApplies(view, genre) {
      FilterTrue(Filter(r, byMode), byGenre);
    }
  }

  // ---- The shipped catalogue ----

  /** The catalogue ids are "1" to "8", each once. */
  lemma MockMoviesIds()
    ensures Ids(MockMovies) == ["1", "2", "3", "4", "5", "6", "7", "8"]
    ensures NoDup(MockMovies)
  {
    assert NoDup(Ids(MockMovies));
  }

  /** Filtering the shipped catalogue, title by title. */
  lemma FilterMockMovies(p: Movie -> bool)
    ensures Filter(MockMovies, p) ==
      Keep(M1, p) + (Keep(M2, p) + (Keep(M3, p) + (Keep(M4, p) +
      (Keep(M5, p) + (Keep(M6, p) + (Keep(M7, p) + Keep(M8, p)))))))
  {
    var t8 := [M8];
    var t7 := [M7] + t8;
    var t6 := [M6] + t7;
    var t5 := [M5] + t6;
    var t4 := [M4] + t5;
    var t3 := [M3] + t4;
    var t2 := [M2] + t3;
    var t1 := [M1] + t2;
    FilterCons(M8, [], p);
    FilterCons(M7, t8, p);
    FilterCons(M6, t7, p);
    FilterCons(M5, t6, p);
    FilterCons(M4, t5, p);
    FilterCons(M3, t4, p);
    FilterCons(M2, t3, p);
    FilterCons(M1, t2, p);
    assert t1 == MockMovies;
  }

  lemma IdsOfFour(a: Movie, b: Movie, c: Movie, d: Movie)
    ensures Ids([a, b, c, d]) == [a.id, b.id, c.id, d.id]
  {
  }

  /** On the shipped catalogue the series view shows ids 2, 3, 6 and 8, in that order. */
  lemma SeriesScenario()
    ensures Ids(DisplayMovies(MockMovies, SERIES, All, [])) == ["2", "3", "6", "8"]
  {
    SeriesDisplay();
    IdsOfFour(M2, M3, M6, M8);
  }

  lemma SeriesTitles()
    ensures Filter(MockMovies, ModeFilter(SERIES, [])) == [M2, M3, M6, M8]
  {
    FilterMockMovies(ModeFilter(SERIES, []));
  }

  lemma SeriesDisplay()
    ensures DisplayMovies(MockMovies, SERIES, All, []) == [M2, M3, M6, M8]
  {
    SeriesTitles();
    DisplayUnfold(MockMovies, SERIES, All, []);
  }

  /** The films of the shipped catalogue. */
  lemma MoviesScenario()
    ensures Ids(DisplayMovies(MockMovies, MOVIES, All, [])) == ["1", "4", "5", "7"]
  {
    FilmDisplay();
    IdsOfFour(M1, M4, M5, M7);
  }

  lemma FilmTitles()
    ensures Filter(MockMovies, ModeFilter(MOVIES, [])) == [M1, M4, M5, M7]
  {
    FilterMockMovies(ModeFilter(MOVIES, []));
  }

  lemma FilmDisplay()
    ensures DisplayMovies(MockMovies, MOVIES, All, []) == [M1, M4, M5, M7]
  {
    FilmTitles();
    DisplayUnfold(MockMovies, MOVIES, All, []);
  }

  /** The originals of the shipped catalogue. */
  lemma OriginalsScenario()
    ensures Ids(DisplayMovies(MockMovies, ORIGINALS, All, [])) == ["2", "3", "7", "8"]
  {
    OriginalDisplay();
    IdsOfFour(M2, M3, M7, M8);
  }

  lemma OriginalTitles()
    ensures Filter(MockMovies, ModeFilter(ORIGINALS, [])) == [M2, M3, M7, M8]
  {
    FilterMockMovies(ModeFilter(ORIGINALS, []));
  }

  lemma OriginalDisplay()
    ensures DisplayMovies(MockMovies, ORIGINALS, All, []) == [M2, M3, M7, M8]
  {
    OriginalTitles();
    DisplayUnfold(MockMovies, ORIGINALS, All, []);
  }

  /**
   * A watchlist filled by adding "5" and then "2" is shown in catalogue order,
   * 2 before 5, whatever genre is selected.
   */
  lemma WatchlistScenario(genre: string)
    ensures Ids(DisplayMovies(MockMovies, WATCHLIST, genre, ["5", "2"])) == ["2", "5"]
  {
    SavedTitles();
    DisplayUnfold(MockMovies, WATCHLIST, genre, ["5", "2"]);
    assert Ids([M2, M5]) == ["2", "5"];
  }

  lemma SavedTitles()
    ensures Filter(MockMovies, ModeFilter(WATCHLIST, ["5", "2"])) == [M2, M5]
  {
    FilterMockMovies(ModeFilter(WATCHLIST, ["5", "2"]));
  }

  /** The "Natureza" genre shows two titles of the shipped catalogue. */
  lemma NatureScenario()
    ensures Ids(DisplayMovies(MockMovies, CATALOGUE, "Natureza", [])) == ["2", "8"]
  {
    NatureDisplay();
    assert Ids([M2, M8]) == ["2", "8"];
  }

  lemma NatureDisplay()
    ensures DisplayMovies(MockMovies, CATALOGUE, "Natureza", []) == [M2, M8]
  {
    assert Filter(MockMovies, ModeFilter(CATALOGUE, [])) == MockMovies by {
      FilterTrue(MockMovies, ModeFilter(CATALOGUE, []));
    }
    DisplayUnfold(MockMovies, CATALOGUE, "Natureza", []);
    NatureTitles();
  }

  /** The titles of category "Natureza", in catalogue order. */
  lemma NatureTitles()
    ensures Filter(MockMovies, GenreFilter("Natureza")) == [M2, M8]
  {
    FilterMockMovies(GenreFilter("Natureza"));
  }

  /** With the sentinel selected the catalogue view shows all eight shipped titles. */
  lemma AllScenario()
    ensures DisplayMovies(MockMovies, CATALOGUE, All, []) == MockMovies
    ensures |DisplayMovies(MockMovies, CATALOGUE, All, [])| == 8
  {
    NoModeNarrowing(MockMovies, CATALOGUE, []);
  }

  /** A catalogue title of the given genre makes that genre's catalogue view non-empty. */
  lemma GenreShowsTitle(genre: string, m: Movie)
    requires m in MockMovies && m.category == Some(genre)
    ensures m in DisplayMovies(MockMovies, CATALOGUE, genre, [])
  {
    assert ModeKeeps(CATALOGUE, [], m);
    var r := DisplayMovies(MockMovies, CATALOGUE, genre, []);
    assert m in r <==> m in MockMovies && (GenreApplies(CATALOGUE, genre) ==> m.category == Some(genre));
  }

  /** Every brand tile forwards a genre offered by the pills, and that genre shows at least one title. */
  lemma BrandsReachNonEmptyGenres()
    ensures forall k :: 0 <= k < |Brands| ==>
      BrandTarget(Brands[k]).Some? && BrandTarget(Brands[k]).value in GenreOptions &&
      DisplayMovies(MockMovies, CATALOGUE, BrandTarget(Brands[k]).value, []) != []
  {
    forall k | 0 <= k < |Brands|
      ensures BrandTarget(Brands[k]).Some? && BrandTarget(Brands[k]).value in GenreOptions
      ensures DisplayMovies(MockMovies, CATALOGUE, BrandTarget(Brands[k]).value, []) != []
    {
      var (genre, m) := if k == 0 then ("Ação", M5) else if k == 1 then ("Natureza", M2)
        else if k == 2 then ("Ficção", M3) else if k == 3 then ("Fantasia", M4) else ("Aventura", M1);
      assert BrandTarget(Brands[k]) == Some(genre);
      GenreShowsTitle(genre, m);
    }
  }

  // ---- Grid flag and page title ----

  /**
   * A heading is shown exactly on grid views, except a catalogue filtered by
   * the empty genre; with a pill genre selected, distinct grid views have
   * distinct headings.
   */
  lemma PageTitleShownOnGrids(view: ViewState, other: ViewState, genre: string)
    ensures PageTitle(view, genre) != "" <==> IsGridView(view) && !(view == CATALOGUE && genre == "")
    ensures genre in GenreOptions && IsGridView(view) && IsGridView(other) && view != other ==>
      PageTitle(view, genre) != PageTitle(other, genre)
  {
  }
}
