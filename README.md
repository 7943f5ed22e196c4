# PINDORAMAPLUS front end — a verified model of its view-state engine

PINDORAMAPLUS is a single-page streaming catalogue written in React. This
project models its core in Dafny and proves properties of the model:

- **The application root.** It holds the current screen, the selected genre,
  the watchlist, the selected title and whether the player is open. The
  handlers that update this state are modelled, and so are the screen-change
  effect that resets the genre and the values derived from the state: the
  visible titles, the grid flag, the page heading, the home rows and the
  detail modal.
- **The AI search screen.** This covers the submit handler, with its
  blank-query guard and its loading, error and results flags. It also
  covers the mapping of the service's recommendation records to titles,
  which includes the visualKey to picture table, the `ai-<index>`
  identifiers and the match score.
- **The home carousel.** This covers the rotating index, the indicator
  clicks, the lookup of the current title and the display fallbacks.
- **The data model.** These are the records and the screen enumeration the
  rest is built on.

Modules:

| file | module | contents |
|---|---|---|
| types.dfy | `Types` | `Movie`, `Brand`, `ViewState`, `Recommendation`, `AIRecognitionResponse` |
| seqs.dfy | `Seqs` | `Array.prototype.filter`, removal of every occurrence, `reverse`, subsequences, and the facts about them |
| decimal.dfy | `Decimal` | the numeral a template literal renders for a non-negative integer, with its parse round trip |
| jstext.dfy | `JsText` | `String.prototype.trim` over ECMAScript white space and line terminators |
| catalogue.dfy | `Catalogue` | the shipped catalogue, the visible-titles function, grid flag, page heading, home rows, brand tiles |
| watchlist.dfy | `Watchlist` | the watchlist toggle update |
| hero.dfy | `Hero` | class `Carousel` and the carousel's display |
| session.dfy | `App` | class `Session`: the root's state and handlers, and the detail modal |
| aisearch.dfy | `AISearch` | the service as seen from the screen, the record mapping, class `SearchPanel` |

Modelling choices:

- **Catalogue data.** `Catalogue.MockMovies` holds the eight shipped
  titles verbatim. The visible-titles function takes the catalogue as a
  parameter, so its general properties hold for any list, and scenario
  lemmas pin down its results on the shipped list.
- **The screen-change effect.** React runs this effect only when the
  screen really changes. `App.Session.SetView` therefore resets the genre
  only when the new screen differs from the old one and is not the
  catalogue. A pill-selected genre survives a repeated click on the
  current screen.
- **JavaScript semantics.**
  - `||` falls back on `""` and on `0` as well as on an absent value. This
    covers the backdrop, the year and the duration, in both the carousel
    and the modal.
  - An absent `type` shows the label "Série".
  - `(prev + 1) % movies.length` is `NaN` on an empty list, and `NaN + 1`
    stays `NaN`. `Hero.Index` has a `NotANumber` case for this.
  - On non-negative operands JavaScript's `%` and Dafny's agree, and the
    index is never negative.
- **Randomness.** `Math.floor(Math.random() * 9)` is a parameter of
  subset type `AISearch.Roll` (0 to 8). The mapping takes a function from
  position to roll.
- **The asynchronous handler.** It is split into its synchronous part
  (`Submit`) and its completion (`Complete`). `HandleSearch` runs one after
  the other.
- **The service.** The model has no network. `AISearch.CallOutcome` says
  whether the model call failed or what its text parsed to. The
  service's own behaviour is kept: without a key, or on any failure, it
  answers with an empty list and not with an error.

## Model

| member | source | states |
|---|---|---|
| Types.ViewStateIsClosed | types.ts:26-35 | the screen enumeration has exactly eight distinct values, PLAYER among them |
| Catalogue.MockMoviesIds | App.tsx:13-22 | the shipped titles have ids "1" to "8", each once |
| Catalogue.DisplayMovies | App.tsx:86-109 | the visible titles are a subsequence of the catalogue (same order, nothing added); a title is visible iff it is in the catalogue, passes the screen's mode predicate and, unless the genre is the sentinel or the screen is the watchlist, has exactly the selected category; no title occurs more often than in the catalogue; a duplicate-free catalogue gives a duplicate-free result |
| Catalogue.ModePredicates | App.tsx:90-97 | MOVIES keeps exactly the films, SERIES the series, ORIGINALS the originals, WATCHLIST the catalogue titles whose id is saved |
| Catalogue.NoModeNarrowing | App.tsx:98-101 | HOME, SEARCH, CATALOGUE and PLAYER with the sentinel genre show the whole catalogue in order |
| Catalogue.GenreIsExact | App.tsx:103-106 | with a genre other than the sentinel, off the watchlist screen, every visible title's category equals the genre |
| Catalogue.WatchlistIgnoresGenre | App.tsx:96-97 | the watchlist screen shows the same titles whatever genre is selected |
| Catalogue.AllMeansNoGenreStep | App.tsx:104 | with the sentinel genre only the mode predicate filters |
| Catalogue.DisplayIdempotent | App.tsx:86-109 | filtering the visible titles again with the same state changes nothing |
| Catalogue.SeriesScenario | App.tsx:14-21 | on the shipped catalogue the series screen shows ids 2, 3, 6, 8 |
| Catalogue.MoviesScenario | App.tsx:14-21 | the films screen shows ids 1, 4, 5, 7 |
| Catalogue.OriginalsScenario | App.tsx:14-21 | the originals screen shows ids 2, 3, 7, 8 |
| Catalogue.WatchlistScenario | App.tsx:96-97 | a watchlist ["5", "2"] shows ids 2 then 5, catalogue order and not insertion order, for any genre |
| Catalogue.NatureScenario | App.tsx:103-106 | the catalogue filtered by "Natureza" shows ids 2 and 8 |
| Catalogue.AllScenario | App.tsx:98-106 | the catalogue screen with the sentinel genre shows all eight titles in order |
| Catalogue.GenreShowsTitle | App.tsx:103-106 | a shipped title of a genre is visible on the catalogue screen filtered by that genre |
| Catalogue.BrandTarget | components/BrandNav.tsx:22 | a brand tile forwards its category iff it is present and non-empty |
| Catalogue.BrandsReachNonEmptyGenres | components/BrandNav.tsx:8-14 | every shipped brand tile forwards one of the pill genres, and that genre shows at least one shipped title |
| Catalogue.IsGridView | App.tsx:112 | the grid flag holds exactly on the screens other than HOME, SEARCH and PLAYER |
| Catalogue.PageTitle | App.tsx:115-124 | no heading off the grid screens; the catalogue's heading is the genre, or "Catálogo" for the sentinel; every other grid screen has a non-empty heading that is neither "Catálogo" nor a genre |
| Catalogue.HeadingIgnoresGenre | App.tsx:117-120 | off the catalogue screen the heading is fixed: two genres give the same heading |
| Catalogue.PageTitleShownOnGrids | App.tsx:112-124 | a heading is shown iff the screen is a grid and not the catalogue with an empty genre; for a genre of the list, two different grid screens never share a heading |
| Catalogue.HeroMovies | App.tsx:137 | the carousel gets the first five titles, or all of them when there are fewer |
| Catalogue.HomeRows | App.tsx:144-165 | the home rows are the whole catalogue, the saved titles (only when the watchlist is non-empty), the catalogue reversed and the originals, in that order |
| Watchlist.Toggled | App.tsx:72-78 | the toggled id's membership flips; no other id's membership changes; an absent id is appended at the end; apart from the toggled id the list is unchanged, order included; a duplicate-free list stays duplicate-free |
| Watchlist.ToggleTwiceAbsent | App.tsx:72-78 | toggling an absent id twice restores the list exactly |
| Watchlist.ToggleTwicePresent | App.tsx:72-78 | toggling a present id twice restores every membership but moves the id to the end |
| Watchlist.ToggleTwiceMayReorder | App.tsx:72-78 | toggling "1" twice in ["1", "2"] gives ["2", "1"] |
| Watchlist.ToggleScenario | App.tsx:72-78 | saving "5" then "2" gives ["5", "2"] |
| App.PlayerIsNeverNavigated | components/Navbar.tsx:12-17 | PLAYER is not among the screens the navigation bar (components/Navbar.tsx:25, 37, 55), the brand tiles (App.tsx:82) and the close buttons (App.tsx:171, 264) select; `App.Session.SetView` requires one of these targets, so every handler keeps the root off PLAYER |
| App.DetailOf | App.tsx:298-347 | the modal shows the backdrop or else the image, the year or else 2024, the duration or else "2h 10m", the title, description and category, and whether the id is saved |
| App.Session.constructor | App.tsx:36-40 | the root starts on HOME with the sentinel genre, an empty watchlist, nothing selected and the player closed |
| App.Session.SetView | App.tsx:52-57 | for a screen the interface can select, the screen becomes v and the state stays valid (no repeated watchlist id, never PLAYER); the genre resets to the sentinel iff the screen changed to something other than CATALOGUE; nothing else changes |
| App.Session.SelectGenre | App.tsx:191-196 | a pill sets the genre and nothing else |
| App.Session.ToggleWatchlist | App.tsx:72-78 | the watchlist becomes the toggled list and stays duplicate-free; nothing else changes |
| App.Session.HandleBrandSelect | App.tsx:80-83 | afterwards the screen is CATALOGUE and the genre is the given category |
| App.Session.SelectBrand | components/BrandNav.tsx:22 | a tile with a non-empty category opens the catalogue on it; any other tile changes nothing |
| App.Session.HandleMovieClick | App.tsx:59-61 | clicking a title selects it and changes nothing else |
| App.Session.HandlePlay | App.tsx:67-70 | the title is selected and playing, so the player shows and the modal does not |
| App.Session.CloseDetail | App.tsx:63-65 | the selection is cleared, so neither the modal nor the player shows |
| App.Session.ClosePlayer | App.tsx:355-358 | only the playing flag is cleared, so the modal shows again iff a title is selected |
| App.Session.Visible | App.tsx:111 | the current grid is the visible-titles function on the shipped catalogue and the current screen, genre and watchlist: shipped titles in catalogue order, each once, with exact genre matching off the watchlist screen |
| App.Session.Title | App.tsx:115-124 | the heading is the page-title function of the current screen and genre; a non-empty heading appears only on grid screens; on the catalogue it is the genre or "Catálogo" |
| App.Session.ShowsDetail | App.tsx:287 | the modal shows only with a selected title and never together with the player |
| App.Session.ShowsPlayer | App.tsx:355 | the player shows only with a selected title while playing |
| App.Session.OpenDetail | App.tsx:287-347 | the modal is open iff a title is selected and the player is closed, and then shows `DetailOf` the selected title (with its fallbacks); its saved state is the id's membership in the watchlist |
| App.DetailAndPlayerExclusive | App.tsx:287-355 | the modal and the player are never shown together, and with a title selected exactly one of them is |
| App.PlayThenCloseScenario | App.tsx:67-70 | playing a title and closing the player brings back that title's modal |
| App.BrandThenHomeScenario | App.tsx:52-57 | the nature tile shows ids 2 and 8 under the heading "Natureza"; going home afterwards resets the genre |
| App.GenreAcrossScreensScenario | App.tsx:52-57 | exercises the screen-change rule on its own: a genre set on the films grid survives a direct change to the catalogue but not a change to the series (the interface itself reaches the catalogue only through a brand tile, which sets the genre first) |
| App.WatchlistScreenScenario | App.tsx:96-104 | saving titles 5 then 2 and opening the watchlist after picking a genre shows 2 then 5 |
| App.AiTitleDetail | App.tsx:334-336 | an AI title in the modal shows its large picture, year 2024, duration "2h 10m" and its genre |
| App.AiTitleNeverOnWatchlistScreen | App.tsx:96-97 | an AI title, saved or not, never appears on the watchlist screen, which lists catalogue titles only |
| Hero.Next | components/Hero.tsx:18 | for a non-empty list an index in range stays in range, steps forward by one and wraps from the last title to 0; an empty list or NaN gives NaN |
| Hero.AdvancedForward | components/Hero.tsx:18 | fewer steps than the titles left move forward by that many |
| Hero.AdvanceFullCycle | components/Hero.tsx:18 | as many steps as there are titles come back to the starting title |
| Hero.AdvancedAfter | components/Hero.tsx:18 | j + k steps are k steps after j steps |
| Hero.Carousel.constructor | components/Hero.tsx:13 | the carousel starts at index 0 |
| Hero.Carousel.Advance | components/Hero.tsx:17-19 | the index becomes the step of the old index, and stays in range for a non-empty list |
| Hero.Carousel.SelectIndicator | components/Hero.tsx:96 | clicking indicator idx makes idx the index |
| Hero.Carousel.Current | components/Hero.tsx:23 | the current title exists iff the index is a number within the list, and is the title at that index |
| Hero.Render | components/Hero.tsx:23-27 | the carousel renders iff a current title exists, and then shows that title's slide; its saved state is that title's id's membership in the watchlist |
| Hero.EmptyNeverRenders | components/Hero.tsx:18-25 | an empty carousel renders nothing and its step gives NaN |
| Hero.OrString | components/Hero.tsx:34 | `value \|\| fallback`: an absent or empty string falls back |
| Hero.OrNumber | components/Hero.tsx:53 | `value \|\| fallback`: an absent or zero number falls back |
| Hero.KindLabel | components/Hero.tsx:51 | the label is "Filme" iff the type is film, "Série" otherwise |
| Hero.SlideOf | components/Hero.tsx:33-57 | the slide shows the backdrop or else the image, the year or else 2024, the duration or else "2h 15m" (each fallback taken on an absent, empty or zero value), the title, description and category, "Filme" only for a film, and whether the id is saved |
| Hero.Carousel.IsActive | components/Hero.tsx:98 | a highlighted indicator is the one at the current index, whose title is the current title |
| Hero.ExactlyOneActive | components/Hero.tsx:93-99 | a non-empty carousel highlights exactly one indicator, and the title at it is the current title |
| App.CarouselAndModalFallbacks | components/Hero.tsx:33-57 | the carousel and the modal agree on picture, year and saved state, and their durations agree iff the title has a non-empty duration ("2h 15m" against "2h 10m" otherwise) |
| AISearch.GetAIRecommendations | services/geminiService.ts:8-59 | no key or a failed call gives an empty list; with a key, a parsed reply is handed back unchanged; only a parsed reply without the array is a reply without the array |
| AISearch.OverridesAreLookup | components/AISearch.tsx:30-38 | the chain of independent ifs (last match wins) agrees with a first-match table lookup when the keys are distinct |
| AISearch.ImageIdFor | components/AISearch.tsx:30-38 | nature 28, city 44, space 54, fantasy 88, action 200, romance 320, horror 666, cartoon 111, any other key 10 |
| AISearch.KnownKeysDistinctImages | components/AISearch.tsx:30-38 | distinct known keys get distinct pictures, none the default one |
| AISearch.ImageAndBackdropAgree | components/AISearch.tsx:44-45 | each picture address determines its identifier, and an image address is never a backdrop address |
| AISearch.AiId | components/AISearch.tsx:41 | the identifier is "ai-" followed by the index's numeral |
| AISearch.AiIdsDistinct | components/AISearch.tsx:41 | distinct positions get distinct identifiers |
| AISearch.AiIdsOutsideCatalogue | components/AISearch.tsx:41 | no generated identifier is a shipped title's identifier |
| AISearch.ToMovie | components/AISearch.tsx:40-48 | id "ai-index", title and description copied, category is the genre, image and backdrop from the same picture, match score in [90, 98], every other attribute absent |
| AISearch.MapRecommendations | components/AISearch.tsx:28-49 | one title per record, in order, the i-th built from the i-th record at position i, no two alike |
| AISearch.MappingPreservesRecords | components/AISearch.tsx:42-46 | titles, descriptions and genres come through in order, and no mapped title is a shipped one |
| AISearch.SameKeySamePicture | components/AISearch.tsx:37 | records that all have visualKey "horror" give as many titles, all with picture 666 |
| AISearch.NatureRecordImage | components/AISearch.tsx:31 | a "nature" record gets picture 28 at 500x281 and 1200x675 |
| AISearch.SearchPanel.constructor | components/AISearch.tsx:12-15 | empty query, not loading, no results, no error |
| AISearch.SearchPanel.SetQuery | components/AISearch.tsx:73 | typing changes only the query |
| AISearch.SearchPanel.Submit | components/AISearch.tsx:19-23 | the search starts iff the query is not all white space; a blank query changes nothing; a started search is loading with no error and no results |
| AISearch.SearchPanel.Complete | components/AISearch.tsx:25-56 | loading ends; a reply with the array gives the mapped results; a reply without it gives the failure message and keeps the results |
| AISearch.SearchPanel.HandleSearch | components/AISearch.tsx:17-57 | a blank query changes nothing; otherwise loading ends, and there is either no error and the mapped results, or the failure message and no results |
| AISearch.BlankQueryScenario | components/AISearch.tsx:19 | a query of spaces and line breaks starts nothing and shows no error |
| AISearch.NoKeyScenario | services/geminiService.ts:9-12 | without an API key a search ends with no results and no error |
| JsText.TrimEmptyIffBlank | components/AISearch.tsx:19 | a query trims to the empty string iff every character is ECMAScript white space or a line terminator |
| Decimal.ParseShow | components/AISearch.tsx:41-45 | the numeral a template literal renders reads back as the number |
| Decimal.ShowInjective | components/AISearch.tsx:41 | distinct numbers render as distinct numerals |

## Left out

- The intro animation's timer and `window.scrollTo` are browser effects with no state the model needs (App.tsx:44-49, 53).
- The carousel's `setInterval` lifecycle and its eight-second period (components/Hero.tsx:16-21) are left out. Only the state transition that the callback applies is modelled.
- The render between `setView` and the effect that resets the genre is left out. For one frame that render still shows the old genre, and `App.Session.SetView` states the state after the effect.
- Stale or out-of-order completions of concurrent searches are not modelled. The handler does not guard against them, and `HandleSearch` runs one search to completion.
- The prompt, the model name and the response schema sent to the generative model are left out (services/geminiService.ts:15-51). JSON parsing is not modelled either: parsed text is either a record list or an object without the array. Records missing one of their four fields are not modelled, because the type declares all four as strings.
- `Math.random` is not modelled as floating point. The draw is an integer roll from 0 to 8.
- The `GENRE_STYLES` gradients and shadows, the icons and the layout of Navbar, ContentRow, VideoPlayer and IntroAnimation are presentation only. The key set of `GENRE_STYLES` is `Catalogue.GenreOptions`.
- The detail modal's fixed director and cast text is left out.
- AISearch.GetAIRecommendations: one would expect a transport or parse error to surface an error message on the screen. The code instead catches both in the service and answers with an empty list, so the screen shows neither results nor an error. Only an answer without the array reaches the screen's error path. The model follows the code.
- App.Session.SetView: accepts CATALOGUE from any screen. The interface reaches the catalogue only through `handleBrandSelect` (App.tsx:80-83), shown only on HOME, which sets the genre first; the model over-approximates that single call site, and `App.GenreAcrossScreensScenario` uses the extra freedom to exercise the screen-change rule alone.
- App.Session.SetView: one would expect the genre to reset on every screen change to anything but the catalogue. The code resets it from an effect keyed on the screen, which does not run when the screen is set to the one already shown. The model follows the code.
- AISearch.ToMovie: the match score is stated as 90 plus the roll. The bounds [90, 98] follow from the roll's range and not from the floating-point product.
