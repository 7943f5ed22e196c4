// The records and the enumeration the catalogue front end is built on.

module Types {

  datatype Option<+T> = None | Some(value: T)

  /** The kind of a title: a film or a series. */
  datatype Kind = Film | Series

  /**
   * A catalogue entry. Only id, title, description and image are required;
   * every other attribute may be absent.
   */
  datatype Movie = Movie(
    id: string,
    title: string,
    description: string,
    image: string,
    backdrop: Option<string>,
    category: Option<string>,
    matchScore: Option<int>,
    year: Option<int>,
    duration: Option<string>,
    kind: Option<Kind>,
    isOriginal: Option<bool>,
    videoId: Option<string>)

  /** A brand tile; clicking it filters the catalogue by filterCategory when one is given. */
  datatype Brand = Brand(
    id: string,
    name: string,
    videoUrl: Option<string>,
    image: string,
    colorStart: string,
    colorEnd: string,
    filterCategory: Option<string>)

  /** The top-level screens of the application: a closed enumeration. */
  datatype ViewState = HOME | SEARCH | WATCHLIST | MOVIES | SERIES | ORIGINALS | CATALOGUE | PLAYER

  /** Every view state, in declaration order. */
  const AllViewStates: seq<ViewState> :=
    [HOME, SEARCH, WATCHLIST, MOVIES, SERIES, ORIGINALS, CATALOGUE, PLAYER]

  /** One recommendation record as the AI service returns it: four strings. */
  datatype Recommendation = Recommendation(
    title: string,
    description: string,
    genre: string,
    visualKey: string)

  /** The structured answer of the AI service. */
  datatype AIRecognitionResponse = AIRecognitionResponse(recommendations: seq<Recommendation>)

  /** The enumeration has exactly eight values, each listed once. */
  lemma ViewStateIsClosed(v: ViewState)
    ensures v in AllViewStates
    ensures |AllViewStates| == 8
    ensures forall i, j :: 0 <= i < j < |AllViewStates| ==> AllViewStates[i] != AllViewStates[j]
  {
  }
}
