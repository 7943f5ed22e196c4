// The AI search screen: the query form's submit handler with its loading,
// error and results state, and the mapping of the service's recommendation
// records to catalogue titles.

module AISearch {
  import opened Types
  import opened Seqs
  import opened Decimal
  import opened JsText
  import Catalogue

  // ---- The recommendation service, as seen from the screen ----

  /**
   * What a call to the generative model ends in: a failure (transport error,
   * or text that is not JSON), or parsed text.
   */
  datatype CallOutcome = Failed | Parsed(reply: Reply)

  /**
   * Parsed text as the screen uses it: an object carrying a recommendations
   * array, or an object without one (which is what an empty answer, read as
   * "{}", parses to).
   */
  datatype Reply = Recommendations(response: AIRecognitionResponse) | MissingArray

  /**
   * The service wrapper: without an API key, or when the call fails, it
   * answers with an empty list instead of failing; otherwise it hands back
   * what the model's text parses to, unchecked.
   */
  function GetAIRecommendations(hasKey: bool, outcome: CallOutcome): (r: Reply)
    ensures !hasKey || outcome.Failed? ==> r == Recommendations(AIRecognitionResponse([]))
    ensures hasKey && outcome.Parsed? ==> r == outcome.reply
    ensures r.MissingArray? <==> hasKey && outcome == Parsed(MissingArray)
  {
    if !hasKey then Recommendations(AIRecognitionResponse([]))
    else match outcome
      case Failed => Recommendations(AIRecognitionResponse([]))
      case Parsed(reply) => reply
  }

  // ---- visualKey to image identifier ----

  /** The overrides of the image identifier, in the order the handler tests them. */
  const VisualKeyTable: seq<(string, nat)> := [
    ("nature", 28), ("city", 44), ("space", 54), ("fantasy", 88),
    ("action", 200), ("romance", 320), ("horror", 666), ("cartoon", 111)]

  /** The identifier of a key no entry matches. */
  const DefaultImageId: nat := 10

  predicate DistinctKeys(table: seq<(string, nat)>)
  {
    forall i, j :: 0 <= i < j < |table| ==> table[i].0 != table[j].0
  }

  /** The handler's chain of independent ifs: every matching entry overwrites, so the last match wins. */
  function ApplyOverrides(table: seq<(string, nat)>, key: string, acc: nat): nat
  {
    if |table| == 0 then acc
    else ApplyOverrides(table[1..], key, if table[0].0 == key then table[0].1 else acc)
  }

  /** A table lookup: the first matching entry, or the default. */
  function Lookup(table: seq<(string, nat)>, key: string, default: nat): nat
  {
    if |table| == 0 then default
    else if table[0].0 == key then table[0].1
    else Lookup(table[1..], key, default)
  }

  /** With no matching entry the chain keeps what it started from. */
  lemma {:induction false} NoMatchKeepsValue(table: seq<(string, nat)>, key: string, acc: nat)
    ensures (forall k :: 0 <= k < |table| ==> table[k].0 != key) ==> ApplyOverrides(table, key, acc) == acc
  {
    if |table| > 0 && forall k :: 0 <= k < |table| ==> table[k].0 != key {
      NoMatchKeepsValue(table[1..], key, acc);
    }
  }

  /** When the keys are distinct, last-match-wins and first-match-wins agree. */
  lemma {:induction false} OverridesAreLookup(table: seq<(string, nat)>, key: string, acc: nat)
    requires DistinctKeys(table)
    ensures ApplyOverrides(table, key, acc) == Lookup(table, key, acc)
  {
    if |table| > 0 {
      if table[0].0 == key {
        NoMatchKeepsValue(table[1..], key, table[0].1);
      } else {
        OverridesAreLookup(table[1..], key, acc);
      }
    }
  }

  /** The image identifier for a visualKey. */
  function ImageIdFor(key: string): (r: nat)
    ensures r == Lookup(VisualKeyTable, key, DefaultImageId)
    ensures key == "nature" ==> r == 28
    ensures key == "city" ==> r == 44
    ensures key == "space" ==> r == 54
    ensures key == "fantasy" ==> r == 88
    ensures key == "action" ==> r == 200
    ensures key == "romance" ==> r == 320
    ensures key == "horror" ==> r == 666
    ensures key == "cartoon" ==> r == 111
    ensures (forall k :: 0 <= k < |VisualKeyTable| ==> VisualKeyTable[k].0 != key) ==> r == DefaultImageId
  {
    OverridesAreLookup(VisualKeyTable, key, DefaultImageId);
    NoMatchKeepsValue(VisualKeyTable, key, DefaultImageId);
    ApplyOverrides(VisualKeyTable, key, DefaultImageId)
  }

  /** Distinct known keys give distinct images, none of them the default one. */
  lemma KnownKeysDistinctImages(i: nat, j: nat)
    requires i < |VisualKeyTable| && j < |VisualKeyTable|
    ensures ImageIdFor(VisualKeyTable[i].0) == VisualKeyTable[i].1
    ensures ImageIdFor(VisualKeyTable[i].0) != DefaultImageId
    ensures i != j ==> ImageIdFor(VisualKeyTable[i].0) != ImageIdFor(VisualKeyTable[j].0)
  {
  }

  // ---- Image addresses and identifiers ----

  const PicsumPrefix: string := "https://picsum.photos/id/"

  /** `https://picsum.photos/id/${imageId}/500/281` */
  function ImageUrl(imageId: nat): string
  {
    PicsumPrefix + Show(imageId) + "/500/281"
  }

  /** `https://picsum.photos/id/${imageId}/1200/675` */
  function BackdropUrl(imageId: nat): string
  {
    PicsumPrefix + Show(imageId) + "/1200/675"
  }

  /** The image identifier of an address built from prefix, numeral and a "/..." suffix. */
  lemma UrlDeterminesId(a: nat, b: nat, x: string, y: string)
    requires |x| > 0 && x[0] == '/' && |y| > 0 && y[0] == '/'
    requires PicsumPrefix + Show(a) + x == PicsumPrefix + Show(b) + y
    ensures a == b && x == y
  {
    var u := PicsumPrefix + Show(a) + x;
    assert u[|PicsumPrefix|..] == Show(a) + x;
    assert (PicsumPrefix + Show(b) + y)[|PicsumPrefix|..] == Show(b) + y;
    NumeralPrefix(Show(a), Show(b), x, y);
    if a != b {
      ShowInjective(a, b);
    }
  }

  /** Image and backdrop show the same picture at two sizes: each address names its identifier. */
  lemma ImageAndBackdropAgree(a: nat, b: nat)
    ensures ImageUrl(a) == ImageUrl(b) <==> a == b
    ensures BackdropUrl(a) == BackdropUrl(b) <==> a == b
    ensures ImageUrl(a) != BackdropUrl(b)
  {
    if ImageUrl(a) == ImageUrl(b) {
      UrlDeterminesId(a, b, "/500/281", "/500/281");
    }
    if BackdropUrl(a) == BackdropUrl(b) {
      UrlDeterminesId(a, b, "/1200/675", "/1200/675");
    }
    if ImageUrl(a) == BackdropUrl(b) {
      UrlDeterminesId(a, b, "/500/281", "/1200/675");
    }
  }

  /** `ai-${index}` */
  function AiId(index: nat): (r: string)
    ensures |r| > 3 && r[..3] == "ai-" && r[3..] == Show(index)
  {
    "ai-" + Show(index)
  }

  /** Distinct positions get distinct identifiers. */
  lemma AiIdsDistinct(i: nat, j: nat)
    requires i != j
    ensures AiId(i) != AiId(j)
  {
    ShowInjective(i, j);
  }

  /** No generated identifier clashes with a catalogue title's identifier. */
  lemma AiIdsOutsideCatalogue(index: nat)
    ensures forall m :: m in Catalogue.MockMovies ==> m.id != AiId(index)
  {
    Catalogue.MockMoviesIds();
    forall m | m in Catalogue.MockMovies
      ensures m.id != AiId(index)
    {
      var k :| 0 <= k < |Catalogue.MockMovies| && Catalogue.MockMovies[k] == m;
      assert m.id == Catalogue.Ids(Catalogue.MockMovies)[k];
      assert AiId(index)[0] == 'a';
    }
  }

  // ---- Record to title ----

  /** 9 * Math.random() rounded down: one of 0 to 8. */
  type Roll = r: nat | r < 9

  /** The title built for the index-th recommendation. */
  function ToMovie(rec: Recommendation, index: nat, roll: Roll): (m: Movie)
    ensures m.id == AiId(index)
    ensures m.title == rec.title && m.description == rec.description
    ensures m.category == Some(rec.genre)
    ensures m.image == ImageUrl(ImageIdFor(rec.visualKey))
    ensures m.backdrop == Some(BackdropUrl(ImageIdFor(rec.visualKey)))
    ensures m.matchScore.Some? && 90 <= m.matchScore.value <= 98
    ensures m.year.None? && m.duration.None? && m.kind.None? && m.isOriginal.None? && m.videoId.None?
  {
    var imageId := ImageIdFor(rec.visualKey);
    Movie(AiId(index), rec.title, rec.description, ImageUrl(imageId), Some(BackdropUrl(imageId)),
      Some(rec.genre), Some(90 + roll), None, None, None, None, None)
  }

  /** recommendations.map((rec, index) => ...), with rolls(index) as that title's random draw. */
  function MapRecommendations(recs: seq<Recommendation>, rolls: nat -> Roll): (r: seq<Movie>)
    ensures |r| == |recs|
    ensures forall i :: 0 <= i < |r| ==> r[i] == ToMovie(recs[i], i, rolls(i))
    ensures NoDup(r)
  {
    var r := seq(|recs|, i requires 0 <= i < |recs| => ToMovie(recs[i], i, rolls(i)));
    forall i, j | 0 <= i < j < |r|
      ensures r[i] != r[j]
    {
      AiIdsDistinct(i, j);
      assert r[i] == ToMovie(recs[i], i, rolls(i)) && r[j] == ToMovie(recs[j], j, rolls(j));
    }
    r
  }

  /** The mapping keeps the records' titles, descriptions and genres, in order. */
  lemma MappingPreservesRecords(recs: seq<Recommendation>, rolls: nat -> Roll)
    ensures forall i :: 0 <= i < |recs| ==>
      MapRecommendations(recs, rolls)[i].title == recs[i].title &&
      MapRecommendations(recs, rolls)[i].description == recs[i].description &&
      MapRecommendations(recs, rolls)[i].category == Some(recs[i].genre)
    ensures forall m :: m in MapRecommendations(recs, rolls) ==> m !in Catalogue.MockMovies
  {
    var r := MapRecommendations(recs, rolls);
    forall m | m in r
      ensures m !in Catalogue.MockMovies
    {
      var i :| 0 <= i < |r| && r[i] == m;
      AiIdsOutsideCatalogue(i);
    }
  }

  /** A "nature" record gets picture 28 at both sizes. */
  lemma NatureRecordImage(rec: Recommendation, index: nat, roll: Roll)
    requires rec.visualKey == "nature"
    ensures ToMovie(rec, index, roll).image == "https://picsum.photos/id/28/500/281"
    ensures ToMovie(rec, index, roll).backdrop == Some("https://picsum.photos/id/28/1200/675")
  {
    assert Show(28) == "28" by {
      assert Show(2) == "2";
    }
    assert ImageIdFor(rec.visualKey) == 28;
    assert BackdropUrl(28) == "https://picsum.photos/id/28/1200/675";
  }

  /** Records that all ask for the "horror" look all get picture 666. */
  lemma SameKeySamePicture(recs: seq<Recommendation>, rolls: nat -> Roll)
    requires forall k :: 0 <= k < |recs| ==> recs[k].visualKey == "horror"
    ensures |MapRecommendations(recs, rolls)| == |recs|
    ensures forall k :: 0 <= k < |recs| ==> MapRecommendations(recs, rolls)[k].image == ImageUrl(666)
  {
  }

  /** The message shown when the answer cannot be mapped. */
  const FailureMessage: string := "Falha ao obter recomendações. Tente novamente."

  // ---- The screen's state ----

  class SearchPanel {
    var query: string
    var isLoading: bool
    var results: seq<Movie>
    var error: string

    /** The screen opens with an empty form, no results and no error. */
    constructor ()
      ensures query == "" && !isLoading && results == [] && error == ""
    {
      query := "";
      isLoading := false;
      results := [];
      error := "";
    }

    /** Typing in the search box. */
    method SetQuery(q: string)
      modifies this
      ensures query == q
      ensures isLoading == old(isLoading) && results == old(results) && error == old(error)
    {
      query := q;
    }

    /**
     * The synchronous part of the submit handler: a blank query stops it;
     * otherwise loading starts and the previous error and results are cleared.
     */
    method Submit() returns (started: bool)
      modifies this
      ensures started <==> !Blank(query)
      ensures query == old(query)
      ensures !started ==> isLoading == old(isLoading) && results == old(results) && error == old(error)
      ensures started ==> isLoading && error == "" && results == []
    {
      TrimEmptyIffBlank(query);
      if Trim(query) == [] {
        return false;
      }
      isLoading := true;
      error := "";
      results := [];
      return true;
    }

    /**
     * The part after the answer arrives: mapping a reply without the array
     * throws, which shows the failure message; loading ends either way.
     */
    method Complete(reply: Reply, rolls: nat -> Roll)
      modifies this
      ensures !isLoading && query == old(query)
      ensures reply.Recommendations? ==> results == MapRecommendations(reply.response.recommendations, rolls) && error == old(error)
      ensures reply.MissingArray? ==> error == FailureMessage && results == old(results)
    {
      match reply {
        case Recommendations(response) =>
          results := MapRecommendations(response.recommendations, rolls);
        case MissingArray =>
          error := FailureMessage;
      }
      isLoading := false;
    }

    /** The whole submit handler, with the service's behaviour as its parameters. */
    method HandleSearch(hasKey: bool, outcome: CallOutcome, rolls: nat -> Roll) returns (started: bool)
      modifies this
      ensures started <==> !Blank(query)
      ensures query == old(query)
      ensures !started ==> isLoading == old(isLoading) && results == old(results) && error == old(error)
      ensures started ==> !isLoading
      ensures started ==> (error == "" <==> GetAIRecommendations(hasKey, outcome).Recommendations?)
      ensures started && error == "" ==> results == MapRecommendations(GetAIRecommendations(hasKey, outcome).response.recommendations, rolls)
      ensures started && error != "" ==> error == FailureMessage && results == []
    {
      started := Submit();
      if started {
        Complete(GetAIRecommendations(hasKey, outcome), rolls);
      }
    }
  }

  /** A query of spaces and line breaks changes nothing on the screen. */
  method BlankQueryScenario() returns (started: bool, loading: bool, error: string)
    ensures !started && !loading && error == ""
  {
    var panel := new SearchPanel();
    panel.SetQuery(" \t\n");
    started := panel.Submit();
    loading := panel.isLoading;
    error := panel.error;
  }

  /** Without an API key a search ends with no results and no error. */
  method NoKeyScenario() returns (results: seq<Movie>, error: string, loading: bool)
    ensures results == [] && error == "" && !loading
  {
    var panel := new SearchPanel();
    panel.SetQuery("filmes de aventura");
    var started := panel.HandleSearch(false, Failed, _ => 0);
    results := panel.results;
    error := panel.error;
    loading := panel.isLoading;
  }
}
