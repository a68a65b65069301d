/** The request handling of recommendation_model/flask_ml_api.py: the checks each
    endpoint makes before it asks the model, the status codes it answers with, and
    the capped search over the loaded table. */
module RecommendApi {
  import opened Wrappers
  import opened Seqs
  import opened Text
  import opened Recommender
  import opened Options

  /** The global `model`. `initialize_model` assigns a fresh model before loading
      it, so a failed load leaves an initialised model whose table is missing. */
  datatype ModelSlot = Uninitialized | Initialized(df: Option<seq<Track>>)

  /** A JSON reply: the body with status 200, or `{'error': message}` with a status. */
  datatype Response<T> = Ok(body: T) | Error(status: nat, message: string)

  const ModelNotInitialized: string := "Model not initialized"

  /** The `num_recommendations` field of a request body. Python's `bool` is a
      subclass of `int`, so `isinstance(True, int)` holds; `OtherValue` is any other
      JSON value, `null` included. */
  datatype Count = Absent | IntValue(i: int) | BoolValue(b: bool) | OtherValue

  /** The accepted count, or None for the 400 answer: an absent field means 10, and
      only an integer (or boolean) from 1 to 50 is accepted. */
  function NumRecommendations(c: Count): (r: Option<int>)
    ensures c.Absent? ==> r == Some(10)
    ensures r.Some? ==> 1 <= r.value <= 50
    ensures r.None? <==>
      (c.OtherValue? || (c.IntValue? && !(1 <= c.i <= 50)) || (c.BoolValue? && !c.b))
    ensures c.IntValue? && r.Some? ==> r.value == c.i
  {
    match c
    case Absent => Some(10)
    case IntValue(i) => if 1 <= i <= 50 then Some(i) else None
    case BoolValue(b) => if b then Some(1) else None
    case OtherValue => None
  }

  const CountMessage: string := "num_recommendations must be between 1 and 50"

  /** `GET /api/emotions`. */
  function GetEmotions(slot: ModelSlot): (r: Response<AvailableOptions>)
    ensures slot.Uninitialized? ==> r == Error(500, ModelNotInitialized)
    ensures slot.Initialized? && slot.df.Some? && slot.df.value != [] ==>
      r.Ok? && r.body.emotions == SortedUnique(Emotions(slot.df.value))
    ensures slot.Initialized? && slot.df.None? ==> r == Error(500, NotTrainedMessage)
    ensures slot.Initialized? ==> (r.Ok? <==> GetAvailableOptions(slot.df).Value?)
    ensures slot.Initialized? && r.Ok? ==> r.body == GetAvailableOptions(slot.df).value
    ensures slot.Initialized? && GetAvailableOptions(slot.df).ValueError? ==>
      r == Error(500, GetAvailableOptions(slot.df).message)
    ensures slot == Initialized(Some([])) ==> r == Error(500, "cannot convert float NaN to integer")
  {
    if slot.Uninitialized? then Error(500, ModelNotInitialized)
    else
      match GetAvailableOptions(slot.df)
      case ValueError(m) => Error(500, m)
      case Value(o) => Ok(o)
  }

  /** On a loaded, non-empty table the reply holds every option list and range of
      `get_available_options`: each list is its column's sorted distinct values and
      each range is attained and covers its column. */
  lemma EmotionsReplyDescribesTable(df: seq<Track>)
    requires df != []
    ensures var r := GetEmotions(Initialized(Some(df)));
      && r.Ok?
      && r.body.emotions == SortedUnique(Emotions(df))
      && r.body.genres == SortedUnique(Genres(df))
      && r.body.keys == SortedUnique(Keys(df))
      && RangeBounds(r.body.tempoRange, Tempos(df))
      && RangeBounds(r.body.energyRange, Energies(df))
      && RangeBounds(r.body.danceabilityRange, Danceabilities(df))
  {
    OptionsDescribeTable(df);
  }

  /** `POST /api/recommend`: a model, then a non-empty emotion, then a valid count,
      in that order; the model's answer (error objects included) comes back with 200
      and a `ValueError` it raises with 500. */
  function RecommendSongs(slot: ModelSlot, emotion: Option<string>, num: Count, f: Filters): Response<Answer>
  {
    if slot.Uninitialized? then Error(500, ModelNotInitialized)
    else if emotion.None? || emotion.value == "" then Error(400, "emotion is required")
    else
      match NumRecommendations(num)
      case None => Error(400, CountMessage)
      case Some(n) =>
        match EmotionBasedRecommendations(slot.df, emotion.value, n, f)
        case ValueError(m) => Error(500, m)
        case Value(a) => Ok(a)
  }

  /** The four outcomes of `recommend_songs` and the conditions that select them. */
  lemma RecommendOutcomes(slot: ModelSlot, emotion: Option<string>, num: Count, f: Filters)
    ensures var r := RecommendSongs(slot, emotion, num, f);
      && (slot.Uninitialized? ==> r == Error(500, "Model not initialized"))
      && (slot.Initialized? && (emotion.None? || emotion.value == "") ==> r == Error(400, "emotion is required"))
      && (r == Error(400, "num_recommendations must be between 1 and 50") <==>
            slot.Initialized? && emotion.Some? && emotion.value != "" && NumRecommendations(num).None?)
      && (r.Ok? <==>
            slot.Initialized? && slot.df.Some? && emotion.Some? && emotion.value != "" && NumRecommendations(num).Some?)
      && (r.Ok? ==> r.body == EmotionBasedRecommendations(slot.df, emotion.value, NumRecommendations(num).value, f).value)
      && (r.Ok? && r.body.Found? ==>
            |r.body.value.recommendations| <= NumRecommendations(num).value <= 50)
  {
    var r := RecommendSongs(slot, emotion, num, f);
    if r.Ok? && r.body.Found? {
      RecommendationsQualify(slot.df.value, emotion.value, NumRecommendations(num).value, f);
    }
  }

  /** What `get_similar_songs` is asked for once the request is accepted; the
      nearest-neighbour search itself is not part of this model. */
  datatype SimilarQuery = SimilarQuery(artist: string, song: string, count: int)

  /** `POST /api/similar`: a model, then both a non-empty artist and a non-empty song,
      then a valid count. */
  function GetSimilarSongs(slot: ModelSlot, artist: Option<string>, song: Option<string>, num: Count): (r: Response<SimilarQuery>)
    ensures slot.Uninitialized? ==> r == Error(500, ModelNotInitialized)
    ensures slot.Initialized? ==>
      (r == Error(400, "artist and song are required") <==>
        artist.None? || artist.value == "" || song.None? || song.value == "")
    ensures r.Ok? <==>
      && slot.Initialized? && artist.Some? && artist.value != "" && song.Some? && song.value != ""
      && NumRecommendations(num).Some?
    ensures r.Ok? ==> r.body == SimilarQuery(artist.value, song.value, NumRecommendations(num).value)
  {
    if slot.Uninitialized? then Error(500, ModelNotInitialized)
    else if artist.None? || artist.value == "" || song.None? || song.value == "" then
      Error(400, "artist and song are required")
    else
      match NumRecommendations(num)
      case None => Error(400, CountMessage)
      case Some(n) => Ok(SimilarQuery(artist.value, song.value, n))
  }

  /** The most rows a search answers with (`head(20)`). */
  const SearchLimit: nat := 20

  /** The lower-cased artist or song contains the query, read as plain text. */
  predicate Matches(t: Track, query: string)
  {
    Contains(ToLower(t.artist), query) || Contains(ToLower(t.song), query)
  }

  function AllMatches(df: seq<Track>, query: string): seq<Track>
  {
    Filter(df, (t: Track) => Matches(t, query))
  }

  datatype SearchResult = SearchResult(results: seq<Track>, totalFound: nat, query: string)

  /** `request.args.get('q', '').strip().lower()`. */
  function NormaliseQuery(q: Option<string>): string
  {
    ToLower(Trim(if q.Some? then q.value else ""))
  }

  /** `GET /api/search`. Without a table, `df['artist']` raises `TypeError`. */
  function SearchSongs(slot: ModelSlot, q: Option<string>): Response<SearchResult>
  {
    SearchFor(slot, NormaliseQuery(q))
  }

  /** The search once the query is normalised. */
  function SearchFor(slot: ModelSlot, query: string): Response<SearchResult>
  {
    if slot.Uninitialized? then Error(500, ModelNotInitialized)
    else if query == "" then Error(400, "Search query is required")
    else if slot.df.None? then Error(500, "'NoneType' object is not subscriptable")
    else
      var results := Take(AllMatches(slot.df.value, query), SearchLimit);
      Ok(SearchResult(results, |results|, query))
  }

  /** A missing query, or one of white space only, is answered with 400. */
  lemma BlankQueryRejected(slot: ModelSlot, q: Option<string>)
    requires slot.Initialized?
    ensures SearchSongs(slot, q) == Error(400, "Search query is required") <==>
      (q.None? || AllSpace(q.value))
  {
    var s := if q.Some? then q.value else "";
    TrimEmptyIff(s);
    assert |NormaliseQuery(q)| == |Trim(s)|;
    if q.None? { assert AllSpace(s); }
  }

  /** A search answers with the first 20 matching rows (all of them when fewer
      match), in table order: the results are exactly the matching rows of some
      prefix of the table. Each matches the normalised query, and `total_found`
      is the number of rows returned. */
  lemma SearchResultsMatch(df: seq<Track>, q: Option<string>)
    requires NormaliseQuery(q) != ""
    ensures var r := SearchSongs(Initialized(Some(df)), q);
      && r.Ok?
      && r.body.query == NormaliseQuery(q)
      && r.body.results == Take(AllMatches(df, r.body.query), 20)
      && (exists j :: 0 <= j <= |df| && r.body.results == AllMatches(df[..j], r.body.query))
      && |r.body.results| <= 20 && r.body.totalFound == |r.body.results|
      && IsSubsequence(r.body.results, df)
      && (forall i :: 0 <= i < |r.body.results| ==> Matches(r.body.results[i], r.body.query))
      && (|r.body.results| < 20 ==>
            forall i :: 0 <= i < |df| && Matches(df[i], r.body.query) ==> df[i] in r.body.results)
  {
    var query := NormaliseQuery(q);
    var results := Take(AllMatches(df, query), SearchLimit);
    assert SearchSongs(Initialized(Some(df)), q) == Ok(SearchResult(results, |results|, query));
    FirstMatches(df, query);
  }

  /** The first 20 matching rows are the matches of a prefix of the table, in table
      order, and when fewer than 20 match they are all of them. */
  lemma FirstMatches(df: seq<Track>, query: string)
    ensures var results := Take(AllMatches(df, query), SearchLimit);
      && (exists j :: 0 <= j <= |df| && results == AllMatches(df[..j], query))
      && |results| <= 20
      && IsSubsequence(results, df)
      && (forall i :: 0 <= i < |results| ==> Matches(results[i], query))
      && (|results| < 20 ==> forall i :: 0 <= i < |df| && Matches(df[i], query) ==> df[i] in results)
  {
    var all := AllMatches(df, query);
    var results := Take(all, SearchLimit);
    FilterIsSubsequence(df, (t: Track) => Matches(t, query));
    TakeFilterIsPrefixFilter(df, (t: Track) => Matches(t, query), SearchLimit);
    TakeIsSubsequence(all, SearchLimit);
    IsSubsequenceTransitive(results, all, df);
    forall i | 0 <= i < |results| ensures Matches(results[i], query) {
      assert results[i] == all[i];
    }
  }

  /** The query is matched without regard to its case or its surrounding white space. */
  lemma SearchIgnoresCaseAndPadding(slot: ModelSlot, q: string, padding: string)
    requires AllSpace(padding)
    ensures SearchSongs(slot, Some(ToLower(q))) == SearchSongs(slot, Some(q))
    ensures SearchSongs(slot, Some(padding + q + padding)) == SearchSongs(slot, Some(q))
  {
    NormaliseIgnoresCaseAndPadding(q, padding);
    SearchDependsOnlyOnQuery(slot, Some(ToLower(q)), Some(q));
    SearchDependsOnlyOnQuery(slot, Some(padding + q + padding), Some(q));
  }

  /** The answer depends on the request's `q` only through the normalised query. */
  lemma SearchDependsOnlyOnQuery(slot: ModelSlot, q1: Option<string>, q2: Option<string>)
    requires NormaliseQuery(q1) == NormaliseQuery(q2)
    ensures SearchSongs(slot, q1) == SearchSongs(slot, q2)
  {
  }

  lemma NormaliseIgnoresCaseAndPadding(q: string, padding: string)
    requires AllSpace(padding)
    ensures NormaliseQuery(Some(ToLower(q))) == NormaliseQuery(Some(q))
    ensures NormaliseQuery(Some(padding + q + padding)) == NormaliseQuery(Some(q))
  {
    TrimLower(q);
    TrimPadded(q, padding);
    ToLowerIdempotent(Trim(q));
  }
}
