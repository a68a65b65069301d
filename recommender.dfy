/** The dataset side of recommendation_model/model.py: the emotion recommender,
    which narrows the table by successive filters and keeps the most popular rows,
    and the option lists the UI offers. The dataset is a sequence of rows in table
    order; numeric columns are integers. */
module Recommender {
  import opened Wrappers
  import opened Seqs

  /** One row of the Spotify dataset, with the columns the recommender reads. */
  datatype Track = Track(
    artist: string, song: string, emotion: string, genre: string, releaseDate: string,
    key: string, tempo: int, energy: int, danceability: int, positiveness: int,
    popularity: int, explicit: string)

  /** The `filters` object of a request. An absent key, a JSON `null` for `filters`
      and an empty object all mean "no filter"; a genre list is applied only when
      it is non-empty. */
  datatype Filters = Filters(
    genre: Option<seq<string>>,
    tempoMin: Option<int>, tempoMax: Option<int>,
    energyMin: Option<int>, energyMax: Option<int>,
    danceabilityMin: Option<int>, danceabilityMax: Option<int>,
    explicit: Option<bool>)

  const NoFilters: Filters := Filters(None, None, None, None, None, None, None, None)

  /** A method of the untrained model either returns or raises `ValueError`. */
  datatype Reported<T> = Value(value: T) | ValueError(message: string)

  const NotTrainedMessage: string := "Model not trained. Please call preprocess_data first."

  // ---------------------------------------------------------------------------
  // Narrowing by criteria

  /** One boolean mask the recommender applies. */
  datatype Criterion =
    | EmotionIs(emotion: string)
    | GenreIn(genres: seq<string>)
    | TempoAtLeast(tempo: int) | TempoAtMost(tempo: int)
    | EnergyAtLeast(energy: int) | EnergyAtMost(energy: int)
    | DanceabilityAtLeast(danceability: int) | DanceabilityAtMost(danceability: int)
    | ExplicitIs(value: string)

  predicate Holds(t: Track, c: Criterion)
  {
    match c
    case EmotionIs(e) => t.emotion == e
    case GenreIn(gs) => t.genre in gs
    case TempoAtLeast(v) => t.tempo >= v
    case TempoAtMost(v) => t.tempo <= v
    case EnergyAtLeast(v) => t.energy >= v
    case EnergyAtMost(v) => t.energy <= v
    case DanceabilityAtLeast(v) => t.danceability >= v
    case DanceabilityAtMost(v) => t.danceability <= v
    case ExplicitIs(x) => t.explicit == x
  }

  /** `rows[mask]` for one criterion: the rows that meet it, in table order. */
  function Narrow(rows: seq<Track>, c: Criterion): seq<Track>
  {
    Filter(rows, (t: Track) => Holds(t, c))
  }

  predicate HoldsAll(t: Track, cs: seq<Criterion>)
  {
    forall i :: 0 <= i < |cs| ==> Holds(t, cs[i])
  }

  /** The rows that meet every criterion of `cs`, in table order. */
  function Satisfying(rows: seq<Track>, cs: seq<Criterion>): seq<Track>
  {
    Filter(rows, (t: Track) => HoldsAll(t, cs))
  }

  lemma {:induction false} SatisfyingNone(rows: seq<Track>)
    ensures Satisfying(rows, []) == rows
  {
    if rows != [] {
      SatisfyingNone(rows[..|rows| - 1]);
      assert rows[..|rows| - 1] + [rows[|rows| - 1]] == rows;
    }
  }

  /** Narrowing an already narrowed table by one more criterion is narrowing by all of them. */
  lemma {:induction false} SatisfyingSnoc(rows: seq<Track>, cs: seq<Criterion>, c: Criterion)
    ensures Narrow(Satisfying(rows, cs), c) == Satisfying(rows, cs + [c])
  {
    if rows != [] {
      var init, last := rows[..|rows| - 1], rows[|rows| - 1];
      SatisfyingSnoc(init, cs, c);
      assert HoldsAll(last, cs + [c]) <==> HoldsAll(last, cs) && Holds(last, c) by {
        if HoldsAll(last, cs) && Holds(last, c) {
          forall i | 0 <= i < |cs + [c]| ensures Holds(last, (cs + [c])[i]) {
            if i < |cs| { assert (cs + [c])[i] == cs[i]; }
          }
        }
        if HoldsAll(last, cs + [c]) {
          forall i | 0 <= i < |cs| ensures Holds(last, cs[i]) {
            assert (cs + [c])[i] == cs[i];
          }
          assert (cs + [c])[|cs|] == c;
        }
      }
      var before := Satisfying(init, cs);
      if HoldsAll(last, cs) {
        assert Satisfying(rows, cs) == before + [last];
        assert (before + [last])[..|before|] == before;
      } else {
        assert Satisfying(rows, cs) == before;
      }
    }
  }

  function When(b: bool, c: Criterion): seq<Criterion>
  {
    if b then [c] else []
  }

  // The mask each key of `filters` contributes; an absent key contributes none.
  function GenreMask(f: Filters): seq<Criterion>
  {
    When(f.genre.Some? && f.genre.value != [], GenreIn(if f.genre.Some? then f.genre.value else []))
  }
  function TempoMinMask(f: Filters): seq<Criterion>
  {
    When(f.tempoMin.Some?, TempoAtLeast(if f.tempoMin.Some? then f.tempoMin.value else 0))
  }
  function TempoMaxMask(f: Filters): seq<Criterion>
  {
    When(f.tempoMax.Some?, TempoAtMost(if f.tempoMax.Some? then f.tempoMax.value else 0))
  }
  function EnergyMinMask(f: Filters): seq<Criterion>
  {
    When(f.energyMin.Some?, EnergyAtLeast(if f.energyMin.Some? then f.energyMin.value else 0))
  }
  function EnergyMaxMask(f: Filters): seq<Criterion>
  {
    When(f.energyMax.Some?, EnergyAtMost(if f.energyMax.Some? then f.energyMax.value else 0))
  }
  function DanceabilityMinMask(f: Filters): seq<Criterion>
  {
    When(f.danceabilityMin.Some?, DanceabilityAtLeast(if f.danceabilityMin.Some? then f.danceabilityMin.value else 0))
  }
  function DanceabilityMaxMask(f: Filters): seq<Criterion>
  {
    When(f.danceabilityMax.Some?, DanceabilityAtMost(if f.danceabilityMax.Some? then f.danceabilityMax.value else 0))
  }
  /** `'Yes' if filters['explicit'] else 'No'`. */
  function ExplicitMask(f: Filters): seq<Criterion>
  {
    When(f.explicit.Some?, ExplicitIs(if f.explicit.Some? && f.explicit.value then "Yes" else "No"))
  }

  /** The masks `get_emotion_based_recommendations` applies, in the order it applies them. */
  function Criteria(target: string, f: Filters): seq<Criterion>
  {
    [EmotionIs(target)] + GenreMask(f) + TempoMinMask(f) + TempoMaxMask(f) + EnergyMinMask(f)
    + EnergyMaxMask(f) + DanceabilityMinMask(f) + DanceabilityMaxMask(f) + ExplicitMask(f)
  }

  /** A row qualifies: the target emotion, a genre from a non-empty genre list, each
      given bound inclusive, and `Explicit` equal to "Yes" for `true` and "No" for `false`. */
  predicate Admits(t: Track, target: string, f: Filters)
  {
    && t.emotion == target
    && (f.genre.Some? && f.genre.value != [] ==> t.genre in f.genre.value)
    && (f.tempoMin.Some? ==> t.tempo >= f.tempoMin.value)
    && (f.tempoMax.Some? ==> t.tempo <= f.tempoMax.value)
    && (f.energyMin.Some? ==> t.energy >= f.energyMin.value)
    && (f.energyMax.Some? ==> t.energy <= f.energyMax.value)
    && (f.danceabilityMin.Some? ==> t.danceability >= f.danceabilityMin.value)
    && (f.danceabilityMax.Some? ==> t.danceability <= f.danceabilityMax.value)
    && (f.explicit.Some? ==> t.explicit == (if f.explicit.value then "Yes" else "No"))
  }

  lemma HoldsAllAppend(t: Track, a: seq<Criterion>, b: seq<Criterion>)
    ensures HoldsAll(t, a + b) <==> HoldsAll(t, a) && HoldsAll(t, b)
  {
    if HoldsAll(t, a) && HoldsAll(t, b) {
      forall i | 0 <= i < |a + b| ensures Holds(t, (a + b)[i]) {
        if i < |a| { assert (a + b)[i] == a[i]; } else { assert (a + b)[i] == b[i - |a|]; }
      }
    }
    if HoldsAll(t, a + b) {
      forall i | 0 <= i < |a| ensures Holds(t, a[i]) { assert (a + b)[i] == a[i]; }
      forall i | 0 <= i < |b| ensures Holds(t, b[i]) { assert (a + b)[|a| + i] == b[i]; }
    }
  }

  lemma HoldsAllWhen(t: Track, b: bool, c: Criterion)
    ensures HoldsAll(t, When(b, c)) <==> (b ==> Holds(t, c))
  {
    if b { assert When(b, c)[0] == c; }
  }

  /** The chain of masks keeps exactly the rows the written-out conditions describe. */
  lemma CriteriaMeanAdmits(t: Track, target: string, f: Filters)
    ensures HoldsAll(t, Criteria(target, f)) <==> Admits(t, target, f)
  {
    var e := [EmotionIs(target)];
    var p1 := e + GenreMask(f);
    var p2 := p1 + TempoMinMask(f);
    var p3 := p2 + TempoMaxMask(f);
    var p4 := p3 + EnergyMinMask(f);
    var p5 := p4 + EnergyMaxMask(f);
    var p6 := p5 + DanceabilityMinMask(f);
    var p7 := p6 + DanceabilityMaxMask(f);
    assert Criteria(target, f) == p7 + ExplicitMask(f);
    assert HoldsAll(t, e) <==> t.emotion == target by { assert e[0] == EmotionIs(target); }
    HoldsAllAppend(t, e, GenreMask(f));
    HoldsAllWhen(t, f.genre.Some? && f.genre.value != [], GenreIn(if f.genre.Some? then f.genre.value else []));
    HoldsAllAppend(t, p1, TempoMinMask(f));
    HoldsAllWhen(t, f.tempoMin.Some?, TempoAtLeast(if f.tempoMin.Some? then f.tempoMin.value else 0));
    HoldsAllAppend(t, p2, TempoMaxMask(f));
    HoldsAllWhen(t, f.tempoMax.Some?, TempoAtMost(if f.tempoMax.Some? then f.tempoMax.value else 0));
    HoldsAllAppend(t, p3, EnergyMinMask(f));
    HoldsAllWhen(t, f.energyMin.Some?, EnergyAtLeast(if f.energyMin.Some? then f.energyMin.value else 0));
    HoldsAllAppend(t, p4, EnergyMaxMask(f));
    HoldsAllWhen(t, f.energyMax.Some?, EnergyAtMost(if f.energyMax.Some? then f.energyMax.value else 0));
    HoldsAllAppend(t, p5, DanceabilityMinMask(f));
    HoldsAllWhen(t, f.danceabilityMin.Some?, DanceabilityAtLeast(if f.danceabilityMin.Some? then f.danceabilityMin.value else 0));
    HoldsAllAppend(t, p6, DanceabilityMaxMask(f));
    HoldsAllWhen(t, f.danceabilityMax.Some?, DanceabilityAtMost(if f.danceabilityMax.Some? then f.danceabilityMax.value else 0));
    HoldsAllAppend(t, p7, ExplicitMask(f));
    HoldsAllWhen(t, f.explicit.Some?, ExplicitIs(if f.explicit.Some? && f.explicit.value then "Yes" else "No"));
  }

  /** The rows left once every mask has been applied. */
  function Candidates(rows: seq<Track>, target: string, f: Filters): seq<Track>
  {
    Satisfying(rows, Criteria(target, f))
  }

  /** The candidates are exactly the qualifying rows, in table order. */
  lemma CandidatesExactly(rows: seq<Track>, target: string, f: Filters)
    ensures IsSubsequence(Candidates(rows, target, f), rows)
    ensures forall i :: 0 <= i < |Candidates(rows, target, f)| ==> Admits(Candidates(rows, target, f)[i], target, f)
    ensures forall i :: 0 <= i < |rows| && Admits(rows[i], target, f) ==> rows[i] in Candidates(rows, target, f)
  {
    var c := Candidates(rows, target, f);
    FilterIsSubsequence(rows, (t: Track) => HoldsAll(t, Criteria(target, f)));
    forall i | 0 <= i < |c| ensures Admits(c[i], target, f) { CriteriaMeanAdmits(c[i], target, f); }
    forall i | 0 <= i < |rows| && Admits(rows[i], target, f) ensures rows[i] in c {
      CriteriaMeanAdmits(rows[i], target, f);
    }
  }

  // ---------------------------------------------------------------------------
  // The most popular rows

  predicate ByPopularity(s: seq<Track>)
  {
    forall i, j :: 0 <= i < j < |s| ==> s[i].popularity >= s[j].popularity
  }

  /** Insert `x` before the first row that is not more popular. */
  function InsertByPopularity(x: Track, s: seq<Track>): (r: seq<Track>)
    ensures multiset(r) == multiset(s) + multiset{x}
    ensures |r| == |s| + 1
  {
    if s == [] || s[0].popularity <= x.popularity then [x] + s
    else
      assert s == [s[0]] + s[1..];
      [s[0]] + InsertByPopularity(x, s[1..])
  }

  lemma {:induction false} InsertKeepsOrder(x: Track, s: seq<Track>)
    requires ByPopularity(s)
    ensures ByPopularity(InsertByPopularity(x, s))
  {
    if s != [] && s[0].popularity > x.popularity {
      var rest := InsertByPopularity(x, s[1..]);
      InsertKeepsOrder(x, s[1..]);
      var r := [s[0]] + rest;
      forall j | 0 < j < |r| ensures s[0].popularity >= r[j].popularity {
        assert r[j] in multiset(rest);
        assert r[j] in multiset(s[1..]) || r[j] == x;
        if r[j] != x {
          var k :| 1 <= k < |s| && s[k] == r[j] by { assert r[j] in s[1..]; }
        }
      }
    }
  }

  /** A stable sort by `Popularity`, most popular first. */
  function SortByPopularity(s: seq<Track>): (r: seq<Track>)
    ensures multiset(r) == multiset(s) && |r| == |s|
    ensures ByPopularity(r)
  {
    if s == [] then []
    else
      assert s == [s[0]] + s[1..];
      InsertKeepsOrder(s[0], SortByPopularity(s[1..]));
      InsertByPopularity(s[0], SortByPopularity(s[1..]))
  }

  /** `nlargest(n, 'Popularity')`. */
  function TopByPopularity(s: seq<Track>, n: int): seq<Track>
  {
    Take(SortByPopularity(s), n)
  }

  /** The top rows number `min(n, |s|)`, come most popular first, and no row left out
      is more popular than any row kept; kept and left out together are the input. */
  lemma TopIsMostPopular(s: seq<Track>, n: int)
    ensures |TopByPopularity(s, n)| == if n <= 0 then 0 else if n < |s| then n else |s|
    ensures ByPopularity(TopByPopularity(s, n))
    ensures var top := TopByPopularity(s, n);
      var rest := SortByPopularity(s)[|top|..];
      && multiset(top) + multiset(rest) == multiset(s)
      && forall i, j :: 0 <= i < |top| && 0 <= j < |rest| ==> top[i].popularity >= rest[j].popularity
  {
    var sorted := SortByPopularity(s);
    var top := TopByPopularity(s, n);
    var rest := sorted[|top|..];
    assert sorted == top + rest;
    forall i, j | 0 <= i < |top| && 0 <= j < |rest| ensures top[i].popularity >= rest[j].popularity {
      assert top[i] == sorted[i] && rest[j] == sorted[|top| + j];
    }
  }

  /** Every top row is a row of the input. */
  lemma TopFromInput(s: seq<Track>, n: int)
    ensures forall i :: 0 <= i < |TopByPopularity(s, n)| ==> TopByPopularity(s, n)[i] in s
  {
    var sorted := SortByPopularity(s);
    var top := TopByPopularity(s, n);
    forall i | 0 <= i < |top| ensures top[i] in s {
      assert top[i] == sorted[i];
      assert sorted[i] in multiset(sorted);
    }
  }

  // ---------------------------------------------------------------------------
  // get_emotion_based_recommendations

  datatype Recommendations = Recommendations(
    recommendations: seq<Track>, totalFound: nat, emotion: string, filtersApplied: Filters)

  /** A successful call returns either the recommendations or an error object. */
  datatype Answer = Found(value: Recommendations) | NoMatch(error: string)

  /** What `get_emotion_based_recommendations` returns or raises, computed in one pass. */
  function EmotionBasedRecommendations(df: Option<seq<Track>>, target: string, n: int, f: Filters): (r: Reported<Answer>)
    ensures df.None? <==> r == ValueError(NotTrainedMessage)
    ensures df.Some? && (forall i :: 0 <= i < |df.value| ==> df.value[i].emotion != target) ==>
      r == Value(NoMatch("No songs found for emotion: " + target))
  {
    if df.None? then ValueError(NotTrainedMessage)
    else
      var emotionSongs := Narrow(df.value, EmotionIs(target));
      FilterEmptyIff(df.value, (t: Track) => Holds(t, EmotionIs(target)));
      if emotionSongs == [] then Value(NoMatch("No songs found for emotion: " + target))
      else
        var c := Candidates(df.value, target, f);
        if c == [] then Value(NoMatch("No songs found matching the specified criteria"))
        else
          Value(Found(Recommendations(TopByPopularity(c, n), |c|, target, f)))
  }

  /** Every recommendation qualifies; there are `min(n, total_found)` of them, and
      `total_found` counts the rows left after every filter. */
  lemma RecommendationsQualify(df: seq<Track>, target: string, n: int, f: Filters)
    requires EmotionBasedRecommendations(Some(df), target, n, f).Value?
    requires EmotionBasedRecommendations(Some(df), target, n, f).value.Found?
    ensures var rec := EmotionBasedRecommendations(Some(df), target, n, f).value.value;
      && rec.totalFound == |Candidates(df, target, f)| > 0
      && rec.emotion == target && rec.filtersApplied == f
      && |rec.recommendations| == (if n <= 0 then 0 else if n < rec.totalFound then n else rec.totalFound)
      && forall i :: 0 <= i < |rec.recommendations| ==>
           rec.recommendations[i] in df && Admits(rec.recommendations[i], target, f)
  {
    var c := Candidates(df, target, f);
    var top := TopByPopularity(c, n);
    assert EmotionBasedRecommendations(Some(df), target, n, f).value.value == Recommendations(top, |c|, target, f);
    TopQualifies(df, target, n, f);
  }

  /** The most popular candidates number `min(n, |candidates|)`, and each is a
      qualifying row of the table. */
  lemma TopQualifies(df: seq<Track>, target: string, n: int, f: Filters)
    ensures var c := Candidates(df, target, f);
      var top := TopByPopularity(c, n);
      && |top| == (if n <= 0 then 0 else if n < |c| then n else |c|)
      && forall i :: 0 <= i < |top| ==> top[i] in df && Admits(top[i], target, f)
  {
    var c := Candidates(df, target, f);
    var top := TopByPopularity(c, n);
    assert |SortByPopularity(c)| == |c|;
    TopFromInput(c, n);
    CandidatesQualify(df, target, f);
    forall i | 0 <= i < |top| ensures top[i] in df && Admits(top[i], target, f) {
      assert top[i] in c;
    }
  }

  /** Every candidate is a row of the table that passes every mask. */
  lemma CandidatesQualify(df: seq<Track>, target: string, f: Filters)
    ensures forall x :: x in Candidates(df, target, f) ==> x in df && Admits(x, target, f)
  {
    var c := Candidates(df, target, f);
    forall x | x in c ensures x in df && Admits(x, target, f) {
      var j :| 0 <= j < |c| && c[j] == x;
      CriteriaMeanAdmits(x, target, f);
    }
  }

  /** Once some row has the emotion, the criteria error is returned exactly when no row qualifies. */
  lemma NoMatchAfterFilters(df: seq<Track>, target: string, n: int, f: Filters)
    requires exists i :: 0 <= i < |df| && df[i].emotion == target
    ensures EmotionBasedRecommendations(Some(df), target, n, f) == Value(NoMatch("No songs found matching the specified criteria"))
        <==> forall i :: 0 <= i < |df| ==> !Admits(df[i], target, f)
  {
    var i :| 0 <= i < |df| && df[i].emotion == target;
    assert df[i] in Narrow(df, EmotionIs(target));
    CandidatesExactly(df, target, f);
    var c := Candidates(df, target, f);
    if c != [] {
      assert Admits(c[0], target, f);
      assert c[0] in df;
    }
  }

  /** The recommendations are the candidates most popular first, and no candidate
      left out is more popular than one returned. */
  lemma RecommendationsAreTopCandidates(df: seq<Track>, target: string, n: int, f: Filters)
    requires EmotionBasedRecommendations(Some(df), target, n, f).Value?
    requires EmotionBasedRecommendations(Some(df), target, n, f).value.Found?
    ensures var rec := EmotionBasedRecommendations(Some(df), target, n, f).value.value.recommendations;
      var rest := SortByPopularity(Candidates(df, target, f))[|rec|..];
      && ByPopularity(rec)
      && multiset(rec) + multiset(rest) == multiset(Candidates(df, target, f))
      && forall i, j :: 0 <= i < |rec| && 0 <= j < |rest| ==> rec[i].popularity >= rest[j].popularity
  {
    TopIsMostPopular(Candidates(df, target, f), n);
  }

  /** Apply the mask of one key of `filters`, if the key contributes one: `rows` is
      the table the chain started from, `cs` the masks applied so far. */
  method NarrowBy(ghost rows: seq<Track>, ghost cs: seq<Criterion>, current: seq<Track>, mask: seq<Criterion>)
    returns (next: seq<Track>, ghost cs': seq<Criterion>)
    requires |mask| <= 1 && current == Satisfying(rows, cs)
    ensures cs' == cs + mask && next == Satisfying(rows, cs')
  {
    if mask != [] {
      SatisfyingSnoc(rows, cs, mask[0]);
      assert mask == [mask[0]];
      next, cs' := Narrow(current, mask[0]), cs + mask;
    } else {
      assert cs + [] == cs;
      next, cs' := current, cs;
    }
  }

  /** The `if filters:` block: each key present narrows the rows further, in the
      order genre, tempo, energy, danceability, explicit. */
  method ApplyFilters(ghost rows: seq<Track>, emotionSongs: seq<Track>, target: string, f: Filters)
    returns (candidates: seq<Track>)
    requires emotionSongs == Satisfying(rows, [EmotionIs(target)])
    ensures candidates == Candidates(rows, target, f)
  {
    ghost var cs := [EmotionIs(target)];
    candidates := emotionSongs;
    candidates, cs := NarrowBy(rows, cs, candidates, GenreMask(f));
    candidates, cs := NarrowBy(rows, cs, candidates, TempoMinMask(f));
    candidates, cs := NarrowBy(rows, cs, candidates, TempoMaxMask(f));
    candidates, cs := NarrowBy(rows, cs, candidates, EnergyMinMask(f));
    candidates, cs := NarrowBy(rows, cs, candidates, EnergyMaxMask(f));
    candidates, cs := NarrowBy(rows, cs, candidates, DanceabilityMinMask(f));
    candidates, cs := NarrowBy(rows, cs, candidates, DanceabilityMaxMask(f));
    candidates, cs := NarrowBy(rows, cs, candidates, ExplicitMask(f));
  }

  /** The method narrows the table one mask at a time, as the source does, and
      returns exactly what the one-pass definition returns. */
  method GetEmotionBasedRecommendations(df: Option<seq<Track>>, target: string, n: int, f: Filters)
    returns (r: Reported<Answer>)
    ensures r == EmotionBasedRecommendations(df, target, n, f)
  {
    if df.None? {
      return ValueError(NotTrainedMessage);
    }
    var rows := df.value;
    var emotionSongs := Narrow(rows, EmotionIs(target));
    if emotionSongs == [] {
      return Value(NoMatch("No songs found for emotion: " + target));
    }
    SatisfyingNone(rows);
    SatisfyingSnoc(rows, [], EmotionIs(target));
    assert [] + [EmotionIs(target)] == [EmotionIs(target)];
    emotionSongs := ApplyFilters(rows, emotionSongs, target, f);
    if emotionSongs == [] {
      return Value(NoMatch("No songs found matching the specified criteria"));
    }
    var recommendations := TopByPopularity(emotionSongs, n);
    r := Value(Found(Recommendations(recommendations, |emotionSongs|, target, f)));
  }
}
