/** `get_available_options` of recommendation_model/model.py: the distinct emotions,
    genres and keys of the dataset in Python's string order, and the integer range
    of three numeric columns. */
module Options {
  import opened Wrappers
  import opened Recommender

  /** Python's `<` on `str`: code point by code point, a proper prefix first. */
  predicate LexLess(a: string, b: string)
  {
    if a == [] then b != []
    else b != [] && (a[0] < b[0] || (a[0] == b[0] && LexLess(a[1..], b[1..])))
  }

  lemma {:induction false} LexLessIrreflexive(a: string)
    ensures !LexLess(a, a)
  {
    if a != [] { LexLessIrreflexive(a[1..]); }
  }

  lemma {:induction false} LexLessTransitive(a: string, b: string, c: string)
    requires LexLess(a, b) && LexLess(b, c)
    ensures LexLess(a, c)
  {
    if a != [] && a[0] == b[0] && b[0] == c[0] {
      LexLessTransitive(a[1..], b[1..], c[1..]);
    }
  }

  lemma {:induction false} LexLessTotal(a: string, b: string)
    requires a != b
    ensures LexLess(a, b) || LexLess(b, a)
  {
    if a != [] && b != [] && a[0] == b[0] {
      assert a == [a[0]] + a[1..] && b == [b[0]] + b[1..];
      LexLessTotal(a[1..], b[1..]);
    }
  }

  /** Strictly increasing, hence sorted and free of duplicates. */
  predicate StrictlySorted(s: seq<string>)
  {
    forall i, j :: 0 <= i < j < |s| ==> LexLess(s[i], s[j])
  }

  lemma StrictlySortedDistinct(s: seq<string>)
    requires StrictlySorted(s)
    ensures forall i, j :: 0 <= i < j < |s| ==> s[i] != s[j]
  {
    forall i, j | 0 <= i < j < |s| ensures s[i] != s[j] {
      LexLessIrreflexive(s[i]);
    }
  }

  /** Add `x` to a strictly sorted list, unless it is already there. */
  function InsertUnique(x: string, s: seq<string>): (r: seq<string>)
    requires StrictlySorted(s)
    ensures StrictlySorted(r)
    ensures x in r && forall i :: 0 <= i < |s| ==> s[i] in r
    ensures forall i :: 0 <= i < |r| ==> r[i] == x || r[i] in s
  {
    if s == [] then [x]
    else if x == s[0] then s
    else if LexLess(x, s[0]) then
      forall j | 0 <= j < |s| ensures LexLess(x, s[j]) {
        if j > 0 { LexLessTransitive(x, s[0], s[j]); }
      }
      [x] + s
    else
      LexLessTotal(x, s[0]);
      var rest := InsertUnique(x, s[1..]);
      assert forall i :: 0 <= i < |rest| ==> LexLess(s[0], rest[i]);
      [s[0]] + rest
  }

  /** `sorted(column.unique().tolist())`. */
  function SortedUnique(xs: seq<string>): (r: seq<string>)
    ensures StrictlySorted(r)
    ensures forall i :: 0 <= i < |xs| ==> xs[i] in r
    ensures forall i :: 0 <= i < |r| ==> r[i] in xs
  {
    if xs == [] then []
    else
      var rest := SortedUnique(xs[1..]);
      var r := InsertUnique(xs[0], rest);
      assert forall i :: 1 <= i < |xs| ==> xs[i] == xs[1..][i - 1];
      r
  }

  /** Two strictly sorted lists with the same elements start with the same one. */
  lemma SameLeast(a: seq<string>, b: seq<string>)
    requires StrictlySorted(a) && StrictlySorted(b) && a != [] && b != []
    requires a[0] in b && b[0] in a
    ensures a[0] == b[0]
  {
    var ka :| 0 <= ka < |b| && b[ka] == a[0];
    var kb :| 0 <= kb < |a| && a[kb] == b[0];
    if a[0] != b[0] {
      assert LexLess(a[0], b[0]);
      assert LexLess(b[0], a[0]);
      LexLessTransitive(a[0], b[0], a[0]);
      LexLessIrreflexive(a[0]);
    }
  }

  /** An element of a strictly sorted list other than its first lies in its tail. */
  lemma InTail(x: string, s: seq<string>)
    requires StrictlySorted(s) && x in s && s != [] && x != s[0]
    ensures x in s[1..]
  {
    var k :| 0 <= k < |s| && s[k] == x;
    assert s[1..][k - 1] == x;
  }

  /** Only one strictly sorted list holds a given set of strings. */
  lemma {:induction false} StrictlySortedUnique(a: seq<string>, b: seq<string>)
    requires StrictlySorted(a) && StrictlySorted(b)
    requires forall i :: 0 <= i < |a| ==> a[i] in b
    requires forall i :: 0 <= i < |b| ==> b[i] in a
    ensures a == b
  {
    if a != [] { assert a[0] in b; }
    if b != [] { assert b[0] in a; }
    if a != [] && b != [] {
      SameLeast(a, b);
      var a', b' := a[1..], b[1..];
      forall i | 0 <= i < |a'| ensures a'[i] in b' {
        assert a'[i] == a[i + 1];
        LexLessIrreflexive(a[0]);
        InTail(a'[i], b);
      }
      forall i | 0 <= i < |b'| ensures b'[i] in a' {
        assert b'[i] == b[i + 1];
        LexLessIrreflexive(b[0]);
        InTail(b'[i], a);
      }
      StrictlySortedUnique(a', b');
      assert a == [a[0]] + a' && b == [b[0]] + b';
    }
  }

  /** `column.min()` of a non-empty integer column. */
  function MinOf(xs: seq<int>): (m: int)
    requires xs != []
    ensures m in xs && forall i :: 0 <= i < |xs| ==> m <= xs[i]
  {
    if |xs| == 1 then xs[0]
    else
      var rest := MinOf(xs[1..]);
      assert forall i :: 1 <= i < |xs| ==> xs[i] == xs[1..][i - 1];
      if xs[0] <= rest then xs[0] else rest
  }

  /** `column.max()` of a non-empty integer column. */
  function MaxOf(xs: seq<int>): (m: int)
    requires xs != []
    ensures m in xs && forall i :: 0 <= i < |xs| ==> xs[i] <= m
  {
    if |xs| == 1 then xs[0]
    else
      var rest := MaxOf(xs[1..]);
      assert forall i :: 1 <= i < |xs| ==> xs[i] == xs[1..][i - 1];
      if xs[0] >= rest then xs[0] else rest
  }

  function Emotions(df: seq<Track>): (r: seq<string>)
    ensures |r| == |df| && forall i :: 0 <= i < |df| ==> r[i] == df[i].emotion
  {
    seq(|df|, i requires 0 <= i < |df| => df[i].emotion)
  }

  function Genres(df: seq<Track>): (r: seq<string>)
    ensures |r| == |df| && forall i :: 0 <= i < |df| ==> r[i] == df[i].genre
  {
    seq(|df|, i requires 0 <= i < |df| => df[i].genre)
  }

  function Keys(df: seq<Track>): (r: seq<string>)
    ensures |r| == |df| && forall i :: 0 <= i < |df| ==> r[i] == df[i].key
  {
    seq(|df|, i requires 0 <= i < |df| => df[i].key)
  }

  function Tempos(df: seq<Track>): (r: seq<int>)
    ensures |r| == |df| && forall i :: 0 <= i < |df| ==> r[i] == df[i].tempo
  {
    seq(|df|, i requires 0 <= i < |df| => df[i].tempo)
  }

  function Energies(df: seq<Track>): (r: seq<int>)
    ensures |r| == |df| && forall i :: 0 <= i < |df| ==> r[i] == df[i].energy
  {
    seq(|df|, i requires 0 <= i < |df| => df[i].energy)
  }

  function Danceabilities(df: seq<Track>): (r: seq<int>)
    ensures |r| == |df| && forall i :: 0 <= i < |df| ==> r[i] == df[i].danceability
  {
    seq(|df|, i requires 0 <= i < |df| => df[i].danceability)
  }

  datatype Range = Range(min: int, max: int)

  datatype AvailableOptions = AvailableOptions(
    emotions: seq<string>, genres: seq<string>, keys: seq<string>,
    tempoRange: Range, energyRange: Range, danceabilityRange: Range)

  function RangeOf(xs: seq<int>): Range
    requires xs != []
  {
    Range(MinOf(xs), MaxOf(xs))
  }

  /** What `get_available_options` returns. On an empty table `min()` is NaN and
      `int(NaN)` raises `ValueError` as well. */
  function GetAvailableOptions(df: Option<seq<Track>>): (r: Reported<AvailableOptions>)
    ensures r.ValueError? <==> df.None? || df.value == []
    ensures df.None? ==> r == ValueError(NotTrainedMessage)
    ensures df == Some([]) ==> r == ValueError("cannot convert float NaN to integer")
    ensures r.Value? ==>
      StrictlySorted(r.value.emotions) && StrictlySorted(r.value.genres) && StrictlySorted(r.value.keys)
  {
    if df.None? then ValueError(NotTrainedMessage)
    else if df.value == [] then ValueError("cannot convert float NaN to integer")
    else
      var rows := df.value;
      Value(AvailableOptions(
        SortedUnique(Emotions(rows)), SortedUnique(Genres(rows)), SortedUnique(Keys(rows)),
        RangeOf(Tempos(rows)), RangeOf(Energies(rows)), RangeOf(Danceabilities(rows))))
  }

  predicate RangeBounds(r: Range, xs: seq<int>)
  {
    && r.min <= r.max
    && (exists i :: 0 <= i < |xs| && xs[i] == r.min)
    && (exists i :: 0 <= i < |xs| && xs[i] == r.max)
    && forall i :: 0 <= i < |xs| ==> r.min <= xs[i] <= r.max
  }

  lemma RangeOfBounds(xs: seq<int>)
    requires xs != []
    ensures RangeBounds(RangeOf(xs), xs)
  {
    var r := RangeOf(xs);
    var i :| 0 <= i < |xs| && xs[i] == r.min;
    var j :| 0 <= j < |xs| && xs[j] == r.max;
  }

  /** `sorted(column.unique())` holds each value of the column exactly once, in
      increasing order, and nothing else; it is the only list that does. */
  lemma OptionListDescribesColumn(column: seq<string>)
    ensures var r := SortedUnique(column);
      && StrictlySorted(r)
      && (forall i, j :: 0 <= i < j < |r| ==> r[i] != r[j])
      && (forall i :: 0 <= i < |column| ==> column[i] in r)
      && (forall i :: 0 <= i < |r| ==> exists j :: 0 <= j < |column| && column[j] == r[i])
      && forall other: seq<string> ::
           (&& StrictlySorted(other)
            && (forall i :: 0 <= i < |other| ==> other[i] in column)
            && (forall i :: 0 <= i < |column| ==> column[i] in other)) ==> other == r
  {
    var r := SortedUnique(column);
    StrictlySortedDistinct(r);
    forall i | 0 <= i < |r| ensures exists j :: 0 <= j < |column| && column[j] == r[i] {
      assert r[i] in column;
    }
    forall other: seq<string> | StrictlySorted(other) && (forall i :: 0 <= i < |other| ==> other[i] in column)
                                && (forall i :: 0 <= i < |column| ==> column[i] in other)
      ensures other == r
    {
      forall i | 0 <= i < |other| ensures other[i] in r {
        var j :| 0 <= j < |column| && column[j] == other[i];
      }
      forall i | 0 <= i < |r| ensures r[i] in other {
        var j :| 0 <= j < |column| && column[j] == r[i];
      }
      StrictlySortedUnique(other, r);
    }
  }

  /** On a non-empty table every option list is its column's sorted distinct values
      and every range is attained and contains every value of its column. */
  lemma OptionsDescribeTable(df: seq<Track>)
    requires df != []
    ensures var r := GetAvailableOptions(Some(df));
      && r.Value?
      && r.value.emotions == SortedUnique(Emotions(df))
      && r.value.genres == SortedUnique(Genres(df))
      && r.value.keys == SortedUnique(Keys(df))
      && RangeBounds(r.value.tempoRange, Tempos(df))
      && RangeBounds(r.value.energyRange, Energies(df))
      && RangeBounds(r.value.danceabilityRange, Danceabilities(df))
  {
    RangeOfBounds(Tempos(df));
    RangeOfBounds(Energies(df));
    RangeOfBounds(Danceabilities(df));
  }

  /** Calling it untrained raises, with the message the other methods use. */
  lemma OptionsUntrained()
    ensures GetAvailableOptions(None) == ValueError("Model not trained. Please call preprocess_data first.")
  {
  }
}
