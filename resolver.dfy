/** The fuzzy city-name resolver of `src/utils.ts` (repeated in `src/App.tsx`):
    similarity scores, the five-step classification cascade, ranking and the lookup,
    over a catalogue given as a sequence of entries in declaration order. */
module Resolver {
  import opened Text
  import opened Levenshtein
  import opened Types

  /** The default `threshold` of `fuzzySearch`, and the one `findCityByName` passes. */
  const DefaultThreshold: real := 0.3

  /** The length of the `slice(0, 8)` that caps the result list. */
  const MaxResults: nat := 8

  /** `calculateSimilarity(input, target)`: `1 - d / maxLength` for the edit distance of
      the lower-cased strings, the lengths taken from the arguments as given. */
  function Similarity(input: string, target: string): (r: real)
    ensures 0.0 <= r <= 1.0
    ensures r == 1.0 <==> Lower(input) == Lower(target)
  {
    var d := EditDistance(Lower(input), Lower(target));
    var maxLength := Max(|input|, |target|);
    UpperBound(Lower(input), Lower(target));
    ZeroIff(Lower(input), Lower(target));
    if maxLength == 0 then 1.0
    else
      Ratio(d, maxLength);
      1.0 - (d as real) / (maxLength as real)
  }

  /** The ratio `d / m` of a distance to a length it does not exceed. */
  lemma Ratio(d: nat, m: nat)
    requires 0 < m && d <= m
    ensures 0.0 <= (d as real) / (m as real) <= 1.0
    ensures (d as real) / (m as real) == 0.0 <==> d == 0
  {
    var q := (d as real) / (m as real);
    assert q * (m as real) == d as real;
  }

  lemma SimilaritySymmetric(a: string, b: string)
    ensures Similarity(a, b) == Similarity(b, a)
  {
    Levenshtein.Symmetric(Lower(a), Lower(b));
  }

  /** Lower-casing an argument first does not change its similarity to anything. */
  lemma SimilarityOfLowered(a: string, b: string)
    ensures Similarity(a, Lower(b)) == Similarity(a, b)
  {
    LowerIdempotent(b);
  }

  /** Strings of eleven or more characters that differ, after lower-casing, only in their
      last character are more than 0.9 similar: a fuzzy score can rank above the 0.9 of
      a substring hit on another record. */
  lemma OneSubstitutionAboveSubstring(a: string, b: string)
    requires |a| == |b| > 10
    requires DropLast(Lower(a)) == DropLast(Lower(b))
    ensures Similarity(a, b) > 0.9
  {
    var la, lb := Lower(a), Lower(b);
    ZeroIff(DropLast(la), DropLast(lb));
    assert EditDistance(la, lb) <= 1;
    var n := |a| as real;
    assert (EditDistance(la, lb) as real) / n <= 1.0 / n;
  }

  /** The computation `calculateSimilarity` performs, on the dynamic-programming table. */
  method CalculateSimilarity(input: string, target: string) returns (similarity: real)
    ensures similarity == Similarity(input, target)
  {
    var distance := LevenshteinDistance(Lower(input), Lower(target));
    var maxLength := Max(|input|, |target|);
    similarity := if maxLength == 0 then 1.0 else 1.0 - (distance as real) / (maxLength as real);
  }

  /** `Math.max(...xs)`; `None` stands for the `-Infinity` of an empty list. */
  function MaxOf(xs: seq<real>): (r: Option<real>)
    ensures r.None? <==> xs == []
    ensures r.Some? ==> forall i :: 0 <= i < |xs| ==> xs[i] <= r.value
    ensures r.Some? ==> exists i :: 0 <= i < |xs| && r.value == xs[i]
  {
    if xs == [] then None
    else
      var rest := MaxOf(xs[1..]);
      if rest.None? || xs[0] >= rest.value then Some(xs[0])
      else
        assert exists i :: 1 <= i < |xs| && rest.value == xs[i];
        rest
  }

  /** `city.aliases.map(alias => calculateSimilarity(queryLower, alias))`. */
  function AliasSimilarities(queryLower: string, aliases: seq<string>): (r: seq<real>)
    ensures |r| == |aliases|
    ensures forall i :: 0 <= i < |aliases| ==> r[i] == Similarity(queryLower, aliases[i])
  {
    seq(|aliases|, i requires 0 <= i < |aliases| => Similarity(queryLower, aliases[i]))
  }

  /** The four tests of the cascade, on the lower-cased query. */
  predicate NameEquals(queryLower: string, city: CityData) {
    Lower(city.name) == queryLower
  }

  predicate AliasEquals(queryLower: string, city: CityData) {
    exists i :: 0 <= i < |city.aliases| && Lower(city.aliases[i]) == queryLower
  }

  predicate NameContains(queryLower: string, city: CityData) {
    Contains(Lower(city.name), queryLower)
  }

  predicate AliasContains(queryLower: string, city: CityData) {
    exists i :: 0 <= i < |city.aliases| && Contains(Lower(city.aliases[i]), queryLower)
  }

  /** What the `forEach` callback computes for one record before the threshold test. */
  datatype Classification = Classification(score: real, matchType: MatchType)

  /** The first-match-wins cascade of `fuzzySearch` for one record. */
  function Classify(queryLower: string, city: CityData): (r: Classification)
    ensures r.matchType == Exact <==> NameEquals(queryLower, city)
    ensures r.matchType == ExactAlias <==> !NameEquals(queryLower, city) && AliasEquals(queryLower, city)
    ensures r.matchType == Partial <==>
      !NameEquals(queryLower, city) && !AliasEquals(queryLower, city) && NameContains(queryLower, city)
    ensures r.matchType == PartialAlias <==>
      !NameEquals(queryLower, city) && !AliasEquals(queryLower, city) && !NameContains(queryLower, city)
      && AliasContains(queryLower, city)
    ensures r.matchType.IsExact() ==> r.score == 1.0
    ensures r.matchType.IsPartial() ==> r.score == 0.9
    // the fuzzy fallback scores the best similarity of the name and of every alias,
    // and a tie between the name and the best alias goes to the name
    ensures r.matchType.IsFuzzy() ==>
      && r.score >= Similarity(queryLower, city.name)
      && (forall i :: 0 <= i < |city.aliases| ==> r.score >= Similarity(queryLower, city.aliases[i]))
      && (r.score == Similarity(queryLower, city.name)
          || exists i :: 0 <= i < |city.aliases| && r.score == Similarity(queryLower, city.aliases[i]))
    ensures r.matchType == FuzzyName <==>
      (r.matchType.IsFuzzy() && forall i :: 0 <= i < |city.aliases| ==>
        Similarity(queryLower, city.name) >= Similarity(queryLower, city.aliases[i]))
    ensures 0.0 <= r.score <= 1.0
  {
    if NameEquals(queryLower, city) then Classification(1.0, Exact)
    else if AliasEquals(queryLower, city) then Classification(1.0, ExactAlias)
    else if NameContains(queryLower, city) then Classification(0.9, Partial)
    else if AliasContains(queryLower, city) then Classification(0.9, PartialAlias)
    else
      var nameSimilarity := Similarity(queryLower, city.name);
      var sims := AliasSimilarities(queryLower, city.aliases);
      var maxAliasSimilarity := MaxOf(sims);
      if maxAliasSimilarity.None? || nameSimilarity >= maxAliasSimilarity.value then
        Classification(nameSimilarity, FuzzyName)
      else
        Classification(maxAliasSimilarity.value, FuzzyAlias)
  }

  /** The record as `fuzzySearch` would push it: spread with its score and match type. */
  function Scored(queryLower: string, city: CityData): (r: ScoredCity)
    ensures r.city == city
    ensures Classification(r.score, r.matchType) == Classify(queryLower, city)
  {
    var c := Classify(queryLower, city);
    ScoredCity(city, c.score, c.matchType)
  }

  /** Every entry of `cat` scored against the query, in declaration order. */
  function ScoreAll(queryLower: string, cat: seq<Entry>): (r: seq<ScoredCity>)
    ensures |r| == |cat|
    ensures forall i :: 0 <= i < |cat| ==> r[i] == Scored(queryLower, cat[i].city)
  {
    seq(|cat|, i requires 0 <= i < |cat| => Scored(queryLower, cat[i].city))
  }

  /** The elements of `s` that clear the threshold, in order. */
  function Keep(threshold: real, s: seq<ScoredCity>): (r: seq<ScoredCity>)
    ensures |r| <= |s|
    decreases |s|
  {
    if s == [] then []
    else
      var last := s[|s| - 1];
      Keep(threshold, s[..|s| - 1]) + (if last.score >= threshold then [last] else [])
  }

  lemma {:induction false} KeepMembers(threshold: real, s: seq<ScoredCity>, x: ScoredCity)
    ensures x in Keep(threshold, s) <==> x in s && x.score >= threshold
    decreases |s|
  {
    if s != [] {
      KeepMembers(threshold, s[..|s| - 1], x);
      assert s == s[..|s| - 1] + [s[|s| - 1]];
    }
  }

  lemma {:induction false} KeepAppend(threshold: real, a: seq<ScoredCity>, b: seq<ScoredCity>)
    ensures Keep(threshold, a + b) == Keep(threshold, a) + Keep(threshold, b)
    decreases |b|
  {
    if b == [] {
      assert a + b == a;
    } else {
      assert (a + b)[..|a + b| - 1] == a + b[..|b| - 1];
      KeepAppend(threshold, a, b[..|b| - 1]);
    }
  }

  /** The `results` array after the `forEach` over the entries of `cat`. */
  function Matches(queryLower: string, threshold: real, cat: seq<Entry>): (r: seq<ScoredCity>)
    ensures |r| <= |cat|
  {
    Keep(threshold, ScoreAll(queryLower, cat))
  }

  /** A record reaches `results` exactly when its score clears the threshold, and then
      unchanged apart from the added score and match type. */
  lemma MatchesMembers(queryLower: string, threshold: real, cat: seq<Entry>, x: ScoredCity)
    ensures x in Matches(queryLower, threshold, cat) <==>
      exists i :: 0 <= i < |cat| && x == Scored(queryLower, cat[i].city) && x.score >= threshold
  {
    KeepMembers(threshold, ScoreAll(queryLower, cat), x);
  }

  /** One more entry of the `forEach`. */
  lemma MatchesStep(queryLower: string, threshold: real, cat: seq<Entry>, k: nat)
    requires k < |cat|
    ensures var x := Scored(queryLower, cat[k].city);
      Matches(queryLower, threshold, cat[..k + 1]) ==
        Matches(queryLower, threshold, cat[..k]) + (if x.score >= threshold then [x] else [])
  {
    var all := ScoreAll(queryLower, cat[..k + 1]);
    assert all[..k] == ScoreAll(queryLower, cat[..k]);
  }

  /** Results follow the declaration order: the records of a catalogue that is split in
      two come out as those of the first part followed by those of the second. */
  lemma MatchesAppend(queryLower: string, threshold: real, a: seq<Entry>, b: seq<Entry>)
    ensures Matches(queryLower, threshold, a + b) ==
      Matches(queryLower, threshold, a) + Matches(queryLower, threshold, b)
  {
    var left, right := ScoreAll(queryLower, a), ScoreAll(queryLower, b);
    ScoreAllAppend(queryLower, a, b);
    KeepAppend(threshold, left, right);
  }

  lemma ScoreAllAppend(queryLower: string, a: seq<Entry>, b: seq<Entry>)
    ensures ScoreAll(queryLower, a + b) == ScoreAll(queryLower, a) + ScoreAll(queryLower, b)
  {
    var whole, left, right := ScoreAll(queryLower, a + b), ScoreAll(queryLower, a), ScoreAll(queryLower, b);
    forall k | 0 <= k < |whole|
      ensures whole[k] == (left + right)[k]
    {
      if k < |a| {
        assert (a + b)[k] == a[k];
      } else {
        assert (a + b)[k] == b[k - |a|];
      }
    }
  }

  predicate SortedByScore(s: seq<ScoredCity>) {
    forall i, j :: 0 <= i < j < |s| ==> s[i].score >= s[j].score
  }

  /** Places `x` after every element whose score is at least its own. */
  function Insert(x: ScoredCity, s: seq<ScoredCity>): (r: seq<ScoredCity>)
    ensures |r| == |s| + 1
  {
    if s == [] then [x]
    else if s[0].score >= x.score then [s[0]] + Insert(x, s[1..])
    else [x] + s
  }

  lemma {:induction false} InsertPermutes(x: ScoredCity, s: seq<ScoredCity>)
    ensures multiset(Insert(x, s)) == multiset(s) + multiset{x}
    decreases |s|
  {
    if s != [] {
      assert s == [s[0]] + s[1..];
      if s[0].score >= x.score {
        InsertPermutes(x, s[1..]);
      }
    }
  }

  /** A bound on every score survives the insertion of a score within it. */
  lemma {:induction false} InsertBounded(x: ScoredCity, s: seq<ScoredCity>, b: real)
    requires x.score <= b && forall i :: 0 <= i < |s| ==> s[i].score <= b
    ensures forall i :: 0 <= i < |s| + 1 ==> Insert(x, s)[i].score <= b
    decreases |s|
  {
    if s != [] && s[0].score >= x.score {
      InsertBounded(x, s[1..], b);
    }
  }

  /** Inserting into a sorted list keeps it sorted. */
  lemma {:induction false} InsertSorted(x: ScoredCity, s: seq<ScoredCity>)
    requires SortedByScore(s)
    ensures SortedByScore(Insert(x, s))
    decreases |s|
  {
    if s != [] && s[0].score >= x.score {
      InsertSorted(x, s[1..]);
      InsertBounded(x, s[1..], s[0].score);
    }
  }

  /** Insertion sort by score: each element goes after every earlier element scoring
      at least as much. */
  function InsertionSort(s: seq<ScoredCity>): seq<ScoredCity>
    decreases |s|
  {
    if s == [] then [] else Insert(s[|s| - 1], InsertionSort(s[..|s| - 1]))
  }

  lemma {:induction false} InsertionSortProps(s: seq<ScoredCity>)
    ensures |InsertionSort(s)| == |s|
    ensures multiset(InsertionSort(s)) == multiset(s)
    ensures SortedByScore(InsertionSort(s))
    decreases |s|
  {
    if s != [] {
      var init, last := s[..|s| - 1], s[|s| - 1];
      InsertionSortProps(init);
      assert s == init + [last];
      InsertPermutes(last, InsertionSort(init));
      InsertSorted(last, InsertionSort(init));
    }
  }

  /** `results.sort((a, b) => b.score - a.score)`: a stable sort, highest score first. */
  function SortByScore(s: seq<ScoredCity>): (r: seq<ScoredCity>)
    ensures |r| == |s|
    ensures multiset(r) == multiset(s)
    ensures SortedByScore(r)
  {
    InsertionSortProps(s);
    InsertionSort(s)
  }

  /** The elements of `s` whose score is `v`, in order. */
  function WithScore(s: seq<ScoredCity>, v: real): seq<ScoredCity> {
    if s == [] then []
    else (if s[0].score == v then [s[0]] else []) + WithScore(s[1..], v)
  }

  lemma {:induction false} WithScoreAppend(a: seq<ScoredCity>, b: seq<ScoredCity>, v: real)
    ensures WithScore(a + b, v) == WithScore(a, v) + WithScore(b, v)
    decreases |a|
  {
    if a != [] {
      assert (a + b)[0] == a[0] && (a + b)[1..] == a[1..] + b;
      WithScoreAppend(a[1..], b, v);
    } else {
      assert a + b == b;
    }
  }

  lemma {:induction false} WithScoreNone(s: seq<ScoredCity>, v: real)
    requires forall i :: 0 <= i < |s| ==> s[i].score < v
    ensures WithScore(s, v) == []
    decreases |s|
  {
    if s != [] {
      WithScoreNone(s[1..], v);
    }
  }

  /** The tail of a sorted list is sorted, and its head scores highest. */
  lemma SortedTail(s: seq<ScoredCity>)
    requires s != [] && SortedByScore(s)
    ensures SortedByScore(s[1..])
    ensures forall i :: 0 <= i < |s| ==> s[i].score <= s[0].score
  {
    forall i, j | 0 <= i < j < |s| - 1
      ensures s[1..][i].score >= s[1..][j].score
    {
      assert s[1..][i] == s[i + 1] && s[1..][j] == s[j + 1];
    }
  }

  lemma {:induction false} InsertStable(x: ScoredCity, s: seq<ScoredCity>, v: real)
    requires SortedByScore(s)
    ensures WithScore(Insert(x, s), v) == WithScore(s, v) + WithScore([x], v)
    decreases |s|
  {
    if s != [] && s[0].score >= x.score {
      SortedTail(s);
      InsertStable(x, s[1..], v);
      InsertStableBehind(x, s, v);
    } else {
      InsertStableFront(x, s, v);
    }
  }

  /** The step case of `InsertStable`: `x` goes behind the head. */
  lemma InsertStableBehind(x: ScoredCity, s: seq<ScoredCity>, v: real)
    requires s != [] && s[0].score >= x.score
    requires WithScore(Insert(x, s[1..]), v) == WithScore(s[1..], v) + WithScore([x], v)
    ensures WithScore(Insert(x, s), v) == WithScore(s, v) + WithScore([x], v)
  {
    InsertBehind(x, s);
    ConsStable(s[0], s[1..], Insert(x, s[1..]), Insert(x, s), [x], v);
    assert [s[0]] + s[1..] == s;
  }

  /** Putting the same element in front of two lists whose filtered forms differ by a
      suffix keeps that difference. */
  lemma ConsStable(h: ScoredCity, tail: seq<ScoredCity>, rest: seq<ScoredCity>,
                   whole: seq<ScoredCity>, suffix: seq<ScoredCity>, v: real)
    requires whole == [h] + rest
    requires WithScore(rest, v) == WithScore(tail, v) + WithScore(suffix, v)
    ensures WithScore(whole, v) == WithScore([h] + tail, v) + WithScore(suffix, v)
  {
    WithScoreAppend([h], rest, v);
    WithScoreAppend([h], tail, v);
    AppendAssoc(WithScore([h], v), WithScore(tail, v), WithScore(suffix, v));
  }

  lemma AppendAssoc(a: seq<ScoredCity>, b: seq<ScoredCity>, c: seq<ScoredCity>)
    ensures a + (b + c) == (a + b) + c
  {
    forall k | 0 <= k < |a| + |b| + |c|
      ensures (a + (b + c))[k] == ((a + b) + c)[k]
    {
      if k >= |a| {
        assert (a + (b + c))[k] == (b + c)[k - |a|];
      }
    }
  }

  lemma InsertBehind(x: ScoredCity, s: seq<ScoredCity>)
    requires s != [] && s[0].score >= x.score
    ensures Insert(x, s) == [s[0]] + Insert(x, s[1..])
  {
  }

  /** The base case of `InsertStable`: `x` goes in front, ahead of lower scores only. */
  lemma InsertStableFront(x: ScoredCity, s: seq<ScoredCity>, v: real)
    requires SortedByScore(s) && (s == [] || s[0].score < x.score)
    ensures WithScore(Insert(x, s), v) == WithScore(s, v) + WithScore([x], v)
  {
    assert Insert(x, s) == [x] + s;
    WithScoreAppend([x], s, v);
    if s != [] && v == x.score {
      SortedTail(s);
      WithScoreNone(s, v);
    } else if s != [] {
      assert WithScore([x], v) == [] by {
        assert [x][1..] == [];
      }
    }
  }

  /** Stability: among equal scores the sort keeps the original order. */
  lemma SortStable(s: seq<ScoredCity>, v: real)
    ensures WithScore(SortByScore(s), v) == WithScore(s, v)
  {
    InsertionSortStable(s, v);
  }

  lemma {:induction false} InsertionSortStable(s: seq<ScoredCity>, v: real)
    ensures WithScore(InsertionSort(s), v) == WithScore(s, v)
    decreases |s|
  {
    if s != [] {
      var init, last := s[..|s| - 1], s[|s| - 1];
      InsertionSortStable(init, v);
      InsertionSortProps(init);
      InsertStable(last, InsertionSort(init), v);
      WithScoreAppend(init, [last], v);
      assert init + [last] == s;
    }
  }

  /** `slice(0, n)`. */
  function Take<T>(s: seq<T>, n: nat): (r: seq<T>)
    ensures |r| <= n && |r| <= |s|
    ensures |r| == n || |r| == |s|
    ensures r == s[..|r|]
    ensures |s| <= n ==> r == s
  {
    if |s| <= n then s else s[..n]
  }

  /** `fuzzySearch(query, threshold)` over the catalogue `cat`. */
  function Search(query: string, threshold: real, cat: seq<Entry>): (r: seq<ScoredCity>)
    ensures IsBlank(query) ==> r == []
    ensures |r| <= MaxResults
    ensures SortedByScore(r)
  {
    if IsBlank(query) then []
    else Take(SortByScore(Matches(Lower(query), threshold, cat)), MaxResults)
  }

  predicate IsPrefix<T(==)>(a: seq<T>, b: seq<T>) {
    |a| <= |b| && a == b[..|a|]
  }

  /** Every result is a catalogue record that cleared the threshold, carrying the
      score and match type of its classification and otherwise unchanged. */
  lemma SearchSound(query: string, threshold: real, cat: seq<Entry>, x: ScoredCity)
    requires x in Search(query, threshold, cat)
    ensures x.score >= threshold
    ensures exists i :: 0 <= i < |cat| && x == Scored(Lower(query), cat[i].city)
  {
    var sorted := SortByScore(Matches(Lower(query), threshold, cat));
    assert x in sorted;
    assert x in multiset(sorted);
    MatchesMembers(Lower(query), threshold, cat, x);
  }

  /** A record that clears the threshold is returned, unless eight results that score
      at least as high fill the list. */
  lemma SearchComplete(query: string, threshold: real, cat: seq<Entry>, i: nat)
    requires !IsBlank(query) && i < |cat|
    requires Scored(Lower(query), cat[i].city).score >= threshold
    ensures var x := Scored(Lower(query), cat[i].city); var r := Search(query, threshold, cat);
      x in r || (|r| == MaxResults && forall j :: 0 <= j < |r| ==> r[j].score >= x.score)
  {
    var x := Scored(Lower(query), cat[i].city);
    var matches := Matches(Lower(query), threshold, cat);
    var sorted := SortByScore(matches);
    MatchesMembers(Lower(query), threshold, cat, x);
    assert x in multiset(matches);
    assert x in sorted;
    var k :| 0 <= k < |sorted| && sorted[k] == x;
    if |sorted| > MaxResults && k >= MaxResults {
      assert forall j :: 0 <= j < MaxResults ==> sorted[j].score >= sorted[k].score;
    }
  }

  /** The head of a list's `v`-scored elements is kept by every prefix that holds any. */
  lemma WithScorePrefix(s: seq<ScoredCity>, n: nat, v: real)
    requires n <= |s|
    ensures IsPrefix(WithScore(s[..n], v), WithScore(s, v))
  {
    WithScoreAppend(s[..n], s[n..], v);
    assert s[..n] + s[n..] == s;
  }

  /** Equal scores come out in declaration order: the results with score `v` are the
      first ones of all the catalogue's records with score `v`. */
  lemma SearchTies(query: string, threshold: real, cat: seq<Entry>, v: real)
    requires !IsBlank(query)
    ensures IsPrefix(WithScore(Search(query, threshold, cat), v),
                     WithScore(Matches(Lower(query), threshold, cat), v))
  {
    var matches := Matches(Lower(query), threshold, cat);
    var sorted := SortByScore(matches);
    var r := Search(query, threshold, cat);
    SortStable(matches, v);
    WithScorePrefix(sorted, |r|, v);
  }

  /** The list is empty exactly for a blank query or when no record clears the threshold. */
  lemma SearchEmptyIff(query: string, threshold: real, cat: seq<Entry>)
    ensures Search(query, threshold, cat) == [] <==>
      IsBlank(query) || forall i :: 0 <= i < |cat| ==> Scored(Lower(query), cat[i].city).score < threshold
  {
    if !IsBlank(query) {
      var matches := Matches(Lower(query), threshold, cat);
      SearchOfNonBlank(query, threshold, cat);
      if matches == [] {
        forall i | 0 <= i < |cat|
          ensures Scored(Lower(query), cat[i].city).score < threshold
        {
          MatchesMembers(Lower(query), threshold, cat, Scored(Lower(query), cat[i].city));
        }
      } else {
        MatchesMembers(Lower(query), threshold, cat, matches[0]);
      }
    }
  }

  /** For a query that is not blank, the result is the matches, sorted and cut. */
  lemma SearchOfNonBlank(query: string, threshold: real, cat: seq<Entry>)
    requires !IsBlank(query)
    ensures Search(query, threshold, cat) == Take(SortByScore(Matches(Lower(query), threshold, cat)), MaxResults)
  {
  }

  /** The head of the sorted list scores at least as much as every element. */
  lemma SortHeadMax(s: seq<ScoredCity>, x: ScoredCity)
    requires x in s
    ensures SortByScore(s) != [] && SortByScore(s)[0].score >= x.score
  {
    var sorted := SortByScore(s);
    assert x in multiset(s);
    assert x in sorted;
    var i :| 0 <= i < |sorted| && sorted[i] == x;
    if i > 0 {
      assert sorted[0].score >= sorted[i].score;
    }
  }

  /** The first result scores at least as high as every record that clears the
      threshold, and is the first such record, in declaration order, with that score. */
  lemma SearchHead(query: string, threshold: real, cat: seq<Entry>)
    requires Search(query, threshold, cat) != []
    ensures var head := Search(query, threshold, cat)[0];
      && (forall i :: 0 <= i < |cat| && Scored(Lower(query), cat[i].city).score >= threshold ==>
            head.score >= Scored(Lower(query), cat[i].city).score)
      && |WithScore(Matches(Lower(query), threshold, cat), head.score)| > 0
      && head == WithScore(Matches(Lower(query), threshold, cat), head.score)[0]
  {
    var matches := Matches(Lower(query), threshold, cat);
    var sorted := SortByScore(matches);
    var head := sorted[0];
    forall i | 0 <= i < |cat| && Scored(Lower(query), cat[i].city).score >= threshold
      ensures head.score >= Scored(Lower(query), cat[i].city).score
    {
      var x := Scored(Lower(query), cat[i].city);
      MatchesMembers(Lower(query), threshold, cat, x);
      SortHeadMax(matches, x);
    }
    SortStable(matches, head.score);
    assert sorted == [head] + sorted[1..];
    WithScoreAppend([head], sorted[1..], head.score);
  }

  /** Among the kept elements scoring 1, the first is the first element of `s` scoring 1. */
  lemma KeepFirstTop(threshold: real, s: seq<ScoredCity>, i: nat)
    requires threshold <= 1.0 && i < |s| && s[i].score == 1.0
    requires forall j :: 0 <= j < i ==> s[j].score < 1.0
    ensures |WithScore(Keep(threshold, s), 1.0)| > 0
    ensures WithScore(Keep(threshold, s), 1.0)[0] == s[i]
  {
    var before, after := s[..i], s[i + 1..];
    assert s == before + ([s[i]] + after);
    KeepAppend(threshold, before, [s[i]] + after);
    KeepAppend(threshold, [s[i]], after);
    assert Keep(threshold, [s[i]]) == [s[i]] by {
      assert [s[i]][..0] == [];
    }
    forall k | 0 <= k < |Keep(threshold, before)|
      ensures Keep(threshold, before)[k].score < 1.0
    {
      KeepMembers(threshold, before, Keep(threshold, before)[k]);
    }
    WithScoreNone(Keep(threshold, before), 1.0);
    WithScoreAppend(Keep(threshold, before), [s[i]] + Keep(threshold, after), 1.0);
    WithScoreAppend([s[i]], Keep(threshold, after), 1.0);
  }

  /** When some record scores 1, so does the head of the list. */
  lemma HeadScoresOne(query: string, threshold: real, cat: seq<Entry>, i: nat)
    requires !IsBlank(query) && threshold <= 1.0 && i < |cat|
    requires Scored(Lower(query), cat[i].city).score == 1.0
    ensures Search(query, threshold, cat) != []
    ensures Search(query, threshold, cat)[0].score == 1.0
  {
    var queryLower := Lower(query);
    SearchEmptyIff(query, threshold, cat);
    assert Search(query, threshold, cat) != [];
    SearchHead(query, threshold, cat);
    var head := Search(query, threshold, cat)[0];
    SearchSound(query, threshold, cat, head);
    var j :| 0 <= j < |cat| && head == Scored(queryLower, cat[j].city);
    assert head.score <= 1.0 by {
      assert Classification(head.score, head.matchType) == Classify(queryLower, cat[j].city);
    }
  }

  /** The first record, in declaration order, that scores 1 heads the list. */
  lemma FirstExactHeads(query: string, threshold: real, cat: seq<Entry>, i: nat)
    requires !IsBlank(query) && threshold <= 1.0 && i < |cat|
    requires Scored(Lower(query), cat[i].city).score == 1.0
    requires forall j :: 0 <= j < i ==> Scored(Lower(query), cat[j].city).score < 1.0
    ensures Search(query, threshold, cat) != []
    ensures Search(query, threshold, cat)[0] == Scored(Lower(query), cat[i].city)
  {
    var scored := ScoreAll(Lower(query), cat);
    HeadScoresOne(query, threshold, cat, i);
    SearchHead(query, threshold, cat);
    KeepFirstTop(threshold, scored, i);
    assert Matches(Lower(query), threshold, cat) == Keep(threshold, scored);
  }

  /** The `forEach` callback of `fuzzySearch` for one record: the cascade, with the
      similarities computed on the table. */
  method ScoreCity(queryLower: string, city: CityData) returns (scored: ScoredCity)
    ensures scored == Scored(queryLower, city)
  {
    var bestScore: real, matchType: MatchType;
    if Lower(city.name) == queryLower {
      bestScore, matchType := 1.0, Exact;
    } else if exists i :: 0 <= i < |city.aliases| && Lower(city.aliases[i]) == queryLower {
      bestScore, matchType := 1.0, ExactAlias;
    } else if Contains(Lower(city.name), queryLower) {
      bestScore, matchType := 0.9, Partial;
    } else if exists i :: 0 <= i < |city.aliases| && Contains(Lower(city.aliases[i]), queryLower) {
      bestScore, matchType := 0.9, PartialAlias;
    } else {
      var nameSimilarity := CalculateSimilarity(queryLower, city.name);
      var aliasSimilarities: seq<real> := [];
      var k := 0;
      while k < |city.aliases|
        invariant 0 <= k <= |city.aliases|
        invariant |aliasSimilarities| == k
        invariant forall i :: 0 <= i < k ==> aliasSimilarities[i] == Similarity(queryLower, city.aliases[i])
      {
        var similarity := CalculateSimilarity(queryLower, city.aliases[k]);
        aliasSimilarities := aliasSimilarities + [similarity];
        k := k + 1;
      }
      assert aliasSimilarities == AliasSimilarities(queryLower, city.aliases);
      var maxAliasSimilarity := MaxOf(aliasSimilarities);
      if maxAliasSimilarity.None? || nameSimilarity >= maxAliasSimilarity.value {
        bestScore, matchType := nameSimilarity, FuzzyName;
      } else {
        bestScore, matchType := maxAliasSimilarity.value, FuzzyAlias;
      }
    }
    scored := ScoredCity(city, bestScore, matchType);
  }

  /** One turn of the `forEach`: scores entry `k` and pushes it when it clears the threshold. */
  method VisitEntry(queryLower: string, threshold: real, cat: seq<Entry>, k: nat, results: seq<ScoredCity>)
    returns (next: seq<ScoredCity>)
    requires k < |cat| && results == Matches(queryLower, threshold, cat[..k])
    ensures next == Matches(queryLower, threshold, cat[..k + 1])
  {
    var scored := ScoreCity(queryLower, cat[k].city);
    MatchesStep(queryLower, threshold, cat, k);
    next := if scored.score >= threshold then results + [scored] else results;
  }

  /** `fuzzySearch(query, threshold)`: classifies every entry, keeps those at or above the
      threshold, sorts them and returns at most eight. */
  method FuzzySearch(query: string, threshold: real, cat: seq<Entry>) returns (results: seq<ScoredCity>)
    ensures results == Search(query, threshold, cat)
  {
    if Trim(query) == [] {
      return [];
    }
    var queryLower := Lower(query);
    var found: seq<ScoredCity> := [];
    var k := 0;
    assert ScoreAll(queryLower, cat[..0]) == [];
    while k < |cat|
      invariant 0 <= k <= |cat|
      invariant found == Matches(queryLower, threshold, cat[..k])
    {
      found := VisitEntry(queryLower, threshold, cat, k, found);
      k := k + 1;
    }
    assert cat[..|cat|] == cat;
    results := Take(SortByScore(found), MaxResults);
  }

  /** `findCityByName(cityName)`: the first result at the default threshold, if any. */
  method FindCityByName(cityName: string, cat: seq<Entry>) returns (city: Option<ScoredCity>)
    ensures city.None? <==> Search(cityName, DefaultThreshold, cat) == []
    ensures city.Some? ==> city.value == Search(cityName, DefaultThreshold, cat)[0]
  {
    var results := FuzzySearch(cityName, DefaultThreshold, cat);
    city := if |results| > 0 then Some(results[0]) else None;
  }

  /** A record scores 1 exactly when its name or one of its aliases equals the query
      case-insensitively: a fuzzy score never reaches 1. */
  lemma ExactScoreIff(query: string, city: CityData)
    ensures var queryLower := Lower(query);
      Classify(queryLower, city).score == 1.0 <==>
        NameEquals(queryLower, city) || AliasEquals(queryLower, city)
  {
    LowerIdempotent(query);
    var queryLower := Lower(query);
    if Classify(queryLower, city).matchType.IsFuzzy() {
      assert Similarity(queryLower, city.name) < 1.0;
      assert forall i :: 0 <= i < |city.aliases| ==> Similarity(queryLower, city.aliases[i]) < 1.0;
    }
  }

  /** With the lower-cased name among the aliases (as in every catalogue record), the
      fuzzy score is the best alias similarity, and `fuzzy_name` is chosen exactly when
      the name is as similar as that best alias. */
  lemma FuzzyNameIffTie(queryLower: string, city: CityData)
    requires Lower(city.name) in city.aliases
    ensures var c := Classify(queryLower, city);
      c.matchType.IsFuzzy() ==>
        && MaxOf(AliasSimilarities(queryLower, city.aliases)) == Some(c.score)
        && (c.matchType == FuzzyName <==> Similarity(queryLower, city.name) == c.score)
  {
    var c := Classify(queryLower, city);
    if c.matchType.IsFuzzy() {
      var nameSimilarity := Similarity(queryLower, city.name);
      var sims := AliasSimilarities(queryLower, city.aliases);
      var k :| 0 <= k < |city.aliases| && city.aliases[k] == Lower(city.name);
      SimilarityOfLowered(queryLower, city.name);
      assert sims[k] == nameSimilarity;
      if c.score != nameSimilarity {
        var i :| 0 <= i < |city.aliases| && c.score == Similarity(queryLower, city.aliases[i]);
        assert c.score == sims[i];
      }
      BestOfTie(c.score, nameSimilarity, sims, k);
    }
  }

  /** A score at least the name's and every alias's similarity, and equal to one of
      them, is the best alias similarity when one alias is as similar as the name; and
      the name then beats every alias exactly when it reaches that score. */
  lemma BestOfTie(score: real, nameSimilarity: real, sims: seq<real>, k: nat)
    requires k < |sims| && sims[k] == nameSimilarity
    requires score >= nameSimilarity && forall i :: 0 <= i < |sims| ==> score >= sims[i]
    requires score == nameSimilarity || exists i :: 0 <= i < |sims| && score == sims[i]
    ensures MaxOf(sims) == Some(score)
    ensures (forall i :: 0 <= i < |sims| ==> nameSimilarity >= sims[i]) <==> nameSimilarity == score
  {
  }

  /** A non-blank query is lower-cased but not trimmed: one that starts with whitespace
      never equals a name that does not. */
  lemma UntrimmedQuery(query: string, city: CityData)
    requires |query| > 0 && (IsWhitespace(query[0]) || IsWhitespace(query[|query| - 1]))
    requires TrimmedEnds(city.name)
    requires forall i :: 0 <= i < |city.aliases| ==> TrimmedEnds(city.aliases[i])
    ensures !NameEquals(Lower(query), city)
    ensures !AliasEquals(Lower(query), city)
  {
    LoweredEdgesDiffer(query, city.name);
    forall i | 0 <= i < |city.aliases|
      ensures Lower(city.aliases[i]) != Lower(query)
    {
      LoweredEdgesDiffer(query, city.aliases[i]);
    }
  }

  /** A non-empty string that neither starts nor ends with whitespace. */
  predicate TrimmedEnds(t: string) {
    |t| > 0 && !IsWhitespace(t[0]) && !IsWhitespace(t[|t| - 1])
  }

  /** Lower-casing keeps whitespace and never produces it, so a whitespace end
      survives it and cannot match a string without one. */
  lemma LoweredEdgesDiffer(q: string, t: string)
    requires |q| > 0 && (IsWhitespace(q[0]) || IsWhitespace(q[|q| - 1]))
    requires TrimmedEnds(t)
    ensures Lower(q) != Lower(t)
  {
    if |q| == |t| {
      if IsWhitespace(q[0]) {
        assert Lower(q)[0] != Lower(t)[0];
      } else {
        assert Lower(q)[|q| - 1] != Lower(t)[|t| - 1];
      }
    }
  }

  const ExactLabel := "完全一致"
  const PartialLabel := "部分一致"
  const FuzzyLabel := "あいまい検索"

  /** `getMatchTypeDescription(matchType)`. */
  function MatchTypeDescription(matchType: string): (r: string)
    ensures forall m: MatchType :: m.Tag() == matchType ==>
      r == (if m.IsExact() then ExactLabel else if m.IsPartial() then PartialLabel else FuzzyLabel)
    ensures r == "" <==> forall m: MatchType :: m.Tag() != matchType
  {
    if matchType == "exact" || matchType == "exact_alias" then
      assert Exact.Tag() == "exact" && ExactAlias.Tag() == "exact_alias";
      ExactLabel
    else if matchType == "partial" || matchType == "partial_alias" then
      assert Partial.Tag() == "partial" && PartialAlias.Tag() == "partial_alias";
      PartialLabel
    else if matchType == "fuzzy_name" || matchType == "fuzzy_alias" then
      assert FuzzyName.Tag() == "fuzzy_name" && FuzzyAlias.Tag() == "fuzzy_alias";
      FuzzyLabel
    else ""
  }
}
