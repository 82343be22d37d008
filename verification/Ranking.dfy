/** `searchDocuments`: filter, score, stable sort by descending score, cut at a maximum. */
module Ranking {
  import opened Relevance

  datatype Document = Document(fields: Fields, category: string, difficulty: string)

  datatype Filters = Filters(categories: seq<string>, difficulties: seq<string>)

  /** A result: the document's position in the search index, and its score. */
  datatype Ranked = Ranked(index: nat, score: nat)

  predicate Passes(d: Document, f: Filters) {
    && (f.categories == [] || d.category in f.categories)
    && (f.difficulties == [] || d.difficulty in f.difficulties)
  }

  /** The document at j belongs into the results, if there is room. */
  predicate Qualifies(docs: seq<Document>, f: Filters, terms: seq<string>, j: nat) {
    j < |docs| && Passes(docs[j], f) && Score(docs[j].fields, terms) > 0
  }

  /** The order of results: higher score first, ties by position in the index. */
  predicate Better(a: Ranked, b: Ranked) {
    a.score > b.score || (a.score == b.score && a.index < b.index)
  }

  predicate Ordered(s: seq<Ranked>) {
    forall i, j :: 0 <= i < j < |s| ==> Better(s[i], s[j])
  }

  /**
   What the search promises, said without an algorithm: qualifying documents with their
   scores, best first, at most `max` of them; and whatever qualifies but is left out comes
   after a full list of better ones.
   */
  predicate IsTop(docs: seq<Document>, f: Filters, terms: seq<string>, max: nat, results: seq<Ranked>) {
    && |results| <= max
    && Ordered(results)
    && (forall k :: 0 <= k < |results| ==>
          && Qualifies(docs, f, terms, results[k].index)
          && results[k].score == Score(docs[results[k].index].fields, terms))
    && (forall j :: 0 <= j < |docs| && Qualifies(docs, f, terms, j) ==>
          var r := Ranked(j, Score(docs[j].fields, terms));
          r in results || (|results| == max && forall k :: 0 <= k < |results| ==> Better(results[k], r)))
  }

  lemma TopAgreesAt(
    docs: seq<Document>, f: Filters, terms: seq<string>, max: nat, a: seq<Ranked>, b: seq<Ranked>, k: nat)
    requires IsTop(docs, f, terms, max, a) && IsTop(docs, f, terms, max, b)
    requires k < |a| && k < |b| && a[..k] == b[..k]
    ensures !Better(b[k], a[k])
  {
  }

  /** The promise leaves no choice: there is one such list. */
  lemma {:induction false} TopUnique(
    docs: seq<Document>, f: Filters, terms: seq<string>, max: nat, a: seq<Ranked>, b: seq<Ranked>, k: nat)
    requires IsTop(docs, f, terms, max, a) && IsTop(docs, f, terms, max, b)
    requires k <= |a| && k <= |b| && a[..k] == b[..k]
    ensures a == b
    decreases |a| - k
  {
    if k == |a| && k == |b| {
      assert a == a[..k] == b[..k] == b;
    } else if k < |a| && k < |b| {
      TopAgreesAt(docs, f, terms, max, a, b, k);
      TopAgreesAt(docs, f, terms, max, b, a, k);
      assert a[..k + 1] == a[..k] + [a[k]] && b[..k + 1] == b[..k] + [b[k]];
      TopUnique(docs, f, terms, max, a, b, k + 1);
    } else if k == |a| {
      NoMore(docs, f, terms, max, a, b);
    } else {
      NoMore(docs, f, terms, max, b, a);
    }
  }

  lemma DistinctQualified(docs: seq<Document>, f: Filters, terms: seq<string>, max: nat, b: seq<Ranked>)
    requires IsTop(docs, f, terms, max, b)
    ensures forall n :: 0 <= n < |b| ==> Qualifies(docs, f, terms, b[n].index) && b[n] !in b[..n]
  {
  }

  lemma ShortHoldsAll(docs: seq<Document>, f: Filters, terms: seq<string>, max: nat, a: seq<Ranked>)
    requires IsTop(docs, f, terms, max, a) && |a| < max
    ensures forall j :: 0 <= j < |docs| && Qualifies(docs, f, terms, j) ==> Ranked(j, Score(docs[j].fields, terms)) in a
  {
  }

  lemma NoMore(docs: seq<Document>, f: Filters, terms: seq<string>, max: nat, a: seq<Ranked>, b: seq<Ranked>)
    requires IsTop(docs, f, terms, max, a) && IsTop(docs, f, terms, max, b)
    requires |a| <= |b| && a == b[..|a|]
    ensures a == b
  {
    DistinctQualified(docs, f, terms, max, b);
    if |a| < max {
      ShortHoldsAll(docs, f, terms, max, a);
    }
  }

  /**
   The promise in terms of the documents: a result passes both filters and has some term in
   some field; and while the list is not full, every document that does is in it.
   */
  lemma ResultsMean(docs: seq<Document>, f: Filters, terms: seq<string>, max: nat, results: seq<Ranked>)
    requires IsTop(docs, f, terms, max, results)
    ensures forall k :: 0 <= k < |results| ==>
      && results[k].index < |docs|
      && (f.categories != [] ==> docs[results[k].index].category in f.categories)
      && (f.difficulties != [] ==> docs[results[k].index].difficulty in f.difficulties)
      && exists i :: 0 <= i < |terms| && Matches(docs[results[k].index].fields, terms[i])
    ensures forall j :: 0 <= j < |docs| && |results| < max ==>
      (f.categories == [] || docs[j].category in f.categories) ==>
      (f.difficulties == [] || docs[j].difficulty in f.difficulties) ==>
      (exists i :: 0 <= i < |terms| && Matches(docs[j].fields, terms[i])) ==>
        Ranked(j, Score(docs[j].fields, terms)) in results
  {
    forall k | 0 <= k < |results|
      ensures exists i :: 0 <= i < |terms| && Matches(docs[results[k].index].fields, terms[i])
    {
      ScorePositive(docs[results[k].index].fields, terms);
    }
    forall j | 0 <= j < |docs| && exists i :: 0 <= i < |terms| && Matches(docs[j].fields, terms[i])
      ensures Score(docs[j].fields, terms) > 0
    {
      ScorePositive(docs[j].fields, terms);
    }
    if |results| < max {
      ShortHoldsAll(docs, f, terms, max, results);
    }
  }

  // ---------------------------------------------------------------- the stable sort

  /** A later result goes behind every result with at least its score. */
  function Insert(s: seq<Ranked>, x: Ranked): seq<Ranked> {
    if s == [] || s[|s| - 1].score >= x.score then s + [x]
    else Insert(s[..|s| - 1], x) + [s[|s| - 1]]
  }

  lemma {:induction false} InsertOrders(s: seq<Ranked>, x: Ranked)
    requires Ordered(s) && forall i :: 0 <= i < |s| ==> s[i].index < x.index
    ensures Ordered(Insert(s, x)) && multiset(Insert(s, x)) == multiset(s) + multiset{x}
  {
    if s == [] || s[|s| - 1].score >= x.score {
    } else {
      var init, last := s[..|s| - 1], s[|s| - 1];
      InsertOrders(init, x);
      assert s == init + [last];
      var t := Insert(init, x);
      forall i | 0 <= i < |t|
        ensures Better(t[i], last)
      {
        assert t[i] in multiset(t);
        assert t[i] in init || t[i] == x;
      }
    }
  }

  /** Sorting results that arrive in index order, as a stable sort does. */
  method StableSort(results: seq<Ranked>) returns (sorted: seq<Ranked>)
    requires forall i, j :: 0 <= i < j < |results| ==> results[i].index < results[j].index
    ensures Ordered(sorted) && multiset(sorted) == multiset(results)
  {
    sorted := [];
    for i := 0 to |results|
      invariant Ordered(sorted) && multiset(sorted) == multiset(results[..i])
    {
      forall k | 0 <= k < |sorted|
        ensures sorted[k].index < results[i].index
      {
        assert sorted[k] in multiset(sorted);
        assert sorted[k] in results[..i];
      }
      InsertOrders(sorted, results[i]);
      assert results[..i + 1] == results[..i] + [results[i]];
      sorted := Insert(sorted, results[i]);
    }
    assert results[..|results|] == results;
  }

  // ---------------------------------------------------------------- the search

  /** Every qualifying document of docs[..n], in index order. */
  predicate Collected(docs: seq<Document>, f: Filters, terms: seq<string>, n: nat, results: seq<Ranked>)
    requires n <= |docs|
  {
    && (forall i, j :: 0 <= i < j < |results| ==> results[i].index < results[j].index)
    && (forall k :: 0 <= k < |results| ==>
          results[k].index < n && Qualifies(docs, f, terms, results[k].index)
          && results[k].score == Score(docs[results[k].index].fields, terms))
    && (forall j :: 0 <= j < n && Qualifies(docs, f, terms, j) ==> Ranked(j, Score(docs[j].fields, terms)) in results)
  }

  function Cut(s: seq<Ranked>, max: nat): seq<Ranked> {
    if |s| <= max then s else s[..max]
  }

  /** A qualifying document is in the cut, or behind everything in a full cut. */
  lemma CutCovers(sorted: seq<Ranked>, max: nat, r: Ranked)
    requires Ordered(sorted) && r in sorted
    ensures r in Cut(sorted, max) ||
      (|Cut(sorted, max)| == max && forall k :: 0 <= k < |Cut(sorted, max)| ==> Better(Cut(sorted, max)[k], r))
  {
  }

  lemma CutIsTop(docs: seq<Document>, f: Filters, terms: seq<string>, max: nat, all: seq<Ranked>, sorted: seq<Ranked>)
    requires Collected(docs, f, terms, |docs|, all) && Ordered(sorted) && multiset(sorted) == multiset(all)
    ensures IsTop(docs, f, terms, max, Cut(sorted, max))
  {
    forall r
      ensures r in sorted <==> r in all
    {
      assert r in multiset(sorted) <==> r in multiset(all);
    }
    forall k | 0 <= k < |Cut(sorted, max)|
      ensures Cut(sorted, max)[k] in all
    {
      assert Cut(sorted, max)[k] == sorted[k];
    }
    forall j | 0 <= j < |docs| && Qualifies(docs, f, terms, j)
      ensures var r := Ranked(j, Score(docs[j].fields, terms));
        || r in Cut(sorted, max)
        || (|Cut(sorted, max)| == max &&
            forall k :: 0 <= k < |Cut(sorted, max)| ==> Better(Cut(sorted, max)[k], r))
    {
      CutCovers(sorted, max, Ranked(j, Score(docs[j].fields, terms)));
    }
  }

  method SearchDocuments(docs: seq<Document>, filters: Filters, queryTerms: seq<string>, maxResults: nat)
    returns (results: seq<Ranked>)
    ensures IsTop(docs, filters, queryTerms, maxResults, results)
  {
    results := [];
    for i := 0 to |docs|
      invariant Collected(docs, filters, queryTerms, i, results)
    {
      var doc := docs[i];
      if filters.categories != [] && doc.category !in filters.categories {
        continue;
      }
      if filters.difficulties != [] && doc.difficulty !in filters.difficulties {
        continue;
      }
      var score := CalculateRelevanceScore(doc.fields, queryTerms);
      if score > 0 {
        results := results + [Ranked(i, score)];
      }
    }
    var sorted := StableSort(results);
    CutIsTop(docs, filters, queryTerms, maxResults, results, sorted);
    results := Cut(sorted, maxResults);
  }
}
