/** The relevance score of a document for a list of query terms. */
module Relevance {
  import opened Prelude

  /** The text of a document that is matched, already in lower case. */
  datatype Fields = Fields(
    title: string, description: string, keywords: seq<string>, headings: seq<string>, topics: seq<string>)

  /** The weight of one text for one term. */
  function Hit(s: string, term: string, exact: nat, partial: nat): nat {
    if Includes(s, term) then (if s == term then exact else partial) else 0
  }

  function Sum<T>(w: T -> nat, s: seq<T>): nat {
    if s == [] then 0 else Sum(w, s[..|s| - 1]) + w(s[|s| - 1])
  }

  function Weigh(term: string, exact: nat, partial: nat): string -> nat {
    s => Hit(s, term, exact, partial)
  }

  function TermScore(f: Fields, term: string): nat {
    Hit(f.title, term, 100, 50)
    + Sum(Weigh(term, 40, 20), f.headings)
    + Sum(Weigh(term, 30, 15), f.keywords)
    + Hit(f.description, term, 10, 10)
    + Sum(Weigh(term, 5, 5), f.topics)
  }

  function ScoreOf(f: Fields): string -> nat {
    term => TermScore(f, term)
  }

  function Score(f: Fields, terms: seq<string>): nat {
    Sum(ScoreOf(f), terms)
  }

  /** The accumulating loops of `calculateRelevanceScore`. */
  method CalculateRelevanceScore(f: Fields, queryTerms: seq<string>) returns (score: nat)
    ensures score == Score(f, queryTerms)
  {
    score := 0;
    for i := 0 to |queryTerms|
      invariant score == Score(f, queryTerms[..i])
    {
      var term := queryTerms[i];
      ghost var before := score;
      if Includes(f.title, term) {
        score := score + if f.title == term then 100 else 50;
      }
      score := AddHits(score, f.headings, term, 40, 20);
      score := AddHits(score, f.keywords, term, 30, 15);
      if Includes(f.description, term) {
        score := score + 10;
      }
      score := AddHits(score, f.topics, term, 5, 5);
      assert queryTerms[..i + 1][..i] == queryTerms[..i];
    }
    assert queryTerms[..|queryTerms|] == queryTerms;
  }

  method AddHits(start: nat, texts: seq<string>, term: string, exact: nat, partial: nat) returns (score: nat)
    ensures score == start + Sum(Weigh(term, exact, partial), texts)
  {
    score := start;
    for i := 0 to |texts|
      invariant score == start + Sum(Weigh(term, exact, partial), texts[..i])
    {
      if Includes(texts[i], term) {
        score := score + if texts[i] == term then exact else partial;
      }
      assert texts[..i + 1][..i] == texts[..i];
    }
    assert texts[..|texts|] == texts;
  }

  // ---------------------------------------------------------------- sums

  lemma {:induction false} SumConcat<T>(w: T -> nat, a: seq<T>, b: seq<T>)
    ensures Sum(w, a + b) == Sum(w, a) + Sum(w, b)
  {
    if b == [] {
      assert a + b == a;
    } else {
      var s := a + b;
      assert s[..|s| - 1] == a + b[..|b| - 1];
      SumConcat(w, a, b[..|b| - 1]);
    }
  }

  lemma SumSingle<T>(w: T -> nat, x: T)
    ensures Sum(w, [x]) == w(x)
  {
  }

  /** Taking the same element out of two permutations leaves permutations. */
  lemma TakeOut<T>(init: seq<T>, x: T, before: seq<T>, after: seq<T>)
    requires multiset(init + [x]) == multiset(before + ([x] + after))
    ensures multiset(init) == multiset(before + after)
  {
    var whole := multiset(before) + multiset{x} + multiset(after);
    assert multiset(before + ([x] + after)) == whole;
    assert multiset(init + [x]) == multiset(init) + multiset{x};
    assert multiset(init) == whole - multiset{x};
  }

  /** A sum does not depend on the order. */
  lemma {:induction false} SumPermuted<T>(w: T -> nat, a: seq<T>, b: seq<T>)
    requires multiset(a) == multiset(b)
    ensures Sum(w, a) == Sum(w, b)
  {
    if a == [] {
      assert |b| == |multiset(b)| == 0;
    } else {
      var x, init := a[|a| - 1], a[..|a| - 1];
      assert a == init + [x];
      assert x in multiset(b);
      var i :| 0 <= i < |b| && b[i] == x;
      var before, after := b[..i], b[i + 1..];
      assert b == before + ([x] + after);
      TakeOut(init, x, before, after);
      SumPermuted(w, init, before + after);
      SumConcat(w, before, after);
      SumConcat(w, before, [x] + after);
      SumConcat(w, [x], after);
      SumSingle(w, x);
    }
  }

  lemma {:induction false} SumPositive<T>(w: T -> nat, s: seq<T>)
    ensures Sum(w, s) > 0 <==> exists i :: 0 <= i < |s| && w(s[i]) > 0
  {
    if s != [] {
      SumPositive(w, s[..|s| - 1]);
    }
  }

  lemma {:induction false} SumBound<T>(w: T -> nat, s: seq<T>, most: nat)
    requires forall i :: 0 <= i < |s| ==> w(s[i]) <= most
    ensures Sum(w, s) <= |s| * most
  {
    if s != [] {
      SumBound(w, s[..|s| - 1], most);
      assert |s| * most == (|s| - 1) * most + most;
    }
  }

  // ---------------------------------------------------------------- the score

  /** Scores add up over concatenated term lists. */
  lemma ScoreAdditive(f: Fields, a: seq<string>, b: seq<string>)
    ensures Score(f, a + b) == Score(f, a) + Score(f, b)
  {
    SumConcat(ScoreOf(f), a, b);
  }

  /** Reordering terms, headings, keywords or topics leaves the score alone. */
  lemma ScorePermuted(f: Fields, g: Fields, a: seq<string>, b: seq<string>)
    requires f.title == g.title && f.description == g.description
    requires multiset(f.headings) == multiset(g.headings)
    requires multiset(f.keywords) == multiset(g.keywords) && multiset(f.topics) == multiset(g.topics)
    requires multiset(a) == multiset(b)
    ensures Score(f, a) == Score(g, b)
  {
    SumPermuted(ScoreOf(f), a, b);
    SameTermScores(f, g, b);
  }

  lemma {:induction false} SameTermScores(f: Fields, g: Fields, terms: seq<string>)
    requires f.title == g.title && f.description == g.description
    requires multiset(f.headings) == multiset(g.headings)
    requires multiset(f.keywords) == multiset(g.keywords) && multiset(f.topics) == multiset(g.topics)
    ensures Score(f, terms) == Score(g, terms)
  {
    if terms != [] {
      var term := terms[|terms| - 1];
      SameTermScores(f, g, terms[..|terms| - 1]);
      SumPermuted(Weigh(term, 40, 20), f.headings, g.headings);
      SumPermuted(Weigh(term, 30, 15), f.keywords, g.keywords);
      SumPermuted(Weigh(term, 5, 5), f.topics, g.topics);
    }
  }

  /** Some field of the document contains the term. */
  predicate Matches(f: Fields, term: string) {
    || Includes(f.title, term)
    || Includes(f.description, term)
    || (exists i :: 0 <= i < |f.headings| && Includes(f.headings[i], term))
    || (exists i :: 0 <= i < |f.keywords| && Includes(f.keywords[i], term))
    || (exists i :: 0 <= i < |f.topics| && Includes(f.topics[i], term))
  }

  lemma SomeHit(texts: seq<string>, term: string, exact: nat, partial: nat)
    requires exact > 0 && partial > 0
    ensures Sum(Weigh(term, exact, partial), texts) > 0 <==> exists i :: 0 <= i < |texts| && Includes(texts[i], term)
  {
  }

  lemma TermPositive(f: Fields, term: string)
    ensures TermScore(f, term) > 0 <==> Matches(f, term)
  {
    SomeHit(f.headings, term, 40, 20);
    SomeHit(f.keywords, term, 30, 15);
    SomeHit(f.topics, term, 5, 5);
  }

  /** A document scores exactly when some term occurs in some of its fields. */
  lemma ScorePositive(f: Fields, terms: seq<string>)
    ensures Score(f, terms) > 0 <==> exists i :: 0 <= i < |terms| && Matches(f, terms[i])
  {
    SumPositive(ScoreOf(f), terms);
    forall i | 0 <= i < |terms|
      ensures ScoreOf(f)(terms[i]) > 0 <==> Matches(f, terms[i])
    {
      TermPositive(f, terms[i]);
    }
  }

  function MostPerTerm(f: Fields): nat {
    110 + 40 * |f.headings| + 30 * |f.keywords| + 5 * |f.topics|
  }

  /** The most a document can score, per term. */
  lemma ScoreBound(f: Fields, terms: seq<string>)
    ensures Score(f, terms) <= |terms| * MostPerTerm(f)
  {
    forall i | 0 <= i < |terms|
      ensures ScoreOf(f)(terms[i]) <= MostPerTerm(f)
    {
      SumBound(Weigh(terms[i], 40, 20), f.headings, 40);
      SumBound(Weigh(terms[i], 30, 15), f.keywords, 30);
      SumBound(Weigh(terms[i], 5, 5), f.topics, 5);
    }
    SumBound(ScoreOf(f), terms, MostPerTerm(f));
  }

  lemma {:induction false} SumConstant<T>(w: T -> nat, s: seq<T>, c: nat)
    requires forall i :: 0 <= i < |s| ==> w(s[i]) == c
    ensures Sum(w, s) == |s| * c
  {
    if s != [] {
      SumConstant(w, s[..|s| - 1], c);
      assert |s| * c == (|s| - 1) * c + c;
    }
  }

  /** All texts of the document satisfy p. */
  ghost predicate Everywhere(f: Fields, p: string -> bool) {
    && p(f.title) && p(f.description)
    && (forall i :: 0 <= i < |f.headings| ==> p(f.headings[i]))
    && (forall i :: 0 <= i < |f.keywords| ==> p(f.keywords[i]))
    && (forall i :: 0 <= i < |f.topics| ==> p(f.topics[i]))
  }

  /**
   The bound is met by a document whose every text is the term; one that only contains it
   everywhere scores half of it and more.
   */
  lemma TermScoreExtremes(f: Fields, term: string)
    ensures Everywhere(f, s => s == term) ==> TermScore(f, term) == MostPerTerm(f)
    ensures Everywhere(f, s => s != term && Includes(s, term)) ==>
      TermScore(f, term) == 60 + 20 * |f.headings| + 15 * |f.keywords| + 5 * |f.topics|
  {
    assert Includes(term, term) by {
      assert term[0..|term|] == term;
      assert OccursAt(term, term, 0);
    }
    if Everywhere(f, s => s == term) {
      SumConstant(Weigh(term, 40, 20), f.headings, 40);
      SumConstant(Weigh(term, 30, 15), f.keywords, 30);
      SumConstant(Weigh(term, 5, 5), f.topics, 5);
    }
    if Everywhere(f, s => s != term && Includes(s, term)) {
      SumConstant(Weigh(term, 40, 20), f.headings, 20);
      SumConstant(Weigh(term, 30, 15), f.keywords, 15);
      SumConstant(Weigh(term, 5, 5), f.topics, 5);
    }
  }

  /** What a field alone is worth: the score of a document with nothing but that text in it. */
  lemma FieldShares(s: string, term: string)
    requires term != ""
    ensures TermScore(Fields(s, "", [], [], []), term) ==
      if s == term then 100 else if Includes(s, term) then 50 else 0
    ensures TermScore(Fields("", "", [], [s], []), term) ==
      if s == term then 40 else if Includes(s, term) then 20 else 0
    ensures TermScore(Fields("", "", [s], [], []), term) ==
      if s == term then 30 else if Includes(s, term) then 15 else 0
    ensures TermScore(Fields("", s, [], [], []), term) == if Includes(s, term) then 10 else 0
    ensures TermScore(Fields("", "", [], [], [s]), term) == if Includes(s, term) then 5 else 0
  {
    assert term[0..|term|] == term;
    assert OccursAt(term, term, 0);
    SumSingle(Weigh(term, 40, 20), s);
    SumSingle(Weigh(term, 30, 15), s);
    SumSingle(Weigh(term, 5, 5), s);
  }

  /** And the score of a document is what its texts are worth, one by one. */
  lemma SharesAddUp(f: Fields, more: Fields, term: string)
    requires term != ""
    ensures TermScore(f, term) ==
      TermScore(Fields(f.title, "", [], [], []), term)
      + TermScore(Fields("", f.description, [], [], []), term)
      + TermScore(Fields("", "", f.keywords, [], []), term)
      + TermScore(Fields("", "", [], f.headings, []), term)
      + TermScore(Fields("", "", [], [], f.topics), term)
    ensures var both := Fields("", "", f.keywords + more.keywords, f.headings + more.headings, f.topics + more.topics);
      TermScore(both, term) ==
        TermScore(Fields("", "", f.keywords, f.headings, f.topics), term)
        + TermScore(Fields("", "", more.keywords, more.headings, more.topics), term)
  {
    SumConcat(Weigh(term, 40, 20), f.headings, more.headings);
    SumConcat(Weigh(term, 30, 15), f.keywords, more.keywords);
    SumConcat(Weigh(term, 5, 5), f.topics, more.topics);
  }
}
