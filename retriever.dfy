/** The knowledge-base retriever of the triage pipeline (`retrieveKBArticles`):
    every published article is scored against the lower-cased ticket text, the
    articles scoring zero are dropped, the rest are sorted by descending score
    (a stable sort, so ties keep the article order) and the first three kept. */
module Retriever {
  import opened Seqs
  import opened Text
  import opened Records
  import opened Classifier

  /** How many articles the retriever returns at most (`slice(0, 3)`). */
  const TopK: nat := 3

  /** `${title} ${body} ${tags.join(' ')}`.toLowerCase(). */
  function ArticleText(a: Article): string
  {
    ToLower(a.title + " " + a.body + " " + Join(a.tags, " "))
  }

  /** How many of `words` are longer than three UTF-16 code units and occur in `articleText`
      (each occurrence in `words` counts). */
  function WordHits(words: seq<string>, articleText: string): nat
  {
    if words == [] then 0
    else
      var w := words[|words| - 1];
      WordHits(words[..|words| - 1], articleText) + (if Utf16Length(w) > 3 && Contains(articleText, w) then 1 else 0)
  }

  /** How many of the article's `tags` occur in the ticket text. */
  function TagHits(tags: seq<string>, text: string): nat
  {
    if tags == [] then 0
    else
      TagHits(tags[..|tags| - 1], text) + (if Contains(text, tags[|tags| - 1]) then 1 else 0)
  }

  /** The integer score before scaling: one point per long ticket word found in
      the article, two points per article tag found in the ticket. */
  function RawScore(text: string, a: Article): nat
  {
    WordHits(Split(text, ' '), ArticleText(a)) + 2 * TagHits(a.tags, text)
  }

  /** `Math.min(score / 10, 1.0)`. */
  function Scaled(raw: nat): real
  {
    MinReal(raw as real / 10.0, 1.0)
  }

  function ArticleScore(text: string, a: Article): real
  {
    Scaled(RawScore(text, a))
  }

  /** A scaled score lies in [0, 1] and is positive exactly when some point was scored. */
  lemma ScaledRange(raw: nat)
    ensures 0.0 <= Scaled(raw) <= 1.0
    ensures Scaled(raw) > 0.0 <==> raw > 0
    ensures raw >= 10 ==> Scaled(raw) == 1.0
  {
  }

  /** The score computation of `retrieveKBArticles`: two `forEach` loops adding
      to `score`, then the scaling. */
  method ScoreArticle(text: string, article: Article) returns (score: real)
    ensures score == ArticleScore(text, article)
    ensures 0.0 <= score <= 1.0
  {
    var articleText := ArticleText(article);
    var raw := 0;
    var words := Split(text, ' ');
    var i := 0;
    while i < |words|
      invariant 0 <= i <= |words|
      invariant raw == WordHits(words[..i], articleText)
    {
      assert words[..i + 1][..i] == words[..i];
      if Utf16Length(words[i]) > 3 && Contains(articleText, words[i]) {
        raw := raw + 1;
      }
      i := i + 1;
    }
    assert words[..i] == words;
    var tags := article.tags;
    var j := 0;
    ghost var wordRaw := raw;
    while j < |tags|
      invariant 0 <= j <= |tags|
      invariant raw == wordRaw + 2 * TagHits(tags[..j], text)
    {
      assert tags[..j + 1][..j] == tags[..j];
      if Contains(text, tags[j]) {
        raw := raw + 2;
      }
      j := j + 1;
    }
    assert tags[..j] == tags;
    score := MinReal(raw as real / 10.0, 1.0);
    ScaledRange(raw);
  }

  /** `kbArticles.filter(a => a.status === 'published')`. */
  function PublishedOnly(articles: seq<Article>): seq<Article>
  {
    Filter((a: Article) => a.status == Published, articles)
  }

  /** `articles.map(article => ({ ...article, score }))`. */
  function ScoreAll(text: string, articles: seq<Article>): (r: seq<Scored>)
    ensures |r| == |articles|
    ensures forall i :: 0 <= i < |articles| ==> r[i] == Scored(articles[i], ArticleScore(text, articles[i]))
  {
    if articles == [] then []
    else
      var last := articles[|articles| - 1];
      ScoreAll(text, articles[..|articles| - 1]) + [Scored(last, ArticleScore(text, last))]
  }

  /** `scored.filter(a => a.score > 0)`. */
  function Candidates(text: string, articles: seq<Article>): seq<Scored>
  {
    Filter((s: Scored) => s.score > 0.0, ScoreAll(text, PublishedOnly(articles)))
  }

  // ---------------------------------------------------------------------------
  // The stable descending sort `sort((a, b) => b.score - a.score)`
  // ---------------------------------------------------------------------------

  /** Inserts `x` in front of the first element that does not score higher. */
  function InsertDesc(x: Scored, r: seq<Scored>): seq<Scored>
  {
    if r == [] || x.score >= r[0].score then [x] + r
    else [r[0]] + InsertDesc(x, r[1..])
  }

  /** Insertion sort by descending score; of two equal scores the earlier element stays first. */
  function SortDesc(s: seq<Scored>): seq<Scored>
  {
    if s == [] then [] else InsertDesc(s[0], SortDesc(s[1..]))
  }

  ghost predicate NonIncreasing(s: seq<Scored>)
  {
    forall i, j :: 0 <= i < j < |s| ==> s[i].score >= s[j].score
  }

  /** The elements of `s` scoring exactly `v`, in their order in `s`. */
  function WithScore(s: seq<Scored>, v: real): seq<Scored>
  {
    if s == [] then [] else (if s[0].score == v then [s[0]] else []) + WithScore(s[1..], v)
  }

  lemma {:induction false} WithScoreAppend(a: seq<Scored>, b: seq<Scored>, v: real)
    ensures WithScore(a + b, v) == WithScore(a, v) + WithScore(b, v)
  {
    if a == [] {
      assert a + b == b;
    } else {
      var ab := a + b;
      var head := if a[0].score == v then [a[0]] else [];
      assert ab[0] == a[0] && ab[1..] == a[1..] + b;
      calc {
        WithScore(ab, v);
        head + WithScore(a[1..] + b, v);
        { WithScoreAppend(a[1..], b, v); }
        head + (WithScore(a[1..], v) + WithScore(b, v));
        (head + WithScore(a[1..], v)) + WithScore(b, v);
      }
    }
  }

  /** Inserting adds exactly `x` to the elements. */
  lemma {:induction false} InsertDescPerm(x: Scored, r: seq<Scored>)
    ensures multiset(InsertDesc(x, r)) == multiset(r) + multiset{x}
  {
    if r != [] && x.score < r[0].score {
      InsertDescPerm(x, r[1..]);
      assert r == [r[0]] + r[1..];
    }
  }

  /** Inserting into a sorted sequence keeps it sorted. */
  lemma {:induction false} InsertDescSorted(x: Scored, r: seq<Scored>)
    requires NonIncreasing(r)
    ensures NonIncreasing(InsertDesc(x, r))
  {
    if r != [] && x.score < r[0].score {
      var rest := InsertDesc(x, r[1..]);
      InsertDescSorted(x, r[1..]);
      InsertDescPerm(x, r[1..]);
      forall y | y in rest ensures r[0].score >= y.score {
        assert y in multiset(rest);
        if y != x {
          assert y in r[1..];
        }
      }
    }
  }

  /** Inserting `x` puts it in front of every element of its own score. */
  lemma {:induction false} InsertDescStable(x: Scored, r: seq<Scored>, v: real)
    ensures WithScore(InsertDesc(x, r), v) == if x.score == v then [x] + WithScore(r, v) else WithScore(r, v)
  {
    if r != [] && x.score < r[0].score {
      InsertDescStable(x, r[1..], v);
    }
  }

  /** The sort is a permutation. */
  lemma {:induction false} SortDescPerm(s: seq<Scored>)
    ensures multiset(SortDesc(s)) == multiset(s)
  {
    if s != [] {
      SortDescPerm(s[1..]);
      InsertDescPerm(s[0], SortDesc(s[1..]));
      assert s == [s[0]] + s[1..];
    }
  }

  /** The sort orders by non-increasing score. */
  lemma {:induction false} SortDescSorted(s: seq<Scored>)
    ensures NonIncreasing(SortDesc(s))
  {
    if s != [] {
      SortDescSorted(s[1..]);
      InsertDescSorted(s[0], SortDesc(s[1..]));
    }
  }

  /** The sort is stable: the elements of any one score keep their order. */
  lemma {:induction false} SortDescStable(s: seq<Scored>, v: real)
    ensures WithScore(SortDesc(s), v) == WithScore(s, v)
  {
    if s != [] {
      SortDescStable(s[1..], v);
      InsertDescStable(s[0], SortDesc(s[1..]), v);
    }
  }

  /** The sort orders by non-increasing score, is a permutation, and is stable:
      for every score, the elements with that score keep their original order. */
  lemma SortDescSpec(s: seq<Scored>)
    ensures NonIncreasing(SortDesc(s))
    ensures multiset(SortDesc(s)) == multiset(s)
    ensures forall v :: WithScore(SortDesc(s), v) == WithScore(s, v)
  {
    SortDescSorted(s);
    SortDescPerm(s);
    forall v ensures WithScore(SortDesc(s), v) == WithScore(s, v) {
      SortDescStable(s, v);
    }
  }

  /** Reference definition of `retrieveKBArticles`: the first three of the
      positively scored published articles, sorted stably by descending score. */
  function Retrieve(text: string, articles: seq<Article>): seq<Scored>
  {
    TopScored(Candidates(text, articles))
  }

  /** `sort((a, b) => b.score - a.score).slice(0, 3)`. */
  function TopScored(c: seq<Scored>): seq<Scored>
  {
    var sorted := SortDesc(c);
    if |sorted| <= TopK then sorted else sorted[..TopK]
  }

  /** `retrieveKBArticles`: scores the published articles, then filters, sorts
      and slices. */
  method RetrieveKBArticles(ticket: Ticket, articles: seq<Article>) returns (r: seq<Scored>)
    ensures r == Retrieve(TicketText(ticket), articles)
  {
    var text := TicketText(ticket);
    var scored := ScorePublished(text, PublishedOnly(articles));
    var sorted := SortDesc(Filter((s: Scored) => s.score > 0.0, scored));
    r := if |sorted| <= TopK then sorted else sorted[..TopK];
  }

  /** The scoring loop of `retrieveKBArticles`: one `Scored` entry per article,
      in article order. */
  method ScorePublished(text: string, published: seq<Article>) returns (scored: seq<Scored>)
    ensures scored == ScoreAll(text, published)
  {
    scored := [];
    var i := 0;
    while i < |published|
      invariant 0 <= i <= |published|
      invariant scored == ScoreAll(text, published[..i])
    {
      assert published[..i + 1][..i] == published[..i];
      var score := ScoreArticle(text, published[i]);
      scored := scored + [Scored(published[i], score)];
      i := i + 1;
    }
    assert published[..i] == published;
  }

  /** A candidate is a published article of the knowledge base paired with its
      score, and that score lies in (0, 1]. */
  lemma CandidateSpec(text: string, articles: seq<Article>, x: Scored)
    requires x in Candidates(text, articles)
    ensures x.article in articles && x.article.status == Published
    ensures x.score == ArticleScore(text, x.article) && 0.0 < x.score <= 1.0
  {
    var published := PublishedOnly(articles);
    var all := ScoreAll(text, published);
    FilterSpec((a: Article) => a.status == Published, articles);
    FilterSpec((s: Scored) => s.score > 0.0, all);
    var i :| 0 <= i < |all| && all[i] == x;
    assert x.article == published[i];
    ScaledRange(RawScore(text, x.article));
  }

  /** Splitting a sorted sequence after `k` elements: the front keeps the sort
      order, every element behind it scores no higher than any in front, and
      per score the front is a prefix of the whole. */
  lemma {:induction false} SortedTake(sorted: seq<Scored>, k: nat)
    requires NonIncreasing(sorted) && k <= |sorted|
    ensures NonIncreasing(sorted[..k])
    ensures multiset(sorted) == multiset(sorted[..k]) + multiset(sorted[k..])
    ensures forall x, y :: x in multiset(sorted[k..]) && y in sorted[..k] ==> x.score <= y.score
    ensures forall v :: WithScore(sorted[..k], v) <= WithScore(sorted, v)
  {
    assert sorted == sorted[..k] + sorted[k..];
    forall x, y | x in multiset(sorted[k..]) && y in sorted[..k] ensures x.score <= y.score {
      var i :| 0 <= i < |sorted[k..]| && sorted[k..][i] == x;
      var j :| 0 <= j < k && sorted[..k][j] == y;
      assert sorted[k + i] == x && sorted[j] == y;
    }
    forall v ensures WithScore(sorted[..k], v) <= WithScore(sorted, v) {
      WithScoreAppend(sorted[..k], sorted[k..], v);
    }
  }

  /** Every retrieved entry is a published article of the knowledge base with
      its own score in (0, 1], and there are at most three of them. */
  lemma RetrieveSound(text: string, articles: seq<Article>)
    ensures |Retrieve(text, articles)| <= TopK
    ensures forall x :: x in Retrieve(text, articles) ==>
              x.article in articles && x.article.status == Published &&
              x.score == ArticleScore(text, x.article) && 0.0 < x.score <= 1.0
  {
    var c := Candidates(text, articles);
    var sorted := SortDesc(c);
    var r := Retrieve(text, articles);
    SortDescSpec(c);
    forall x | x in r
      ensures x.article in articles && x.article.status == Published
      ensures x.score == ArticleScore(text, x.article) && 0.0 < x.score <= 1.0
    {
      assert x in sorted;
      assert x in multiset(sorted);
      CandidateSpec(text, articles, x);
    }
  }

  /** The top three of a list of scored entries are its best-scoring entries:
      as many as there are entries up to three, taken from the entries, in
      non-increasing score order, no dropped entry outscoring a kept one, and
      among equal scores a prefix of the entries in their original order. */
  lemma TopScoredSpec(c: seq<Scored>)
    ensures var r := TopScored(c);
            |r| == (if |c| <= TopK then |c| else TopK) &&
            multiset(r) <= multiset(c) &&
            NonIncreasing(r)
    ensures var r := TopScored(c);
            (forall x, y :: x in multiset(c) - multiset(r) && y in r ==> x.score <= y.score) &&
            (forall v :: WithScore(r, v) <= WithScore(c, v))
  {
    var sorted := SortDesc(c);
    var r := TopScored(c);
    SortDescSpec(c);
    assert |sorted| == |c| by {
      assert |multiset(sorted)| == |multiset(c)|;
    }
    var k := |r|;
    assert r == sorted[..k];
    SortedTake(sorted, k);
    assert multiset(c) - multiset(r) == multiset(sorted[k..]);
  }

  /** The retrieved entries are the best-scoring candidates: as many as there
      are candidates up to three, taken from the candidates, in non-increasing
      score order, no dropped candidate outscoring a kept one, and among equal
      scores a prefix of the candidates in article order. */
  lemma RetrieveTop(text: string, articles: seq<Article>)
    ensures var r := Retrieve(text, articles);
            var c := Candidates(text, articles);
            |r| == (if |c| <= TopK then |c| else TopK) &&
            multiset(r) <= multiset(c) &&
            NonIncreasing(r)
    ensures var r := Retrieve(text, articles);
            var c := Candidates(text, articles);
            (forall x, y :: x in multiset(c) - multiset(r) && y in r ==> x.score <= y.score) &&
            (forall v :: WithScore(r, v) <= WithScore(c, v))
  {
    TopScoredSpec(Candidates(text, articles));
  }
}
