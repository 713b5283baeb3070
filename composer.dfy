/** The reply composer of the triage pipeline (`generateReply`): a greeting
    chosen by category, then either a numbered list of the retrieved article
    titles or a promise of human follow-up; the confidence is the classifier's,
    raised by 0.3 times the mean retrieval score and capped at 0.95 when
    articles were found. */
module Composer {
  import opened Text
  import opened Records

  /** The opening sentence for each category. */
  function Template(c: Category): string
  {
    match c
    case Billing => "Thank you for contacting us about your billing inquiry. "
    case Tech => "I understand you're experiencing technical difficulties. "
    case Shipping => "I can help you with your shipping inquiry. "
    case Other => "Thank you for reaching out to us. "
  }

  const ResourcesIntro: string := "I've found some helpful resources that should address your concern:\n\n"
  const ResourcesOutro: string := "\nPlease review these articles and let us know if you need any additional assistance."
  const FollowUp: string := "I'll make sure our team reviews your request and gets back to you soon."

  /** The confidence cap once articles were found. */
  const DraftCap: real := 0.95

  /** One list line, `${index + 1}. ${title}\n`, for the 1-based position `n`. */
  function Item(n: nat, title: string): string
  {
    DecimalString(n) + ". " + title + "\n"
  }

  /** The numbered list of the titles of `kb`, one line per article. */
  function Items(kb: seq<Scored>): string
  {
    if kb == [] then ""
    else Items(kb[..|kb| - 1]) + Item(|kb|, kb[|kb| - 1].article.title)
  }

  /** Reference definition of the draft text. */
  function DraftText(c: Category, kb: seq<Scored>): string
  {
    if |kb| > 0 then Template(c) + ResourcesIntro + Items(kb) + ResourcesOutro
    else Template(c) + FollowUp
  }

  /** `kbArticles.reduce((sum, a) => sum + a.score, 0)`. */
  function SumScores(kb: seq<Scored>): real
  {
    if kb == [] then 0.0 else SumScores(kb[..|kb| - 1]) + kb[|kb| - 1].score
  }

  /** The classifier's confidence, or with articles
      `Math.min(confidence + avgKBScore * 0.3, 0.95)`. */
  function DraftConfidence(confidence: real, kb: seq<Scored>): real
  {
    if |kb| > 0 then MinReal(confidence + SumScores(kb) / (|kb| as real) * 0.3, DraftCap)
    else confidence
  }

  /** `kbArticles.map(a => a.id)`. */
  function ArticleIds(kb: seq<Scored>): (ids: seq<string>)
    ensures |ids| == |kb|
    ensures forall i :: 0 <= i < |kb| ==> ids[i] == kb[i].article.id
  {
    if kb == [] then [] else ArticleIds(kb[..|kb| - 1]) + [kb[|kb| - 1].article.id]
  }

  /** `kbArticles.map(r => r.score)`. */
  function Scores(kb: seq<Scored>): (scores: seq<real>)
    ensures |scores| == |kb|
    ensures forall i :: 0 <= i < |kb| ==> scores[i] == kb[i].score
  {
    if kb == [] then [] else Scores(kb[..|kb| - 1]) + [kb[|kb| - 1].score]
  }

  /** Reference definition of `generateReply`. */
  function Compose(kb: seq<Scored>, classification: Classification): DraftReply
  {
    DraftReply(DraftText(classification.predictedCategory, kb),
          DraftConfidence(classification.confidence, kb),
          ArticleIds(kb))
  }

  /** `generateReply`: appends one list line per article in a loop and sums
      the scores with a fold. The ticket itself is not read. */
  method GenerateReply(kb: seq<Scored>, classification: Classification) returns (d: DraftReply)
    ensures d == Compose(kb, classification)
  {
    var reply := Template(classification.predictedCategory);
    if |kb| > 0 {
      var list := "";
      var i := 0;
      while i < |kb|
        invariant 0 <= i <= |kb|
        invariant list == Items(kb[..i])
      {
        assert kb[..i + 1][..i] == kb[..i];
        list := list + Item(i + 1, kb[i].article.title);
        i := i + 1;
      }
      assert kb[..i] == kb;
      reply := reply + ResourcesIntro + list + ResourcesOutro;
    } else {
      reply := reply + FollowUp;
    }
    var confidence := classification.confidence;
    if |kb| > 0 {
      var sum := SumOf(kb);
      confidence := MinReal(confidence + sum / (|kb| as real) * 0.3, DraftCap);
    }
    d := DraftReply(reply, confidence, ArticleIds(kb));
  }

  /** The `reduce` summing the retrieval scores. */
  method SumOf(kb: seq<Scored>) returns (sum: real)
    ensures sum == SumScores(kb)
  {
    sum := 0.0;
    var j := 0;
    while j < |kb|
      invariant 0 <= j <= |kb|
      invariant sum == SumScores(kb[..j])
    {
      assert kb[..j + 1][..j] == kb[..j];
      sum := sum + kb[j].score;
      j := j + 1;
    }
    assert kb[..j] == kb;
  }

  /** Without articles the draft is the greeting and the follow-up promise, the
      confidence is the classifier's and nothing is cited. */
  lemma ComposeNoArticles(classification: Classification)
    ensures var d := Compose([], classification);
            d.draftReply == Template(classification.predictedCategory) + FollowUp &&
            d.confidence == classification.confidence &&
            d.citations == []
  {
  }

  /** The sum of scores in [0, 1] lies between 0 and the number of scores. */
  lemma {:induction false} SumScoresBounds(kb: seq<Scored>)
    requires forall x :: x in kb ==> 0.0 <= x.score <= 1.0
    ensures 0.0 <= SumScores(kb) <= |kb| as real
  {
    if kb != [] {
      assert forall x :: x in kb[..|kb| - 1] ==> x in kb;
      SumScoresBounds(kb[..|kb| - 1]);
      assert kb[|kb| - 1] in kb;
    }
  }

  /** With articles scored in [0, 1] and a classifier confidence at most 0.95,
      the draft confidence never falls below the classifier's, rises by at most
      0.3 and never exceeds 0.95. */
  lemma ComposeConfidenceBounds(kb: seq<Scored>, classification: Classification)
    requires |kb| > 0
    requires forall x :: x in kb ==> 0.0 <= x.score <= 1.0
    requires classification.confidence <= DraftCap
    ensures var c := Compose(kb, classification).confidence;
            classification.confidence <= c <= DraftCap && c <= classification.confidence + 0.3
  {
    SumScoresBounds(kb);
    var n := |kb| as real;
    var avg := SumScores(kb) / n;
    assert 0.0 <= avg <= 1.0 by {
      assert SumScores(kb) <= n;
      assert avg * n == SumScores(kb);
    }
  }

  /** The list holds the line of every article, numbered from 1. */
  lemma {:induction false} ItemsContains(kb: seq<Scored>, i: nat)
    requires i < |kb|
    ensures Contains(Items(kb), Item(i + 1, kb[i].article.title))
    decreases |kb|
  {
    var front := kb[..|kb| - 1];
    if i == |kb| - 1 {
      ContainsMiddle(Items(front), Item(i + 1, kb[i].article.title), "");
      assert Items(front) + Item(i + 1, kb[i].article.title) + "" == Items(kb);
    } else {
      assert front[i] == kb[i];
      ItemsContains(front, i);
      ContainsMiddle("", Items(front), Item(|kb|, kb[|kb| - 1].article.title));
      assert "" + Items(front) + Item(|kb|, kb[|kb| - 1].article.title) == Items(kb);
      ContainsTransitive(Items(kb), Items(front), Item(i + 1, kb[i].article.title));
    }
  }

  /** The draft lists every retrieved article as `n. title` in retrieval order,
      and cites exactly the retrieved article ids in that order. */
  lemma ComposeListsArticles(kb: seq<Scored>, classification: Classification)
    requires |kb| > 0
    ensures var d := Compose(kb, classification);
            (forall i :: 0 <= i < |kb| ==> Contains(d.draftReply, Item(i + 1, kb[i].article.title))) &&
            d.citations == ArticleIds(kb)
  {
    var d := Compose(kb, classification);
    var head := Template(classification.predictedCategory) + ResourcesIntro;
    assert d.draftReply == head + Items(kb) + ResourcesOutro;
    ContainsMiddle(head, Items(kb), ResourcesOutro);
    forall i | 0 <= i < |kb| ensures Contains(d.draftReply, Item(i + 1, kb[i].article.title)) {
      ItemsContains(kb, i);
      ContainsTransitive(d.draftReply, Items(kb), Item(i + 1, kb[i].article.title));
    }
  }
}
